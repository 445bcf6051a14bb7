/** The member checks of `scripts/safe_extract_tar.py`: a bounded stream, and an
    archive judged partly member by member and partly when all have been seen. */
module SafeExtract {
  import opened Basics
  import opened Bytes
  import opened PayloadPaths
  import opened Streams

  // ----------------------------------------------------------- bounded stream

  class BoundedReader {
    const source: Source
    ghost const limit: nat
    var remaining: int
    ghost var handed: nat

    constructor (source: Source, limit: nat)
      ensures this.source == source && this.limit == limit && Valid() && handed == 0 && remaining == limit
    {
      this.source, this.limit := source, limit;
      remaining, handed := limit, 0;
    }

    /** What is left of the limit; negative once a read has gone past it. */
    ghost predicate Valid()
      reads this
    {
      remaining == limit - handed && remaining >= -1
    }

    /** Hands out the source's bytes in order and never more than the limit in
        all; it fails, then and for good, when there are more. */
    method Read(size: Option<nat>) returns (data: Option<Bytes>)
      requires Valid()
      modifies this, source
      ensures Valid()
      ensures data.Some? ==>
              old(source.rest) == data.value + source.rest &&
              handed == old(handed) + |data.value| <= limit
      ensures data.None? ==> handed > limit && |old(source.rest)| >= handed - old(handed)
      ensures data.Some? && (size.Some? ==> size.value > 0) && old(source.rest) != [] ==> data.value != []
      ensures old(handed) > limit ==> data.None?
    {
      if remaining < 0 { return None; }
      var request := if size.None? then remaining + 1 else Min(size.value, remaining + 1);
      var chunk := source.Read(request);
      remaining := remaining - |chunk|;
      handed := handed + |chunk|;
      return if remaining < 0 then None else Some(chunk);
    }
  }

  // ------------------------------------------------------------------ members

  /** `strict` is a regular member without sparse data. */
  datatype Member = Member(name: Bytes, directory: bool, strict: bool, pax: bool, mode: nat, size: int)

  datatype Rules = Rules(root: Option<Bytes>, allowed: set<Bytes>, optional: set<Bytes>, maxFiles: nat, maxTotal: nat)

  function PathOf(m: Member): Option<Bytes> {
    Normalize(m.name, m.directory)
  }

  /** The file or directory at the top of a path. */
  function Top(p: Bytes): Bytes {
    Split(p)[0]
  }

  /** `safe_output_path`: the parts of the path lead below the destination. A
      normalized path has no part that leads up, but `.` has none at all. */
  predicate StaysBelow(p: Bytes) {
    Kept(Split(p)) != []
  }

  /** A member as the loop uses it: whether it is legal alone, its path,
      whether it is extracted as a file, and the bytes it accounts for. */
  datatype Item = Item(legal: bool, path: Bytes, file: bool, weight: nat)

  function ItemOf(rules: Rules, m: Member): Item {
    match PathOf(m)
    case None => Item(false, [], m.strict, 0)
    case Some(path) =>
      Item((rules.root.Some? ==> Top(path) == rules.root.value) && !m.pax && m.mode / 0x200 % 8 == 0 &&
           (m.directory || m.strict) && (m.strict ==> m.size >= 0) && StaysBelow(path),
           path, m.strict, if m.strict && m.size >= 0 then m.size else 0)
  }

  /** How members are read, as a value: the loop does not depend on it. */
  type Reading = Member -> Item

  function Items(read: Reading, ms: seq<Member>): seq<Item> {
    seq(|ms|, i requires 0 <= i < |ms| => read(ms[i]))
  }

  function ReadingOf(rules: Rules): Reading {
    m => ItemOf(rules, m)
  }

  function Total(es: seq<Item>): nat {
    if es == [] then 0 else Total(es[..|es| - 1]) + es[|es| - 1].weight
  }

  /** Paths of the files among the members, or of the others. */
  function Paths(es: seq<Item>, file: bool): set<Bytes> {
    set e | e in es && e.file == file :: e.path
  }

  predicate Listed(rules: Rules) {
    rules.allowed != {} || rules.optional != {}
  }

  /** The member checks, which depend on the members before. */
  ghost predicate MembersOk(rules: Rules, es: seq<Item>) {
    && |es| <= rules.maxFiles && Total(es) <= rules.maxTotal && (forall e | e in es :: e.legal)
    && (forall i, j | 0 <= i < j < |es| :: es[i].path != es[j].path)
  }

  ghost predicate NoFileAbove(files: set<Bytes>) {
    forall p, q | p in files && q in files :: !IsAncestor(p, q)
  }

  /** The archive as a whole; the order of its members plays no part. */
  ghost predicate Acceptable(rules: Rules, es: seq<Item>) {
    && es != [] && MembersOk(rules, es) && NoFileAbove(Paths(es, true))
    && (Listed(rules) ==> rules.allowed <= Paths(es, true) <= rules.allowed + rules.optional)
    && (Listed(rules) ==> forall d | d in Paths(es, false) :: exists f | f in rules.allowed + rules.optional ::
        IsAncestor(d, f))
  }

  lemma {:induction false} Prefix(es: seq<Item>, i: nat)
    requires i < |es|
    ensures es[..i + 1][..i] == es[..i] && es[..i + 1][i] == es[i] && es[..i + 1] == es[..i] + [es[i]]
  {}

  lemma {:induction false} TotalGrows(es: seq<Item>, i: nat)
    requires i <= |es|
    ensures Total(es[..i]) <= Total(es)
    decreases |es| - i
  {
    if i == |es| {
      assert es[..i] == es;
    } else {
      Prefix(es, i);
      TotalGrows(es, i + 1);
    }
  }

  lemma {:induction false} PathsGrow(es: seq<Item>, e: Item, file: bool)
    ensures Paths(es + [e], file) == Paths(es, file) + if e.file == file then {e.path} else {}
  {
    assert forall x | x in es + [e] :: x in es || x == e;
    assert forall x | x in es :: x in es + [e];
    assert e in es + [e];
  }

  lemma {:induction false} PathSeen(es: seq<Item>, p: Bytes)
    ensures p in Paths(es, true) + Paths(es, false) <==> exists k :: 0 <= k < |es| && es[k].path == p
  {
    if k :| 0 <= k < |es| && es[k].path == p { assert es[k] in es; }
  }

  /** One more member passes exactly when it is legal, new, and fits. */
  lemma {:induction false} MemberFits(rules: Rules, es: seq<Item>, e: Item)
    requires MembersOk(rules, es)
    ensures MembersOk(rules, es + [e]) <==>
              |es| < rules.maxFiles && e.legal && e.path !in Paths(es, true) + Paths(es, false) &&
                  Total(es) + e.weight <= rules.maxTotal
  {
    var all := es + [e];
    assert all[..|all| - 1] == es && all[|es|] == e;
    PathSeen(es, e.path);
    if MembersOk(rules, all) {
      assert e in all && forall k | 0 <= k < |es| :: all[k].path != all[|es|].path;
    }
  }

  lemma {:induction false} PrefixOk(rules: Rules, es: seq<Item>, i: nat)
    requires MembersOk(rules, es) && i <= |es|
    ensures MembersOk(rules, es[..i])
  {
    TotalGrows(es, i);
  }

  /** What the loop has gathered from the members `es`. */
  datatype Gathered = Gathered(seen: set<Bytes>, files: set<Bytes>, directories: set<Bytes>, total: nat)

  ghost predicate Gathers(rules: Rules, es: seq<Item>, g: Gathered) {
    && MembersOk(rules, es) && g.total == Total(es) && g.files == Paths(es, true) && g.directories == Paths(es, false)
    && g.seen == g.files + g.directories
  }

  predicate Refused(rules: Rules, n: nat, g: Gathered, e: Item) {
    n >= rules.maxFiles || !e.legal || e.path in g.seen || g.total + e.weight > rules.maxTotal
  }

  function Gather(g: Gathered, e: Item): Gathered {
    Gathered(g.seen + {e.path}, if e.file then g.files + {e.path} else g.files,
             if e.file then g.directories else g.directories + {e.path}, g.total + e.weight)
  }

  lemma {:induction false} GatherOne(rules: Rules, es: seq<Item>, i: nat, g: Gathered)
    requires i < |es| && Gathers(rules, es[..i], g)
    ensures if Refused(rules, i, g, es[i]) then !MembersOk(rules, es) else Gathers(rules, es[..i + 1], Gather(g, es[i]))
  {
    Prefix(es, i);
    MemberFits(rules, es[..i], es[i]);
    PathsGrow(es[..i], es[i], true);
    PathsGrow(es[..i], es[i], false);
    var all := es[..i + 1];
    assert Total(all) == Total(es[..i]) + es[i].weight;
    if MembersOk(rules, es) { PrefixOk(rules, es, i + 1); }
  }

  /** The loop over the members. */
  method InspectMembers(rules: Rules, read: Reading, ms: seq<Member>) returns (ok: bool, files: set<Bytes>,
          directories: set<Bytes>)
    ensures ok <==> MembersOk(rules, Items(read, ms))
    ensures ok ==> files == Paths(Items(read, ms), true) && directories == Paths(Items(read, ms), false)
  {
    ghost var es := Items(read, ms);
    var g := Gathered({}, {}, {}, 0);
    for i := 0 to |ms|
      invariant Gathers(rules, es[..i], g)
    {
      var e := read(ms[i]);
      GatherOne(rules, es, i, g);
      if Refused(rules, i, g, e) { return false, g.files, g.directories; }
      g := g.(seen := g.seen + {e.path}, total := g.total + e.weight);
      if e.file { g := g.(files := g.files + {e.path}); } else { g := g.(directories := g.directories + {e.path}); }
    }
    assert es[..|ms|] == es;
    return true, g.files, g.directories;
  }

  /** Whether a leading part of a file's path is itself a file. */
  method UsedAsDirectory(files: set<Bytes>, path: Bytes) returns (found: bool)
    ensures found <==> exists p | p in files :: IsAncestor(p, path)
  {
    var parts := Split(path);
    var i := 1;
    while i < |parts|
      invariant 1 <= i <= |parts|
      invariant forall k | 1 <= k < i :: AncestorAt(path, k) !in files
    {
      if Join(parts[..i]) in files {
        WalkedIsAncestor(path, i);
        return true;
      }
      i := i + 1;
    }
    forall p | p in files ensures !IsAncestor(p, path) {
      if IsAncestor(p, path) { var k := AncestorIsWalked(p, path); }
    }
    return false;
  }

  method FindFileAbove(files: set<Bytes>) returns (found: bool)
    ensures found <==> !NoFileAbove(files)
  {
    var todo := files;
    while todo != {}
      invariant todo <= files && forall q | q in files && q !in todo :: forall p | p in files :: !IsAncestor(p, q)
      decreases |todo|
    {
      var q :| q in todo;
      todo := todo - {q};
      var used := UsedAsDirectory(files, q);
      if used { return true; }
    }
    return false;
  }

  /** Only the root itself is refused for leading nowhere. */
  lemma {:induction false} OnlyRootStays(m: Member)
    requires PathOf(m).Some?
    ensures StaysBelow(PathOf(m).value) <==> PathOf(m).value != [DOT]
  {
    var p := PathOf(m).value;
    NormalizeMeans(m.name, m.directory, p);
    var none: Bytes := [];
    assert Split(none) == [none] && none in Split(none);
    PosixIsItself(p);
    if p == [DOT] {
      assert Split(p) == [[DOT]] && Kept(Split(p)) == [] by { assert Split(p[1..]) == [[]]; }
    } else {
      forall part | part in Split(p) ensures part != [] && part != [DOT] { assert LegalPart(part); }
      KeptLength(Split(p));
    }
  }

  /** `extract_validated_members`, without the writing of files. */
  method ValidateMembers(rules: Rules, ms: seq<Member>) returns (ok: bool)
    ensures ok <==> Acceptable(rules, Items(ReadingOf(rules), ms))
  {
    var inspected, files, directories := InspectMembers(rules, ReadingOf(rules), ms);
    if !inspected || ms == [] { return false; }
    var above := FindFileAbove(files);
    if above { return false; }
    if !Listed(rules) { return true; }
    if !(rules.allowed <= files && files <= rules.allowed + rules.optional) { return false; }
    ok := DirectoriesAllowed(rules, directories);
  }

  method DirectoriesAllowed(rules: Rules, directories: set<Bytes>) returns (ok: bool)
    ensures ok <==> forall d | d in directories :: exists f | f in rules.allowed + rules.optional :: IsAncestor(d, f)
  {
    var todo := directories;
    while todo != {}
      invariant todo <= directories
      invariant forall d | d in directories && d !in todo :: exists f | f in rules.allowed + rules.optional ::
                IsAncestor(d, f)
      decreases |todo|
    {
      var d :| d in todo;
      todo := todo - {d};
      if !(exists f | f in rules.allowed + rules.optional :: IsAncestor(d, f)) { return false; }
    }
    return true;
  }
}
