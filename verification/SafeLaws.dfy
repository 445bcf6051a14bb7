/** Which tar archives the member checks accept, stated on the members as the
    tar library hands them over. */
module SafeLaws {
  import opened Basics
  import opened Bytes
  import opened PayloadPaths
  import P = PayloadLaws
  import opened SafeExtract

  /** The member's name spells this path: a leading `./` may stand in front, and a
      trailing slash behind a directory's. */
  ghost predicate Spells(m: Member, path: Bytes) {
    && P.Plain(path)
    && (m.name == path || m.name == [46, 47] + path ||
        (m.directory && (m.name == path + [47] || m.name == [46, 47] + path + [47])))
  }

  /** The checks on a member alone: below the one allowed top directory, if there
      is one; no extended headers and no set-uid, set-gid or sticky bit; and a
      directory, or a plain file of a size that is not negative. */
  predicate Passes(rules: Rules, m: Member, path: Bytes) {
    && (rules.root.Some? ==>
        47 !in rules.root.value && (path == rules.root.value || rules.root.value + [47] <= path))
    && !m.pax && m.mode % 0x1000 < 0x200 && (m.strict || m.directory) && (m.strict ==> m.size >= 0)
  }

  lemma {:induction false} TopHasNoSlash(p: Bytes)
    ensures SLASH !in Top(p) && (p == Top(p) || Top(p) + [SLASH] <= p)
  {
    if p != [] && p[0] != SLASH {
      TopHasNoSlash(p[1..]);
      var t := Top(p[1..]);
      assert Top(p) == [p[0]] + t;
      if p[1..] == t { assert p == [p[0]] + t; }
      else { assert p == [p[0]] + p[1..] && ([p[0]] + t) + [SLASH] == [p[0]] + (t + [SLASH]); }
    }
  }

  lemma {:induction false} FirstSlash(p: Bytes, top: Bytes)
    requires SLASH !in top && (p == top || top + [SLASH] <= p)
    ensures Top(p) == top
  {
    if top == [] {
      if p != [] { assert p[0] == SLASH; }
    } else {
      assert p[0] == top[0];
      assert p[1..] == top[1..] || top[1..] + [SLASH] <= p[1..];
      FirstSlash(p[1..], top[1..]);
      assert top == [top[0]] + top[1..];
    }
  }

  /** A path lies at or below a top directory. */
  lemma {:induction false} TopExactly(p: Bytes, top: Bytes)
    ensures Top(p) == top <==> SLASH !in top && (p == top || top + [SLASH] <= p)
  {
    TopHasNoSlash(p);
    if SLASH !in top && (p == top || top + [SLASH] <= p) { FirstSlash(p, top); }
  }

  lemma {:induction false} PlainStays(p: Bytes)
    requires P.Plain(p)
    ensures Kept(Split(p)) == Split(p) && StaysBelow(p)
  {
    KeptLength(Split(p));
  }

  lemma {:induction false} PathExactly(m: Member, path: Bytes)
    ensures PathOf(m) == Some(path) && StaysBelow(path) <==> Spells(m, path)
  {
    NormalizeMeans(m.name, m.directory, path);
    P.PlainMeans(path);
    if path == [DOT] {
      assert path[1..] == [] && Split(path[1..]) == [[]];
      assert Split(path) == [[path[0]] + []] + [] && Split(path)[0] == [DOT] && Split(path)[1..] == [];
      assert Kept(Split(path)) == [] + Kept([]);
    } else if P.Plain(path) {
      PlainStays(path);
      if P.Dressed(m.name, m.directory, path) { P.DressedStrips(m.name, m.directory, path); }
      if Stripped(m.name, m.directory) == path { P.StripsDressed(m.name, m.directory, path); }
    }
  }

  lemma {:induction false} ModeBits(mode: nat)
    ensures mode / 0x200 % 8 == 0 <==> mode % 0x1000 < 0x200
  {
    var q, r := mode / 0x200, mode % 0x200;
    assert mode == 0x200 * q + r && q == 8 * (q / 8) + q % 8;
    assert mode == 0x1000 * (q / 8) + (0x200 * (q % 8) + r);
    assert mode % 0x1000 == 0x200 * (q % 8) + r;
  }

  /** A member is legal exactly at a path it spells and where the checks pass. */
  lemma {:induction false} MemberExactly(rules: Rules, m: Member, path: Bytes)
    ensures ItemOf(rules, m).legal && ItemOf(rules, m).path == path <==> Spells(m, path) && Passes(rules, m, path)
    ensures ItemOf(rules, m).legal ==>
              ItemOf(rules, m).file == m.strict && ItemOf(rules, m).weight == (if m.strict then m.size else 0)
  {
    ModeBits(m.mode);
    PathExactly(m, path);
    if rules.root.Some? { TopExactly(path, rules.root.value); }
  }

  // ---------------------------------------------------------- a whole archive

  /** The bytes that the files extract to. */
  function Expanded(ms: seq<Member>): int {
    if ms == [] then 0 else Expanded(ms[..|ms| - 1]) + (if ms[|ms| - 1].strict then ms[|ms| - 1].size else 0)
  }

  /** The paths of the members, each legal where it stands and no two equal. */
  ghost predicate Stands(rules: Rules, ms: seq<Member>, paths: seq<Bytes>) {
    && |paths| == |ms| && (forall i | 0 <= i < |ms| :: Spells(ms[i], paths[i]) && Passes(rules, ms[i], paths[i]))
    && (forall i, j | 0 <= i < j < |ms| :: paths[i] != paths[j])
  }

  /** No file lies below a file. */
  ghost predicate FilesApart(ms: seq<Member>, paths: seq<Bytes>)
    requires |paths| == |ms|
  {
    forall i, j | 0 <= i < |ms| && 0 <= j < |ms| && ms[i].strict && ms[j].strict :: !(paths[i] + [47] <= paths[j])
  }

  /** The file of the list is among the members. */
  ghost predicate Has(ms: seq<Member>, paths: seq<Bytes>, file: Bytes)
    requires |paths| == |ms|
  {
    exists i :: 0 <= i < |ms| && ms[i].strict && paths[i] == file
  }

  /** Where files are listed, exactly these are there, the optional ones perhaps,
      and directories only above one of them. */
  ghost predicate AsListed(rules: Rules, ms: seq<Member>, paths: seq<Bytes>)
    requires |paths| == |ms|
  {
    rules.allowed != {} || rules.optional != {} ==>
      && (forall f | f in rules.allowed :: Has(ms, paths, f))
      && (forall i | 0 <= i < |ms| && ms[i].strict :: paths[i] in rules.allowed || paths[i] in rules.optional)
      && (forall i | 0 <= i < |ms| && !ms[i].strict ::
            exists f :: (f in rules.allowed || f in rules.optional) && paths[i] + [47] <= f)
  }

  lemma {:induction false} TotalIsExpanded(ms: seq<Member>, es: seq<Item>)
    requires |es| == |ms| && forall i | 0 <= i < |ms| :: es[i].weight == if ms[i].strict then ms[i].size else 0
    ensures Total(es) == Expanded(ms)
  {
    if ms != [] { TotalIsExpanded(ms[..|ms| - 1], es[..|ms| - 1]); }
  }

  function PathsOf(rules: Rules, ms: seq<Member>): seq<Bytes> {
    seq(|ms|, i requires 0 <= i < |ms| => ItemOf(rules, ms[i]).path)
  }

  /** The items say of the members what their paths and kinds are. */
  ghost predicate Reads(rules: Rules, ms: seq<Member>, paths: seq<Bytes>, es: seq<Item>) {
    |es| == |ms| == |paths| && forall i | 0 <= i < |ms| ::
      es[i].legal && es[i].path == paths[i] && es[i].file == ms[i].strict &&
      es[i].weight == (if ms[i].strict then ms[i].size else 0)
  }

  lemma {:induction false} ListsMean(rules: Rules, ms: seq<Member>, paths: seq<Bytes>, es: seq<Item>)
    requires Reads(rules, ms, paths, es)
    ensures forall p :: p in Paths(es, true) <==> Has(ms, paths, p)
    ensures forall p :: p in Paths(es, false) <==> exists i :: 0 <= i < |ms| && !ms[i].strict && paths[i] == p
  {
    forall p ensures p in Paths(es, true) <==> Has(ms, paths, p) {
      if p in Paths(es, true) {
        var e :| e in es && e.file && e.path == p;
        var i :| 0 <= i < |es| && es[i] == e;
        assert ms[i].strict && paths[i] == p;
      }
      if Has(ms, paths, p) {
        var i :| 0 <= i < |ms| && ms[i].strict && paths[i] == p;
        assert es[i] in es;
      }
    }
    forall p ensures p in Paths(es, false) <==> exists i :: 0 <= i < |ms| && !ms[i].strict && paths[i] == p {
      if p in Paths(es, false) {
        var e :| e in es && !e.file && e.path == p;
        var i :| 0 <= i < |es| && es[i] == e;
        assert !ms[i].strict && paths[i] == p;
      }
      if i :| 0 <= i < |ms| && !ms[i].strict && paths[i] == p { assert es[i] in es; }
    }
  }

  lemma {:induction false} ApartMeans(rules: Rules, ms: seq<Member>, paths: seq<Bytes>, es: seq<Item>)
    requires Reads(rules, ms, paths, es)
    ensures NoFileAbove(Paths(es, true)) <==> FilesApart(ms, paths)
  {
    ListsMean(rules, ms, paths, es);
    if NoFileAbove(Paths(es, true)) {
      forall i, j | 0 <= i < |ms| && 0 <= j < |ms| && ms[i].strict && ms[j].strict
        ensures !(paths[i] + [47] <= paths[j])
      {
        assert Has(ms, paths, paths[i]) && Has(ms, paths, paths[j]);
        assert !IsAncestor(paths[i], paths[j]);
      }
    }
  }

  lemma {:induction false} ListedMeans(rules: Rules, ms: seq<Member>, paths: seq<Bytes>, es: seq<Item>)
    requires Reads(rules, ms, paths, es)
    ensures AsListed(rules, ms, paths) <==>
              (Listed(rules) ==>
                && rules.allowed <= Paths(es, true) <= rules.allowed + rules.optional
                && forall d | d in Paths(es, false) ::
                     exists f | f in rules.allowed + rules.optional :: IsAncestor(d, f))
  {
    ListsMean(rules, ms, paths, es);
    forall i | 0 <= i < |ms| && ms[i].strict ensures paths[i] in Paths(es, true) { assert Has(ms, paths, paths[i]); }
    if AsListed(rules, ms, paths) && Listed(rules) {
      forall d | d in Paths(es, false) ensures exists f | f in rules.allowed + rules.optional :: IsAncestor(d, f) {
        var i :| 0 <= i < |ms| && !ms[i].strict && paths[i] == d;
        var f :| (f in rules.allowed || f in rules.optional) && paths[i] + [47] <= f;
        assert f in rules.allowed + rules.optional && IsAncestor(d, f);
      }
    } else if Listed(rules) && (forall d | d in Paths(es, false) ::
                                  exists f | f in rules.allowed + rules.optional :: IsAncestor(d, f)) {
      forall i | 0 <= i < |ms| && !ms[i].strict
        ensures exists f :: (f in rules.allowed || f in rules.optional) && paths[i] + [47] <= f
      {
        assert paths[i] in Paths(es, false);
        var f :| f in rules.allowed + rules.optional && IsAncestor(paths[i], f);
      }
    }
  }

  /** Where the items say what the members are, they are acceptable together
      exactly when the members are. */
  lemma {:induction false} AcceptableMeans(rules: Rules, ms: seq<Member>, paths: seq<Bytes>, es: seq<Item>)
    requires Reads(rules, ms, paths, es)
    ensures Acceptable(rules, es) <==>
              && ms != [] && |ms| <= rules.maxFiles && Expanded(ms) <= rules.maxTotal
              && (forall i, j | 0 <= i < j < |ms| :: paths[i] != paths[j])
              && FilesApart(ms, paths) && AsListed(rules, ms, paths)
  {
    ApartMeans(rules, ms, paths, es);
    ListedMeans(rules, ms, paths, es);
    TotalIsExpanded(ms, es);
  }

  lemma {:induction false} StandsAsRead(rules: Rules, ms: seq<Member>)
    requires forall i | 0 <= i < |ms| :: ItemOf(rules, ms[i]).legal
    ensures Reads(rules, ms, PathsOf(rules, ms), Items(ReadingOf(rules), ms))
    ensures forall i | 0 <= i < |ms| ::
              Spells(ms[i], PathsOf(rules, ms)[i]) && Passes(rules, ms[i], PathsOf(rules, ms)[i])
  {
    forall i | 0 <= i < |ms|
      ensures Spells(ms[i], ItemOf(rules, ms[i]).path) && Passes(rules, ms[i], ItemOf(rules, ms[i]).path)
      ensures ItemOf(rules, ms[i]).file == ms[i].strict
      ensures ItemOf(rules, ms[i]).weight == if ms[i].strict then ms[i].size else 0
    {
      MemberExactly(rules, ms[i], ItemOf(rules, ms[i]).path);
    }
  }

  lemma {:induction false} ReadsAsStands(rules: Rules, ms: seq<Member>, paths: seq<Bytes>)
    requires Stands(rules, ms, paths)
    ensures Reads(rules, ms, paths, Items(ReadingOf(rules), ms))
  {
    forall i | 0 <= i < |ms|
      ensures ItemOf(rules, ms[i]).legal && ItemOf(rules, ms[i]).path == paths[i]
      ensures ItemOf(rules, ms[i]).file == ms[i].strict
      ensures ItemOf(rules, ms[i]).weight == if ms[i].strict then ms[i].size else 0
    {
      MemberExactly(rules, ms[i], paths[i]);
    }
  }

  /** An archive is accepted exactly when it is not empty, its members are legal at
      distinct paths, at most as many and as large as allowed, no file lies below
      a file, and they are as listed. */
  lemma {:induction false} AcceptsExactly(rules: Rules, ms: seq<Member>)
    ensures Acceptable(rules, Items(ReadingOf(rules), ms)) <==>
              && ms != [] && |ms| <= rules.maxFiles && Expanded(ms) <= rules.maxTotal
              && exists paths :: Stands(rules, ms, paths) && FilesApart(ms, paths) && AsListed(rules, ms, paths)
  {
    var es, seen := Items(ReadingOf(rules), ms), PathsOf(rules, ms);
    if Acceptable(rules, es) {
      forall i | 0 <= i < |ms| ensures ItemOf(rules, ms[i]).legal { assert es[i] in es; }
      StandsAsRead(rules, ms);
      AcceptableMeans(rules, ms, seen, es);
      assert Stands(rules, ms, seen);
    } else if paths :| Stands(rules, ms, paths) && FilesApart(ms, paths) && AsListed(rules, ms, paths) {
      ReadsAsStands(rules, ms, paths);
      AcceptableMeans(rules, ms, paths, es);
    }
  }
}
