/** `RuntimePayloadExtractor`: inspecting and selecting the members of a native
    package payload. */
module Payload {
  import opened Basics
  import opened Bytes
  import opened PayloadPaths
  import opened PathIndex

  /** One archive header as the format parsers hand it over. */
  datatype Entry = Entry(name: Bytes, mode: nat, size: int, nlink: int, uid: int, gid: int)

  /** The fixed paths of the package: the directory of the runtime files, the
      name and exact permissions of each of them, and the two special paths. */
  datatype Layout = Layout(root: Bytes, names: map<Bytes, nat>, gateway: Bytes, sandbox: Bytes)

  datatype Member = Member(name: Bytes, mode: nat, data: Bytes)

  /** What an extraction has done so far: the path index, the files staged with
      their permissions, and every member that passed. */
  datatype Progress = Progress(index: Index, staged: map<Bytes, (nat, Bytes)>, members: seq<Member>)

  const START: Progress := Progress(EMPTY, map[], [])

  // The file type is bits 12 to 15 of the mode, the permissions the low twelve.

  predicate IsRegular(mode: nat) { mode / 0x1000 % 16 == 8 }

  predicate IsDirectory(mode: nat) { mode / 0x1000 % 16 == 4 }

  function Permissions(mode: nat): nat { mode % 0x1000 }

  const SET_UID_755: nat := 0x9ed // octal 4755

  predicate NamesRoot(name: Bytes) {
    name == [DOT] || name == [DOT, SLASH]
  }

  function PathOf(e: Entry): Option<Bytes> {
    if NamesRoot(e.name) then (if IsDirectory(e.mode) then Some([DOT]) else None)
    else Normalize(e.name, IsDirectory(e.mode))
  }

  /** The staged name of a required runtime path. */
  function OutputOf(layout: Layout, path: Bytes): Option<Bytes> {
    if layout.root + [SLASH] <= path && path[|layout.root| + 1..] in layout.names
        then Some(path[|layout.root| + 1..]) else None
  }

  lemma {:induction false} OutputNames(layout: Layout, path: Bytes)
    ensures OutputOf(layout, path).Some? ==> layout.root + [SLASH] + OutputOf(layout, path).value == path
  {}

  /** The checks that concern one entry alone. */
  predicate FieldsOk(layout: Layout, e: Entry, path: Bytes) {
    var output := OutputOf(layout, path);
    && path != layout.gateway
    && (Permissions(e.mode) >= 0x200 ==> // any of set-uid, set-gid and sticky
          path == layout.sandbox && Permissions(e.mode) == SET_UID_755 && IsRegular(e.mode) && e.uid == 0 && e.gid == 0)
    && (if IsRegular(e.mode) then e.nlink == 1 && e.size >= 0 else IsDirectory(e.mode) && e.size == 0)
    && (output.Some? ==>
        IsRegular(e.mode) && e.uid == 0 && e.gid == 0 &&
        Permissions(e.mode) == layout.names[output.value])
  }

  function ItemOf(layout: Layout, e: Entry): Item {
    match PathOf(e)
    case None => Item(false, [], false, 0)
    case Some(path) => Item(FieldsOk(layout, e, path), path, IsRegular(e.mode), if IsRegular(e.mode) &&
        e.size >= 0 then e.size else 0)
  }

  /** `inspect`. */
  function Inspected(layout: Layout, ix: Index, e: Entry): Option<Index> {
    Admit(ix, ItemOf(layout, e))
  }

  /** Inspect a member, then stage it or read past it. */
  function Take(layout: Layout, p: Progress, e: Entry, data: Bytes): Option<Progress> {
    match Inspected(layout, p.index, e)
    case None => None
    case Some(index) =>
      var output := OutputOf(layout, ItemOf(layout, e).path);
      Some(Progress(index, if output.Some? then p.staged[output.value := (Permissions(e.mode), data)] else p.staged,
                    p.members + [Member(e.name, e.mode, data)]))
  }

  /** `finish`. */
  predicate Complete(layout: Layout, p: Progress) {
    p.index.count > 0 && p.staged.Keys == layout.names.Keys
  }

  // ---------------------------------------------------------------- theorems

  function Items(layout: Layout, es: seq<Entry>): seq<Item> {
    if es == [] then [] else [ItemOf(layout, es[0])] + Items(layout, es[1..])
  }

  /** An inspection called on each entry in turn. */
  function InspectEach(inspect: (Index, Entry) -> Option<Index>, ix: Index, es: seq<Entry>): Option<Index>
    decreases es
  {
    if es == [] then Some(ix)
    else match inspect(ix, es[0])
         case None => None
         case Some(next) => InspectEach(inspect, next, es[1..])
  }

  function Inspector(layout: Layout): (Index, Entry) -> Option<Index> {
    (ix, e) => Inspected(layout, ix, e)
  }

  function InspectAll(layout: Layout, ix: Index, es: seq<Entry>): Option<Index> {
    InspectEach(Inspector(layout), ix, es)
  }

  lemma {:induction false} InspectsItems(layout: Layout, ix: Index, es: seq<Entry>)
    ensures InspectAll(layout, ix, es) == AdmitFrom(ix, Items(layout, es))
    decreases es
  {
    if es != [] {
      assert Items(layout, es)[1..] == Items(layout, es[1..]);
      if Inspected(layout, ix, es[0]).Some? { InspectsItems(layout, Inspected(layout, ix, es[0]).value, es[1..]); }
    }
  }

  lemma {:induction false} ItemsAt(layout: Layout, es: seq<Entry>)
    ensures |Items(layout, es)| == |es| && forall i | 0 <= i < |es| :: Items(layout, es)[i] == ItemOf(layout, es[i])
  {
    if es != [] { ItemsAt(layout, es[1..]); }
  }

  /** A sequence of entries is accepted one by one exactly when, as a whole,
      every entry is legal alone, the paths are distinct, no regular file is
      above another entry, and the count and byte limits hold. */
  lemma {:induction false} InspectIsBatch(layout: Layout, es: seq<Entry>)
    ensures InspectAll(layout, EMPTY, es).Some? <==>
            && |es| <= MAX_ENTRIES && Total(Items(layout, es)) <= MAX_EXPANDED_BYTES
            && (forall i | 0 <= i < |es| :: ItemOf(layout, es[i]).legal)
            && (forall i, j | 0 <= i < j < |es| :: Together(ItemOf(layout, es[i]), ItemOf(layout, es[j])))
  {
    InspectsItems(layout, EMPTY, es);
    OnlineIsBatch(Items(layout, es));
    ItemsAt(layout, es);
    var items := Items(layout, es);
    if InspectAll(layout, EMPTY, es).Some? {
      forall i | 0 <= i < |es| ensures ItemOf(layout, es[i]).legal { assert items[i] in items; }
      forall i, j | 0 <= i < j < |es| ensures Together(ItemOf(layout, es[i]), ItemOf(layout, es[j])) {
        assert Together(items[i], items[j]);
      }
    }
  }

  lemma {:induction false} ItemsPermute(layout: Layout, es: seq<Entry>, fs: seq<Entry>)
    requires multiset(es) == multiset(fs)
    ensures multiset(Items(layout, es)) == multiset(Items(layout, fs))
  {
    if es == [] {
      assert |fs| == |multiset(fs)| == 0;
    } else {
      var i := TakenOutOfBoth(es, fs);
      ItemsPermute(layout, es[1..], fs[..i] + fs[i + 1..]);
      ItemsTakenOut(layout, fs, i);
      assert multiset(Items(layout, es)) == multiset{ItemOf(layout, es[0])} + multiset(Items(layout, es[1..]));
    }
  }

  lemma {:induction false} ItemsTakenOut(layout: Layout, fs: seq<Entry>, i: nat)
    requires i < |fs|
    ensures multiset(Items(layout, fs)) == multiset(Items(layout, fs[..i] + fs[i + 1..])) +
            multiset{ItemOf(layout, fs[i])}
  {
    var all, rest := Items(layout, fs), fs[..i] + fs[i + 1..];
    ItemsAt(layout, fs);
    ItemsAt(layout, rest);
    TakenOut(all, i);
    assert Items(layout, rest) == all[..i] + all[i + 1..];
  }

  /** Permuting the entries of a payload changes nothing about acceptance. */
  lemma {:induction false} InspectIgnoresOrder(layout: Layout, es: seq<Entry>, fs: seq<Entry>)
    requires multiset(es) == multiset(fs)
    ensures InspectAll(layout, EMPTY, es).Some? <==> InspectAll(layout, EMPTY, fs).Some?
  {
    InspectsItems(layout, EMPTY, es);
    InspectsItems(layout, EMPTY, fs);
    ItemsPermute(layout, es, fs);
    OrderDoesNotMatter(Items(layout, es), Items(layout, fs));
  }

  /** The check `extract_validated_members` makes once it has seen everything:
      no leading part of a regular file's path is itself a regular file. */
  lemma {:induction false} ImpliesPosthocCheck(layout: Layout, es: seq<Entry>, i: nat, j: nat, parts: nat)
    requires InspectAll(layout, EMPTY, es).Some? && i < |es| && j < |es|
    requires ItemOf(layout, es[i]).file && ItemOf(layout, es[j]).file
    requires 1 <= parts < |Split(ItemOf(layout, es[i]).path)|
    ensures AncestorAt(ItemOf(layout, es[i]).path, parts) != ItemOf(layout, es[j]).path
  {
    InspectIsBatch(layout, es);
    WalkedIsAncestor(ItemOf(layout, es[i]).path, parts);
    if i < j {
      assert Together(ItemOf(layout, es[i]), ItemOf(layout, es[j]));
    } else if j < i {
      assert Together(ItemOf(layout, es[j]), ItemOf(layout, es[i]));
    }
  }

  /** The root can only be a directory when it is spelled `.` or `./`; spelled
      `./.` it is accepted as a regular file, and no other spelling is. */
  lemma {:induction false} RootAsFile(layout: Layout, e: Entry)
    requires IsRegular(e.mode)
    ensures PathOf(e) == Some([DOT]) <==> e.name == [DOT, SLASH, DOT]
  {
    NormalizeMeans(e.name, false, [DOT]);
    if e.name == [DOT, SLASH, DOT] { assert e.name[2..] == [DOT]; }
    if Stripped(e.name, false) == [DOT] && !NamesRoot(e.name) { assert e.name == [DOT, SLASH] + e.name[2..]; }
  }

  // --------------------------------------------------------------- the class

  class RuntimePayloadExtractor {
    const layout: Layout
    var files: map<Bytes, bool>
    var entryCount: nat
    var totalBytes: nat
    var staged: map<Bytes, (nat, Bytes)>
    ghost var members: seq<Member>

    constructor (layout: Layout)
      ensures this.layout == layout && State() == START && Valid()
    {
      this.layout := layout;
      files, entryCount, totalBytes, staged, members := map[], 0, 0, map[], [];
    }

    ghost function State(): Progress
      reads this
    {
      Progress(Index(files, entryCount, totalBytes), staged, members)
    }

    /** Staged files belong to inspected paths, so no output is written twice. */
    ghost predicate Valid()
      reads this
    {
      totalBytes <= MAX_EXPANDED_BYTES && forall name | name in staged :: layout.root + [SLASH] + name in files
    }

    method DescendsFromFile(path: Bytes) returns (found: bool)
      ensures found == BelowFile(files, path)
    {
      var parts := Split(path);
      var i := 1;
      while i < |parts|
        invariant 1 <= i <= |parts|
        invariant forall k | 1 <= k < i :: !(AncestorAt(path, k) in files && files[AncestorAt(path, k)])
      {
        var ancestor := Join(parts[..i]);
        if ancestor in files && files[ancestor] {
          WalkedIsAncestor(path, i);
          return true;
        }
        i := i + 1;
      }
      forall a | a in files && files[a] ensures !IsAncestor(a, path) {
        if IsAncestor(a, path) { var k := AncestorIsWalked(a, path); }
      }
      return false;
    }

    method HasDescendant(path: Bytes) returns (found: bool)
      ensures found == AboveEntry(files, path)
    {
      var todo := files.Keys;
      while todo != {}
        invariant todo <= files.Keys && forall p | p in files && p !in todo :: !IsAncestor(path, p)
        decreases |todo|
      {
        var p :| p in todo;
        todo := todo - {p};
        if path + [SLASH] <= p { return true; }
      }
      return false;
    }

    /** The checks that come before an entry is recorded. */
    method FindConflict(e: Entry) returns (path: Option<Bytes>)
      ensures path.Some? <==>
                && entryCount < MAX_ENTRIES && PathOf(e).Some? && PathOf(e).value != layout.gateway &&
                    PathOf(e).value !in files
                && !BelowFile(files, PathOf(e).value) && !(IsRegular(e.mode) && AboveEntry(files, PathOf(e).value))
      ensures path.Some? ==> path == PathOf(e)
    {
      if entryCount >= MAX_ENTRIES { return None; }
      path := PathOf(e);
      if path.None? || path.value == layout.gateway || path.value in files { return None; }
      var below := DescendsFromFile(path.value);
      if below { return None; }
      if IsRegular(e.mode) {
        var above := HasDescendant(path.value);
        if above { return None; }
      }
    }

    method CheckRequired(e: Entry, output: Option<Bytes>) returns (ok: bool)
      requires output.Some? ==> output.value in layout.names
      ensures ok <==> (output.Some? ==>
              IsRegular(e.mode) && e.uid == 0 && e.gid == 0 &&
              Permissions(e.mode) == layout.names[output.value])
    {
      if output.None? { return true; }
      if !IsRegular(e.mode) || e.uid != 0 || e.gid != 0 { return false; }
      return Permissions(e.mode) == layout.names[output.value];
    }

    /** A rejected entry ends the extraction; the fields are then not used. */
    method Inspect(e: Entry) returns (output: Option<Option<Bytes>>)
      requires Valid()
      modifies `files, `entryCount, `totalBytes
      ensures var ix := Inspected(layout, old(State()).index, e);
              && (output.Some? <==> ix.Some?)
              && (ix.Some? ==>
                  Valid() && State().index == ix.value &&
                  output.value == OutputOf(layout, ItemOf(layout, e).path))
      ensures output.Some? && output.value.Some? ==>
              output.value.value !in staged && layout.root + [SLASH] +
              output.value.value in files
    {
      var path := FindConflict(e);
      if path.None? { return None; }
      OutputNames(layout, path.value);
      files := files[path.value := IsRegular(e.mode)];
      entryCount := entryCount + 1;
      var permissions := Permissions(e.mode);
      var sandbox := path.value == layout.sandbox && permissions == SET_UID_755 && IsRegular(e.mode) && e.uid == 0 &&
          e.gid == 0;
      if permissions >= 0x200 && !sandbox { return None; }
      if IsRegular(e.mode) {
        if e.nlink != 1 || e.size < 0 { return None; }
        totalBytes := totalBytes + e.size;
        if totalBytes > MAX_EXPANDED_BYTES { return None; }
      } else if !IsDirectory(e.mode) || e.size != 0 {
        return None;
      }
      var name := OutputOf(layout, path.value);
      var ok := CheckRequired(e, name);
      return if ok then Some(name) else None;
    }

    method Finish() returns (ok: bool)
      ensures ok == Complete(layout, State())
    {
      return entryCount > 0 && staged.Keys == layout.names.Keys;
    }
  }
}
