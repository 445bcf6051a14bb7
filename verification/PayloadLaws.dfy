/** Which payloads the native extractor admits and what it stages, stated on the
    entries as they stand in the archive. */
module PayloadLaws {
  import opened Basics
  import opened Bytes
  import opened PayloadPaths
  import opened PathIndex
  import opened Payload
  import opened Frames

  // ------------------------------------------------------------------- paths

  /** The type bits of a Unix mode. */
  predicate Kind(mode: nat, bits: nat) { mode % 0x1_0000 - mode % 0x1000 == bits }

  predicate Regular(e: Entry) { Kind(e.mode, 0x8000) }

  predicate Directory(e: Entry) { Kind(e.mode, 0x4000) }

  lemma {:induction false} KindsMean(mode: nat)
    ensures IsRegular(mode) <==> Kind(mode, 0x8000)
    ensures IsDirectory(mode) <==> Kind(mode, 0x4000)
  {
    var high, low := mode / 0x1000, mode % 0x1000;
    assert mode == 0x1000 * high + low;
    assert mode % 0x1_0000 == 0x1000 * (high % 16) + low by {
      assert mode == 0x1_0000 * (high / 16) + (0x1000 * (high % 16) + low);
    }
  }

  /** A relative path without a backslash or NUL whose components all name
      something and none of which leads upwards. */
  ghost predicate Plain(path: Bytes) {
    92 !in path && 0 !in path && forall part | part in Split(path) :: part != [] && part != [46] && part != [46, 46]
  }

  /** The spellings of a path in an archive: a leading `./`, and a trailing slash
      for directories. A root has its own: as a file only `./.` spells it. */
  ghost predicate Spells(e: Entry, path: Bytes) {
    if path == [46] then
      e.name == [46, 47, 46] ||
      (Directory(e) && (e.name == [46] || e.name == [46, 47] || e.name == [46, 47, 46, 47]))
    else
      && Plain(path)
      && (e.name == path || e.name == [46, 47] + path ||
          (Directory(e) && (e.name == path + [47] || e.name == [46, 47] + path + [47])))
  }

  lemma {:induction false} TrailingSlash(p: Bytes)
    requires p != [] && p[|p| - 1] == SLASH
    ensures |Split(p)| >= 2 && Split(p)[|Split(p)| - 1] == []
  {
    var r := Split(p[1..]);
    if |p| == 1 {
      assert p[1..] == [] && r == [[]];
    } else {
      TrailingSlash(p[1..]);
      assert p[0] == SLASH ==> Split(p) == [[]] + r;
      assert p[0] != SLASH ==> Split(p) == [[p[0]] + r[0]] + r[1..];
    }
  }

  lemma {:induction false} DotFirst(p: Bytes)
    requires [DOT, SLASH] <= p
    ensures [DOT] in Split(p)
  {
    var t := p[1..];
    assert t[0] == SLASH && Split(t) == [[]] + Split(t[1..]);
    assert Split(p)[0] == [p[0]] + [] == [DOT];
  }

  /** Plain paths are the canonical ones other than the root, and they neither
      start with `./` nor end in a slash. */
  lemma {:induction false} PlainMeans(p: Bytes)
    ensures Plain(p) <==> Canonical(p) && p != [DOT]
    ensures Plain(p) ==> p != [] && !([DOT, SLASH] <= p) && p[|p| - 1] != SLASH
  {
    if p == [] { assert Split(p) == [[]] && [] in Split(p); }
    if p == [DOT] {
      assert p[1..] == [] && Split(p[1..]) == [[]];
      assert Split(p) == [[p[0]] + []] + [] && Split(p)[0] == [DOT] && Split(p)[0] in Split(p);
    }
    if [DOT, SLASH] <= p { DotFirst(p); }
    if p != [] && p[|p| - 1] == SLASH {
      TrailingSlash(p);
      assert Split(p)[|Split(p)| - 1] in Split(p);
    }
    if Canonical(p) && p != [DOT] {
      forall part | part in Split(p) ensures part != [] && part != [46] && part != [46, 46] {
        assert LegalPart(part);
      }
      assert Plain(p);
    }
    if Plain(p) {
      forall part | part in Split(p) ensures LegalPart(part) {}
      assert Canonical(p);
    }
  }

  /** An entry stands at exactly the path it spells. */
  lemma {:induction false} PathExactly(e: Entry, path: Bytes)
    ensures PathOf(e) == Some(path) <==> Spells(e, path)
  {
    KindsMean(e.mode);
    NormalizeMeans(e.name, IsDirectory(e.mode), path);
    PlainMeans(path);
    if path == [DOT] {
      RootSpelled(e);
    } else if Plain(path) {
      if Dressed(e.name, IsDirectory(e.mode), path) { DressedStrips(e.name, IsDirectory(e.mode), path); }
      if Stripped(e.name, IsDirectory(e.mode)) == path { StripsDressed(e.name, IsDirectory(e.mode), path); }
    }
  }

  /** The texts that strip to a path that is neither the root nor spelled oddly. */
  predicate Dressed(name: Bytes, directory: bool, path: Bytes) {
    || name == path || name == [DOT, SLASH] + path
    || (directory && (name == path + [SLASH] || name == [DOT, SLASH] + path + [SLASH]))
  }

  lemma {:induction false} Behind(rest: Bytes)
    ensures [DOT, SLASH] <= [DOT, SLASH] + rest && ([DOT, SLASH] + rest)[2..] == rest
  {}

  lemma {:induction false} NoDotInFront(path: Bytes)
    requires path != [] && !([DOT, SLASH] <= path) && path != [DOT]
    ensures !([DOT, SLASH] <= path + [SLASH])
  {
    var s := path + [SLASH];
    assert s[0] == path[0];
    if |path| == 1 {
      assert path == [path[0]];
    } else {
      assert s[1] == path[1] && path == [path[0], path[1]] + path[2..];
    }
  }

  lemma {:induction false} DressedStrips(name: Bytes, directory: bool, path: Bytes)
    requires path != [] && !([DOT, SLASH] <= path) && path[|path| - 1] != SLASH && path != [DOT]
    requires Dressed(name, directory, path)
    ensures Stripped(name, directory) == path
  {
    var s := path + [SLASH];
    assert s[..|s| - 1] == path && s[|s| - 1] == SLASH;
    Behind(path);
    Behind(s);
    NoDotInFront(path);
    assert [DOT, SLASH] + path + [SLASH] == [DOT, SLASH] + s;
    if name == [DOT, SLASH] + path {
    } else if directory && name == s {
    } else if directory && name == [DOT, SLASH] + s {
    }
  }

  lemma {:induction false} StripsDressed(name: Bytes, directory: bool, path: Bytes)
    requires Stripped(name, directory) == path
    ensures Dressed(name, directory, path)
  {
    var n := if [DOT, SLASH] <= name then name[2..] else name;
    if directory && n != [] && n[|n| - 1] == SLASH {
      assert n == path + [SLASH];
      if [DOT, SLASH] <= name { assert name == [DOT, SLASH] + path + [SLASH]; }
    } else if [DOT, SLASH] <= name {
      assert name == [DOT, SLASH] + path;
    }
  }

  lemma {:induction false} DotIsCanonical()
    ensures Canonical([DOT])
  {}

  lemma {:induction false} StrippedToDot(name: Bytes, directory: bool)
    ensures Stripped(name, directory) == [DOT] <==>
              || name == [DOT] || name == [DOT, SLASH] + [DOT]
              || (directory && name == [DOT, SLASH] + ([DOT] + [SLASH]))
  {
    var n := if [DOT, SLASH] <= name then name[2..] else name;
    if [DOT, SLASH] <= name {
      assert name == [DOT, SLASH] + n;
      if directory && n != [] && n[|n| - 1] == SLASH { assert n == n[..|n| - 1] + [SLASH]; }
    } else if name != [] && name[|name| - 1] == SLASH {
      assert name == name[..|name| - 1] + [SLASH];
    }
  }

  lemma {:induction false} RootSpelled(e: Entry)
    ensures PathOf(e) == Some([DOT]) <==> Spells(e, [DOT])
  {
    KindsMean(e.mode);
    NormalizeMeans(e.name, IsDirectory(e.mode), [DOT]);
    DotIsCanonical();
    StrippedToDot(e.name, IsDirectory(e.mode));
    assert [DOT, SLASH] + [DOT] == [46, 47, 46] && [DOT, SLASH] + ([DOT] + [SLASH]) == [46, 47, 46, 47];
  }

  // ----------------------------------------------------------------- one entry

  /** The checks that concern an entry alone: not the gateway; no set-uid, set-gid
      or sticky bit but for the root-owned sandbox helper with mode 4755; a
      regular file once linked or a directory without payload; and a runtime file
      is regular, root-owned and has its exact permissions. */
  predicate Passes(layout: Layout, e: Entry, path: Bytes) {
    && path != layout.gateway
    && (e.mode % 0x1000 < 0x200 ||
        (path == layout.sandbox && e.mode % 0x1000 == 0x9ed && Regular(e) && e.uid == 0 && e.gid == 0))
    && ((Regular(e) && e.nlink == 1 && e.size >= 0) || (Directory(e) && e.size == 0))
    && forall n | n in layout.names && path == layout.root + [47] + n ::
         Regular(e) && e.uid == 0 && e.gid == 0 && e.mode % 0x1000 == layout.names[n]
  }

  /** The path is that of the runtime file `n`. */
  predicate Wanted(layout: Layout, path: Bytes, n: Bytes) {
    n in layout.names && path == layout.root + [47] + n
  }

  lemma {:induction false} OutputExactly(layout: Layout, path: Bytes, n: Bytes)
    ensures OutputOf(layout, path) == Some(n) <==> Wanted(layout, path, n)
  {
    OutputNames(layout, path);
    if Wanted(layout, path, n) { assert path[|layout.root| + 1..] == n; }
  }

  lemma {:induction false} PassesExactly(layout: Layout, e: Entry, path: Bytes)
    ensures FieldsOk(layout, e, path) <==> Passes(layout, e, path)
  {
    KindsMean(e.mode);
    forall n ensures OutputOf(layout, path) == Some(n) <==> Wanted(layout, path, n) { OutputExactly(layout, path, n); }
    if Passes(layout, e, path) && OutputOf(layout, path).Some? {
      assert Wanted(layout, path, OutputOf(layout, path).value);
    }
    if FieldsOk(layout, e, path) {
      forall n | n in layout.names && path == layout.root + [47] + n
        ensures Regular(e) && e.uid == 0 && e.gid == 0 && e.mode % 0x1000 == layout.names[n]
      {
        assert Wanted(layout, path, n);
      }
    }
  }

  lemma {:induction false} ItemExactly(layout: Layout, e: Entry, path: Bytes)
    ensures ItemOf(layout, e).legal && ItemOf(layout, e).path == path <==> Spells(e, path) && Passes(layout, e, path)
    ensures ItemOf(layout, e).legal ==>
              (ItemOf(layout, e).file <==> Regular(e)) &&
              ItemOf(layout, e).weight == (if Regular(e) then e.size else 0)
  {
    KindsMean(e.mode);
    PathExactly(e, path);
    PassesExactly(layout, e, path);
    if PathOf(e).Some? {
      PathExactly(e, PathOf(e).value);
      PassesExactly(layout, e, PathOf(e).value);
    }
  }

  // ------------------------------------------------------------- a whole payload

  /** The bytes that regular files expand to. */
  function Expanded(es: seq<Entry>): int {
    if es == [] then 0 else (if Regular(es[0]) then es[0].size else 0) + Expanded(es[1..])
  }

  /** These are the paths of the entries, each legal where it stands. */
  ghost predicate Stands(layout: Layout, es: seq<Entry>, paths: seq<Bytes>) {
    |paths| == |es| && forall i | 0 <= i < |es| :: Spells(es[i], paths[i]) && Passes(layout, es[i], paths[i])
  }

  /** No two paths are equal, and none lies below a regular file. */
  ghost predicate Apart(es: seq<Entry>, paths: seq<Bytes>)
    requires |paths| == |es|
  {
    forall i, j | 0 <= i < |es| && 0 <= j < |es| && i != j ::
      paths[i] != paths[j] && (Regular(es[i]) ==> !(paths[i] + [47] <= paths[j]))
  }

  lemma {:induction false} TotalIsExpanded(layout: Layout, es: seq<Entry>)
    requires forall i | 0 <= i < |es| :: ItemOf(layout, es[i]).legal
    ensures Total(Items(layout, es)) == Expanded(es)
  {
    if es != [] {
      ItemExactly(layout, es[0], ItemOf(layout, es[0]).path);
      assert Items(layout, es)[1..] == Items(layout, es[1..]);
      TotalIsExpanded(layout, es[1..]);
    }
  }

  function PathsOf(layout: Layout, es: seq<Entry>): seq<Bytes> {
    seq(|es|, i requires 0 <= i < |es| => ItemOf(layout, es[i]).path)
  }

  /** A payload is admitted exactly when every entry is legal at the path it
      spells, no two paths are equal, none lies below a regular file, and there
      are at most 100,000 entries of at most two gibibytes. */
  lemma {:induction false} InspectsExactly(layout: Layout, es: seq<Entry>)
    ensures InspectAll(layout, EMPTY, es).Some? <==>
              |es| <= 100_000 && Expanded(es) <= 2 * 1024 * 1024 * 1024 &&
              exists paths :: Stands(layout, es, paths) && Apart(es, paths)
  {
    InspectIsBatch(layout, es);
    if InspectAll(layout, EMPTY, es).Some? {
      AdmittedStands(layout, es);
    } else if exists paths :: Stands(layout, es, paths) && Apart(es, paths) {
      var paths :| Stands(layout, es, paths) && Apart(es, paths);
      StandingIsTogether(layout, es, paths);
      TotalIsExpanded(layout, es);
    }
  }

  lemma {:induction false} AdmittedStands(layout: Layout, es: seq<Entry>)
    requires InspectAll(layout, EMPTY, es).Some?
    ensures Stands(layout, es, PathsOf(layout, es)) && Apart(es, PathsOf(layout, es))
    ensures Expanded(es) <= 2 * 1024 * 1024 * 1024
  {
    InspectIsBatch(layout, es);
    TotalIsExpanded(layout, es);
    var paths := PathsOf(layout, es);
    forall i | 0 <= i < |es| ensures Spells(es[i], paths[i]) && Passes(layout, es[i], paths[i]) {
      ItemExactly(layout, es[i], paths[i]);
    }
    forall i, j | 0 <= i < |es| && 0 <= j < |es| && i != j
      ensures paths[i] != paths[j] && (Regular(es[i]) ==> !(paths[i] + [47] <= paths[j]))
    {
      ItemExactly(layout, es[i], paths[i]);
      if i < j { assert Together(ItemOf(layout, es[i]), ItemOf(layout, es[j])); }
      else { assert Together(ItemOf(layout, es[j]), ItemOf(layout, es[i])); }
    }
  }

  lemma {:induction false} StandingIsTogether(layout: Layout, es: seq<Entry>, paths: seq<Bytes>)
    requires Stands(layout, es, paths) && Apart(es, paths)
    ensures forall i | 0 <= i < |es| :: ItemOf(layout, es[i]).legal && ItemOf(layout, es[i]).path == paths[i]
    ensures forall i, j | 0 <= i < j < |es| :: Together(ItemOf(layout, es[i]), ItemOf(layout, es[j]))
  {
    forall i | 0 <= i < |es|
      ensures ItemOf(layout, es[i]).legal && ItemOf(layout, es[i]).path == paths[i]
      ensures ItemOf(layout, es[i]).file <==> Regular(es[i])
    {
      ItemExactly(layout, es[i], paths[i]);
    }
  }

  // -------------------------------------------------------------- what is staged

  /** One member more: it is staged exactly when it is a runtime file. */
  lemma {:induction false} TakesExactly(layout: Layout, p: Progress, e: Entry, data: Bytes, path: Bytes)
    requires Take(layout, p, e, data).Some? && Spells(e, path)
    ensures
      var q := Take(layout, p, e, data).value;
      && Passes(layout, e, path) && q.members == p.members + [Member(e.name, e.mode, data)]
      && (forall n :: Wanted(layout, path, n) ==> q.staged == p.staged[n := (e.mode % 0x1000, data)])
      && ((forall n :: !Wanted(layout, path, n)) ==> q.staged == p.staged)
      && q.index.count == p.index.count + 1 && path in q.index.files
  {
    PathExactly(e, path);
    ItemExactly(layout, e, path);
    assert ItemOf(layout, e).path == path;
    forall n ensures OutputOf(layout, path) == Some(n) <==> Wanted(layout, path, n) { OutputExactly(layout, path, n); }
  }

  /** The paths of members, each found in its spelling, and no two equal. */
  ghost predicate Located(es: seq<(Entry, Bytes)>, paths: seq<Bytes>) {
    && |paths| == |es| && (forall i | 0 <= i < |es| :: Spells(es[i].0, paths[i]))
    && (forall i, j | 0 <= i < j < |es| :: paths[i] != paths[j])
  }

  ghost predicate WantedIn(layout: Layout, paths: seq<Bytes>, n: Bytes) {
    exists i :: 0 <= i < |paths| && Wanted(layout, paths[i], n)
  }

  /** The staged files are the runtime files among the members, each with its own
      permissions and bytes, beside those staged before. */
  ghost predicate Staged(layout: Layout, p: Progress, es: seq<(Entry, Bytes)>, paths: seq<Bytes>, q: Progress)
    requires |paths| == |es|
  {
    && (forall i, n | 0 <= i < |es| && Wanted(layout, paths[i], n) ::
          n in q.staged && q.staged[n] == (es[i].0.mode % 0x1000, es[i].1))
    && (forall n | !WantedIn(layout, paths, n) :: n in q.staged <==> n in p.staged)
    && (forall n | !WantedIn(layout, paths, n) && n in p.staged :: q.staged[n] == p.staged[n])
  }

  lemma {:induction false} TakesAllExactly(layout: Layout, p: Progress, es: seq<(Entry, Bytes)>, paths: seq<Bytes>)
    requires Located(es, paths) && TakeAll(TakerOf(layout), p, es).Some?
    ensures Staged(layout, p, es, paths, TakeAll(TakerOf(layout), p, es).value)
    ensures TakeAll(TakerOf(layout), p, es).value.index.count == p.index.count + |es|
    decreases es
  {
    if es != [] {
      var t := Take(layout, p, es[0].0, es[0].1).value;
      TakesExactly(layout, p, es[0].0, es[0].1, paths[0]);
      assert Located(es[1..], paths[1..]) by {
        forall i | 0 <= i < |es[1..]| ensures Spells(es[1..][i].0, paths[1..][i]) {
          assert Spells(es[i + 1].0, paths[i + 1]);
        }
      }
      TakesAllExactly(layout, t, es[1..], paths[1..]);
      StagedFirst(layout, p, t, es, paths, TakeAll(TakerOf(layout), t, es[1..]).value);
    }
  }

  lemma {:induction false} StagedFirst(layout: Layout, p: Progress, t: Progress, es: seq<(Entry, Bytes)>,
          paths: seq<Bytes>, q: Progress)
    requires es != [] && Located(es, paths) && Staged(layout, t, es[1..], paths[1..], q)
    requires forall n :: Wanted(layout, paths[0], n) ==>
               t.staged == p.staged[n := (es[0].0.mode % 0x1000, es[0].1)]
    requires (forall n :: !Wanted(layout, paths[0], n)) ==> t.staged == p.staged
    ensures Staged(layout, p, es, paths, q)
  {
    var rest := paths[1..];
    forall i, n | 0 <= i < |es| && Wanted(layout, paths[i], n)
      ensures n in q.staged && q.staged[n] == (es[i].0.mode % 0x1000, es[i].1)
    {
      if i == 0 {
        forall j | 0 <= j < |rest| ensures !Wanted(layout, rest[j], n) { assert rest[j] == paths[j + 1]; }
        assert !WantedIn(layout, rest, n);
      } else {
        assert rest[i - 1] == paths[i] && es[1..][i - 1] == es[i];
      }
    }
    forall n | !WantedIn(layout, paths, n)
      ensures (n in q.staged <==> n in p.staged) && (n in p.staged ==> q.staged[n] == p.staged[n])
    {
      assert !Wanted(layout, paths[0], n);
      forall j | 0 <= j < |rest| ensures !Wanted(layout, rest[j], n) { assert rest[j] == paths[j + 1]; }
      assert !WantedIn(layout, rest, n);
      if m :| Wanted(layout, paths[0], m) { assert m != n; }
    }
  }

  /** All runtime files are there, staged as they are, and nothing else is. */
  ghost predicate Extracted(layout: Layout, es: seq<(Entry, Bytes)>, paths: seq<Bytes>, p: Progress)
    requires |paths| == |es|
  {
    && (Complete(layout, p) <==> es != [] && forall n | n in layout.names :: WantedIn(layout, paths, n))
    && (forall i, n | 0 <= i < |es| && Wanted(layout, paths[i], n) ::
          n in p.staged && p.staged[n] == (es[i].0.mode % 0x1000, es[i].1))
    && (forall n | n in p.staged :: n in layout.names && WantedIn(layout, paths, n))
  }

  lemma {:induction false} StagedIsComplete(layout: Layout, es: seq<(Entry, Bytes)>, paths: seq<Bytes>, p: Progress)
    requires |paths| == |es| && Staged(layout, START, es, paths, p) && p.index.count == |es|
    ensures Extracted(layout, es, paths, p)
  {
    forall n ensures n in p.staged <==> WantedIn(layout, paths, n) {
      if WantedIn(layout, paths, n) {
        var i :| 0 <= i < |paths| && Wanted(layout, paths[i], n);
      }
    }
  }

  /** A payload that is admitted extracts completely exactly when it is not empty
      and holds every runtime file; each is staged with its own permissions and
      bytes, and nothing else is. */
  lemma {:induction false} ExtractsExactly(layout: Layout, es: seq<(Entry, Bytes)>, paths: seq<Bytes>, p: Progress)
    requires Located(es, paths) && TakeAll(TakerOf(layout), START, es) == Some(p)
    ensures Extracted(layout, es, paths, p)
  {
    TakesAllExactly(layout, START, es, paths);
    assert Staged(layout, START, es, paths, p) && p.index.count == |es|;
    StagedIsComplete(layout, es, paths, p);
  }
}
