/** The path-conflict index: what it admits entry by entry is one condition on
    the whole collection of entries, in whatever order they come. */
module PathIndex {
  import opened Basics
  import opened Bytes
  import opened PayloadPaths

  const MAX_ENTRIES: nat := 100_000
  const MAX_EXPANDED_BYTES: nat := 2 * 1024 * 1024 * 1024

  /** An entry as the index sees it: whether it is legal on its own, its path,
      whether it is a regular file, and the payload bytes it accounts for. */
  datatype Item = Item(legal: bool, path: Bytes, file: bool, weight: nat)

  datatype Index = Index(files: map<Bytes, bool>, count: nat, total: nat)

  const EMPTY: Index := Index(map[], 0, 0)

  // ------------------------------------------------------------ one by one

  predicate BelowFile(files: map<Bytes, bool>, path: Bytes) {
    exists a | a in files :: files[a] && IsAncestor(a, path)
  }

  predicate AboveEntry(files: map<Bytes, bool>, path: Bytes) {
    exists p | p in files :: IsAncestor(path, p)
  }

  function Admit(ix: Index, e: Item): Option<Index> {
    if ix.count >= MAX_ENTRIES || !e.legal || e.path in ix.files || BelowFile(ix.files, e.path) then None
    else if (e.file && AboveEntry(ix.files, e.path)) || ix.total + e.weight > MAX_EXPANDED_BYTES then None
    else Some(Index(ix.files[e.path := e.file], ix.count + 1, ix.total + e.weight))
  }

  function AdmitFrom(ix: Index, es: seq<Item>): Option<Index>
    decreases es
  {
    if es == [] then Some(ix)
    else match Admit(ix, es[0])
         case None => None
         case Some(next) => AdmitFrom(next, es[1..])
  }

  // -------------------------------------------------------------- all at once

  function Total(es: seq<Item>): nat {
    if es == [] then 0 else es[0].weight + Total(es[1..])
  }

  /** Two entries can stand together: different paths, and no regular file is
      above the other. */
  predicate Together(e: Item, f: Item) {
    e.path != f.path && (e.file ==> !IsAncestor(e.path, f.path)) && (f.file ==> !IsAncestor(f.path, e.path))
  }

  ghost predicate Compatible(es: seq<Item>) {
    forall i, j | 0 <= i < j < |es| :: Together(es[i], es[j])
  }

  /** The batch specification: nothing in it depends on the order. */
  ghost predicate Acceptable(es: seq<Item>) {
    |es| <= MAX_ENTRIES && Total(es) <= MAX_EXPANDED_BYTES && (forall e | e in es :: e.legal) && Compatible(es)
  }

  /** What still fits into an index that has entries already. */
  ghost predicate Fits(ix: Index, es: seq<Item>) {
    && ix.count + |es| <= MAX_ENTRIES && ix.total + Total(es) <= MAX_EXPANDED_BYTES
    && (forall e | e in es :: e.legal) && Compatible(es)
    && (forall p, j | p in ix.files && 0 <= j < |es| :: Together(Item(true, p, ix.files[p], 0), es[j]))
  }

  lemma {:induction false} HeadFits(ix: Index, es: seq<Item>)
    requires es != [] && Fits(ix, es)
    ensures Admit(ix, es[0]).Some? && Fits(Admit(ix, es[0]).value, es[1..])
  {
    assert es[0] in es;
    forall p | p in ix.files ensures p != es[0].path && !(ix.files[p] && IsAncestor(p, es[0].path)) &&
        !(es[0].file && IsAncestor(es[0].path, p)) {
      assert Together(Item(true, p, ix.files[p], 0), es[0]);
    }
    var next := Admit(ix, es[0]).value;
    forall p, j | p in next.files && 0 <= j < |es[1..]| ensures Together(Item(true, p, next.files[p], 0), es[1..][j]) {
      assert es[1..][j] == es[j + 1];
      if p == es[0].path {
        assert Together(es[0], es[j + 1]);
      } else {
        assert Together(Item(true, p, ix.files[p], 0), es[j + 1]);
      }
    }
    forall i, j | 0 <= i < j < |es[1..]| ensures Together(es[1..][i], es[1..][j]) {
      assert Together(es[i + 1], es[j + 1]);
    }
  }

  lemma {:induction false} TailFits(ix: Index, es: seq<Item>)
    requires es != [] && Admit(ix, es[0]).Some? && Fits(Admit(ix, es[0]).value, es[1..])
    ensures Fits(ix, es)
  {
    var next := Admit(ix, es[0]).value;
    forall e | e in es ensures e.legal { assert e == es[0] || e in es[1..]; }
    forall i, j | 0 <= i < j < |es| ensures Together(es[i], es[j]) {
      assert es[j] == es[1..][j - 1];
      if i == 0 {
        assert Together(Item(true, es[0].path, next.files[es[0].path], 0), es[1..][j - 1]);
      } else {
        assert es[i] == es[1..][i - 1] && Together(es[1..][i - 1], es[1..][j - 1]);
      }
    }
    forall p, j | p in ix.files && 0 <= j < |es| ensures Together(Item(true, p, ix.files[p], 0), es[j]) {
      if j > 0 { assert Together(Item(true, p, next.files[p], 0), es[1..][j - 1]); }
    }
  }

  lemma {:induction false} OnlineFits(ix: Index, es: seq<Item>)
    ensures AdmitFrom(ix, es).Some? <==> es == [] || Fits(ix, es)
    decreases es
  {
    if es != [] {
      if Admit(ix, es[0]).Some? {
        var next := Admit(ix, es[0]).value;
        OnlineFits(next, es[1..]);
        if es[1..] == [] { assert Fits(next, es[1..]); }
        if Fits(next, es[1..]) { TailFits(ix, es); }
      }
      if Fits(ix, es) { HeadFits(ix, es); }
    }
  }

  /** The online index equals the batch specification. */
  lemma {:induction false} OnlineIsBatch(es: seq<Item>)
    ensures AdmitFrom(EMPTY, es).Some? <==> Acceptable(es)
  {
    OnlineFits(EMPTY, es);
  }

  // ------------------------------------------------------------ permutations

  lemma {:induction false} TotalWithout(es: seq<Item>, i: nat)
    requires i < |es|
    ensures Total(es) == es[i].weight + Total(es[..i] + es[i + 1..])
  {
    if i == 0 {
      assert es[..0] + es[1..] == es[1..];
    } else {
      TotalWithout(es[1..], i - 1);
      var rest := es[..i] + es[i + 1..];
      assert rest[1..] == es[1..][..i - 1] + es[1..][i..];
    }
  }

  lemma {:induction false} TakenOut<T>(s: seq<T>, i: nat)
    requires i < |s|
    ensures multiset(s) == multiset(s[..i] + s[i + 1..]) + multiset{s[i]}
  {
    assert s == s[..i] + [s[i]] + s[i + 1..];
  }

  /** Two permutations, each without one occurrence of the same element. */
  lemma {:induction false} TakenOutOfBoth<T>(s: seq<T>, t: seq<T>) returns (i: nat)
    requires multiset(s) == multiset(t) && s != []
    ensures i < |t| && t[i] == s[0] && multiset(s[1..]) == multiset(t[..i] + t[i + 1..])
  {
    assert s[0] in multiset(s) && s[0] in multiset(t);
    i :| 0 <= i < |t| && t[i] == s[0];
    TakenOut(s, 0);
    TakenOut(t, i);
    assert s[..0] + s[1..] == s[1..];
    assert multiset(s[1..]) == multiset(s) - multiset{s[0]} == multiset(t[..i] + t[i + 1..]);
  }

  lemma {:induction false} TotalIgnoresOrder(es: seq<Item>, fs: seq<Item>)
    requires multiset(es) == multiset(fs)
    ensures Total(es) == Total(fs)
  {
    if es == [] {
      assert |fs| == |multiset(fs)| == 0;
    } else {
      var i := TakenOutOfBoth(es, fs);
      TotalWithout(fs, i);
      TotalIgnoresOrder(es[1..], fs[..i] + fs[i + 1..]);
    }
  }

  lemma {:induction false} TailCompatible(es: seq<Item>)
    requires es != [] && Compatible(es)
    ensures Compatible(es[1..]) && es[0] !in es[1..]
  {
    forall i, j | 0 <= i < j < |es[1..]| ensures Together(es[1..][i], es[1..][j]) {
      assert Together(es[i + 1], es[j + 1]);
    }
    forall i | 0 <= i < |es[1..]| ensures es[1..][i] != es[0] { assert Together(es[0], es[i + 1]); }
  }

  lemma {:induction false} OnceEach(es: seq<Item>, e: Item)
    requires Compatible(es)
    ensures multiset(es)[e] <= 1
  {
    if es != [] {
      TailCompatible(es);
      OnceEach(es[1..], e);
      assert es == [es[0]] + es[1..];
      assert multiset(es) == multiset{es[0]} + multiset(es[1..]);
    }
  }

  lemma {:induction false} Twice<T>(s: seq<T>, i: nat, j: nat)
    requires i < j < |s| && s[i] == s[j]
    ensures multiset(s)[s[i]] >= 2
  {
    TakenOut(s, i);
    assert (s[..i] + s[i + 1..])[j - 1] == s[i];
    assert s[i] in multiset(s[..i] + s[i + 1..]);
  }

  lemma {:induction false} Reordered(es: seq<Item>, fs: seq<Item>)
    requires multiset(es) == multiset(fs) && Acceptable(es)
    ensures Acceptable(fs)
  {
    assert |es| == |multiset(es)| == |fs|;
    TotalIgnoresOrder(es, fs);
    forall f | f in fs ensures f.legal { assert f in multiset(fs); assert f in es; }
    forall i, j | 0 <= i < j < |fs| ensures Together(fs[i], fs[j]) {
      assert fs[i] in multiset(fs) && fs[j] in multiset(fs);
      if fs[i] == fs[j] {
        Twice(fs, i, j);
        OnceEach(es, fs[i]);
      } else {
        var a :| 0 <= a < |es| && es[a] == fs[i];
        var b :| 0 <= b < |es| && es[b] == fs[j];
        if a < b { assert Together(es[a], es[b]); } else { assert Together(es[b], es[a]); }
      }
    }
  }

  /** Acceptance, with all its limits, is the same for every permutation. */
  lemma {:induction false} OrderDoesNotMatter(es: seq<Item>, fs: seq<Item>)
    requires multiset(es) == multiset(fs)
    ensures AdmitFrom(EMPTY, es).Some? <==> AdmitFrom(EMPTY, fs).Some?
  {
    OnlineIsBatch(es);
    OnlineIsBatch(fs);
    if Acceptable(es) { Reordered(es, fs); }
    if Acceptable(fs) { Reordered(fs, es); }
  }
}
