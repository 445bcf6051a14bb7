/** When a control artifact is offered and spent, stated on the stored pool and
    the ledger alone: an acquisition and a spend succeed exactly when they should. */
module Acquisition {
  import opened Basics
  import opened Spending

  /** An entry of the stored pool that may be offered at `now`. */
  predicate Good(e: Entry, ledger: Ledger, now: int, horizon: nat) {
    !e.spent && !e.revoked && Spent(e.digest) !in ledger && 1 <= |e.json| <= 65_536 && e.expires > now + horizon
  }

  /** One that counts for the waterline. */
  predicate Counts(e: Entry, ledger: Ledger, now: int, horizon: nat) {
    !e.spent && !e.revoked && Spent(e.digest) !in ledger && e.json != "" && e.expires > now + horizon
  }

  /** The entries that count, in pool order. */
  function Counting(es: seq<Entry>, ledger: Ledger, now: int, horizon: nat): seq<Entry> {
    if es == [] then []
    else (if Counts(es[0], ledger, now, horizon) then [es[0]] else []) + Counting(es[1..], ledger, now, horizon)
  }

  lemma {:induction false} CleaningKeepsCounting(es: seq<Entry>, ledger: Ledger, now: int, horizon: nat)
    ensures Counting(Blanked(Reconciled(es, ledger), now), ledger, now, horizon) == Counting(es, ledger, now, horizon)
  {
    if es != [] {
      assert Reconciled(es, ledger)[1..] == Reconciled(es[1..], ledger);
      assert Blanked(Reconciled(es, ledger), now)[1..] == Blanked(Reconciled(es[1..], ledger), now);
      CleaningKeepsCounting(es[1..], ledger, now, horizon);
    }
  }

  lemma {:induction false} CompactingKeepsCounting(es: seq<Entry>, remove: nat, ledger: Ledger, now: int, horizon: nat)
    ensures Counting(Compacted(es, remove), ledger, now, horizon) == Counting(es, ledger, now, horizon)
  {
    if es != [] && remove > 0 {
      if Removable(es[0]) {
        CompactingKeepsCounting(es[1..], remove - 1, ledger, now, horizon);
      } else {
        CompactingKeepsCounting(es[1..], remove, ledger, now, horizon);
        assert ([es[0]] + Compacted(es[1..], remove))[1..] == Compacted(es[1..], remove);
      }
    }
  }

  /** No live entry of these has a tombstone. */
  ghost predicate Clean(es: seq<Entry>, ledger: Ledger) {
    forall i | 0 <= i < |es| :: !es[i].spent && !es[i].revoked ==> Spent(es[i].digest) !in ledger
  }

  lemma {:induction false} CompactedIsClean(es: seq<Entry>, remove: nat, ledger: Ledger)
    requires Clean(es, ledger)
    ensures Clean(Compacted(es, remove), ledger)
  {
    if es != [] && remove > 0 {
      assert Clean(es[1..], ledger);
      CompactedIsClean(es[1..], if Removable(es[0]) then remove - 1 else remove, ledger);
    }
  }

  /** Putting the pool in order loses no entry that counts and keeps their order. */
  lemma {:induction false} OrderKeepsCounting(p: Pool, ledger: Ledger, now: int)
    ensures Counting(Ordered(p, ledger, now).entries, ledger, now, p.horizon) ==
            Counting(p.entries, ledger, now, p.horizon)
    ensures Clean(Ordered(p, ledger, now).entries, ledger)
  {
    var es := Blanked(Reconciled(p.entries, ledger), now);
    CleaningKeepsCounting(p.entries, ledger, now, p.horizon);
    CompactingKeepsCounting(es, if |es| <= MAX_POOL then 0 else |es| - MAX_POOL, ledger, now, p.horizon);
    CompactedIsClean(es, if |es| <= MAX_POOL then 0 else |es| - MAX_POOL, ledger);
  }

  lemma {:induction false} CountingEnd(es: seq<Entry>, ledger: Ledger, now: int, horizon: nat)
    requires es != []
    ensures var e := es[|es| - 1];
            Counting(es, ledger, now, horizon) ==
            Counting(es[..|es| - 1], ledger, now, horizon) + (if Counts(e, ledger, now, horizon) then [e] else [])
  {
    if |es| == 1 {
      assert es[1..] == [] && es[..0] == [];
    } else {
      var t, front := es[1..], es[..|es| - 1];
      assert t[..|t| - 1] == front[1..] && t[|t| - 1] == es[|es| - 1] && front[0] == es[0];
      CountingEnd(t, ledger, now, horizon);
    }
  }

  lemma {:induction false} CountIsLength(es: seq<Entry>, ledger: Ledger, now: int, horizon: nat)
    requires Clean(es, ledger)
    ensures UsableCount(es, now, horizon) == |Counting(es, ledger, now, horizon)|
  {
    if es != [] {
      assert Clean(es[..|es| - 1], ledger);
      CountIsLength(es[..|es| - 1], ledger, now, horizon);
      CountingEnd(es, ledger, now, horizon);
    }
  }

  /** The first entry that may be offered, if there is one. */
  function FirstGood(es: seq<Entry>, ledger: Ledger, now: int, horizon: nat): Option<Entry> {
    if es == [] then None
    else if Good(es[0], ledger, now, horizon) then Some(es[0]) else FirstGood(es[1..], ledger, now, horizon)
  }

  /** The good entry `e` stands at `i`, and none before it is good. */
  predicate IsFirst(es: seq<Entry>, i: int, e: Entry, ledger: Ledger, now: int, horizon: nat) {
    && 0 <= i < |es| && Good(es[i], ledger, now, horizon) && es[i] == e
    && forall j | 0 <= j < i :: !Good(es[j], ledger, now, horizon)
  }

  /** It is the good entry that no other good entry comes before. */
  lemma {:induction false} FirstGoodIsFirst(es: seq<Entry>, ledger: Ledger, now: int, horizon: nat)
    ensures FirstGood(es, ledger, now, horizon).Some? <==>
            exists i :: 0 <= i < |es| && Good(es[i], ledger, now, horizon)
    ensures FirstGood(es, ledger, now, horizon).Some? ==>
              exists i :: IsFirst(es, i, FirstGood(es, ledger, now, horizon).value, ledger, now, horizon)
  {
    if es != [] && Good(es[0], ledger, now, horizon) {
      assert IsFirst(es, 0, es[0], ledger, now, horizon);
    } else if es != [] {
      FirstGoodIsFirst(es[1..], ledger, now, horizon);
      assert forall i | 0 < i < |es| :: es[i] == es[1..][i - 1];
      var first := FirstGood(es[1..], ledger, now, horizon);
      if first.Some? {
        var i :| IsFirst(es[1..], i, first.value, ledger, now, horizon);
        assert IsFirst(es, i + 1, first.value, ledger, now, horizon);
      }
    }
  }

  lemma {:induction false} FirstOfCounting(es: seq<Entry>, ledger: Ledger, now: int, horizon: nat)
    ensures FirstGood(es, ledger, now, horizon) == FirstGood(Counting(es, ledger, now, horizon), ledger, now, horizon)
  {
    if es != [] {
      FirstOfCounting(es[1..], ledger, now, horizon);
      var rest := Counting(es[1..], ledger, now, horizon);
      assert ([es[0]] + rest)[1..] == rest && [] + rest == rest;
    }
  }

  lemma {:induction false} OfferIsFirstGood(es: seq<Entry>, ledger: Ledger, now: int, horizon: nat)
    requires Clean(es, ledger)
    ensures FirstOffer(es, now, horizon) == FirstGood(es, ledger, now, horizon)
  {
    if es != [] {
      assert Clean(es[1..], ledger);
      OfferIsFirstGood(es[1..], ledger, now, horizon);
    }
  }

  /** The ordered pool offers the first good entry of the stored one. */
  lemma {:induction false} OrderedOffers(p: Pool, ledger: Ledger, now: int)
    ensures FirstOffer(Ordered(p, ledger, now).entries, now, p.horizon) == FirstGood(p.entries, ledger, now, p.horizon)
    ensures UsableCount(Ordered(p, ledger, now).entries, now, p.horizon) ==
            |Counting(p.entries, ledger, now, p.horizon)|
  {
    var es := Ordered(p, ledger, now).entries;
    OrderKeepsCounting(p, ledger, now);
    OfferIsFirstGood(es, ledger, now, p.horizon);
    FirstOfCounting(es, ledger, now, p.horizon);
    FirstOfCounting(p.entries, ledger, now, p.horizon);
    CountIsLength(es, ledger, now, p.horizon);
  }

  // ------------------------------------------------------------- acquisition

  /** A pool that belongs to the configuration and may be offered from. */
  ghost predicate InForce(d: Digests, c: Configs, rejected: bool) {
    && c.memory.Some? && !rejected && c.memory.value.pool.Some?
    && var p := c.memory.value.pool.value;
       && p.generation == c.memory.value.generation && p.recovery != Relink && !p.topUpTerminal
       && forall i | 0 <= i < |p.entries| ::
            p.entries[i].spent || p.entries[i].revoked || d.canonical(p.entries[i].digest)
  }

  lemma {:induction false} CanonicalEach(d: Digests, es: seq<Entry>)
    ensures (forall i | 0 <= i < |es| :: es[i].spent || es[i].revoked || d.canonical(es[i].digest)) <==>
            !(exists e | e in es :: !e.spent && !e.revoked && !d.canonical(e.digest))
  {
    if exists e | e in es :: !e.spent && !e.revoked && !d.canonical(e.digest) {
      var e :| e in es && !e.spent && !e.revoked && !d.canonical(e.digest);
      var i :| 0 <= i < |es| && es[i] == e;
    }
    forall i | 0 <= i < |es| && !es[i].spent && !es[i].revoked && !d.canonical(es[i].digest) ensures es[i] in es {}
  }

  lemma {:induction false} AcquireIs(d: Digests, c: Configs, rejected: bool, ledger: Ledger, now: int, save: Save,
          save2: Save)
    requires InForce(d, c, rejected)
    ensures var p := c.memory.value.pool.value;
            Acquire(d, c, rejected, ledger, now, save, save2) ==
            AcquireFrom(c, c.memory.value, p, Ordered(p, ledger, now), now, save, save2)
  {
    CanonicalEach(d, c.memory.value.pool.value.entries);
  }

  /** With saves that are reported, an acquisition succeeds exactly when some
      entry of the stored pool is good, and returns the first of them; otherwise,
      and only then, the pool is stored as exhausted. */
  lemma {:induction false} AcquiresExactly(d: Digests, c: Configs, rejected: bool, ledger: Ledger, now: int)
    requires InForce(d, c, rejected)
    ensures
      var (after, r) := Acquire(d, c, rejected, ledger, now, Stored, Stored);
      var p := c.memory.value.pool.value;
      && (r.Ok? <==> exists i :: 0 <= i < |p.entries| && Good(p.entries[i], ledger, now, p.horizon))
      && (r.Ok? ==> exists i :: IsFirst(p.entries, i, r.value, ledger, now, p.horizon))
      && (r.Err? <==> r == Err(Empty))
      && after.memory.Some? && after.memory.value.pool.Some?
      && (r.Err? ==> after.memory.value.pool.value.recovery == Exhausted)
      && (r.Ok? ==>
          after.memory.value.pool.value.recovery ==
            if p.recovery == Ready && |Counting(p.entries, ledger, now, p.horizon)| < p.waterline then Degraded
            else p.recovery)
      && Counting(after.memory.value.pool.value.entries, ledger, now, p.horizon) ==
             Counting(p.entries, ledger, now, p.horizon)
      && (after.disk == c.disk || after.disk == after.memory)
  {
    var p := c.memory.value.pool.value;
    AcquireIs(d, c, rejected, ledger, now, Stored, Stored);
    OrderedOffers(p, ledger, now);
    OrderKeepsCounting(p, ledger, now);
    FirstGoodIsFirst(p.entries, ledger, now, p.horizon);
  }

  /** Whatever becomes of its saves, an acquisition returns nothing but the first
      good entry of the stored pool, calls the pool empty only when it has none,
      and reports a failed save only when one failed. */
  lemma {:induction false} AcquiresOnlyGood(d: Digests, c: Configs, rejected: bool, ledger: Ledger, now: int,
          save: Save, save2: Save)
    requires InForce(d, c, rejected)
    ensures
      var r := Acquire(d, c, rejected, ledger, now, save, save2).1;
      var p := c.memory.value.pool.value;
      && (r.Ok? ==> exists i :: IsFirst(p.entries, i, r.value, ledger, now, p.horizon))
      && (r == Err(Empty) ==> forall i | 0 <= i < |p.entries| :: !Good(p.entries[i], ledger, now, p.horizon))
      && (r.Err? ==> r == Err(Empty) || (r == Err(SaveFailed) && !(save.Stored? && save2.Stored?)))
  {
    var p := c.memory.value.pool.value;
    AcquireIs(d, c, rejected, ledger, now, save, save2);
    OrderedOffers(p, ledger, now);
    FirstGoodIsFirst(p.entries, ledger, now, p.horizon);
  }

  /** Outside those conditions nothing is offered, and the error says which of
      them failed first. */
  lemma {:induction false} RefusesExactly(d: Digests, c: Configs, rejected: bool, ledger: Ledger, now: int)
    requires !InForce(d, c, rejected)
    ensures
      var (after, r) := Acquire(d, c, rejected, ledger, now, Stored, Stored);
      if c.memory.None? then r == Err(Missing) && after == c
      else if rejected then r == Err(RelinkRequired) && after == c
      else if c.memory.value.pool.None? then r == Err(Empty) && after == c
      else
        var p := c.memory.value.pool.value;
        if p.generation != c.memory.value.generation then r == Err(Mismatch) && after == c
        else if exists i :: 0 <= i < |p.entries| && !p.entries[i].spent && !p.entries[i].revoked &&
                            !d.canonical(p.entries[i].digest) then r == Err(BadDigest) && after == c
        else r == Err(RelinkRequired)
  {
    if c.memory.Some? && c.memory.value.pool.Some? { CanonicalEach(d, c.memory.value.pool.value.entries); }
  }

  // ------------------------------------------------------------------- spends

  /** The tombstones that are kept: all but those past their retention. */
  function Kept(ledger: Ledger, now: int): set<Name> {
    set n | n in ledger && !(n.Spent? && ledger[n].Record? && ledger[n].expires < ledger[n].retainUntil <= now)
  }

  /** A spend is recorded exactly when the artifact is well formed and its digest
      right, no kept tombstone names it, fewer than 65,536 are kept and the file
      is written and synced; then its tombstone is retained for an hour past its
      expiry, and no other kept one changes. */
  lemma {:induction false} BeginsExactly(d: Digests, ledger: Ledger, l: Lease, now: int, fate: Fate)
    ensures
      var (after, ok) := BeginSpend(d, ledger, l, now, fate);
      && (ok <==>
          && 1 <= |l.json| <= 65_536 && l.digest != "" && l.digest == d.sha(l.json) && l.expires > 0
          && Spent(l.digest) !in Kept(ledger, now) && |Kept(ledger, now)| < 65_536 && fate.Done?)
      && (ok ==> Spent(l.digest) in after && after[Spent(l.digest)] == Record(l.expires, l.expires + 3600))
      && (forall n | n in Kept(ledger, now) && n in ledger :: n in after && after[n] == ledger[n])
  {
    assert Pruned(ledger, now).Keys == Kept(ledger, now);
    assert |Pruned(ledger, now)| == |Pruned(ledger, now).Keys|;
  }

  predicate Same(l: Lease, e: Entry) {
    e.sequence == l.sequence && e.digest == l.digest && e.expires == l.expires && e.json == l.json
  }

  /** The pool's side of a spend is stored exactly when the configuration is still
      of the lease's generation and the first entry with all of its data is
      unspent; that entry turns spent without its JSON, and no other changes. */
  lemma {:induction false} FinishesExactly(c: Configs, l: Lease, save: Save)
    ensures
      var (after, failure) := FinishSpend(c, l, save);
      && (failure.None? <==>
          && save.Stored? && c.memory.Some? && c.memory.value.pool.Some? && c.memory.value.generation == l.generation
          && exists i :: Chosen(c.memory.value.pool.value.entries, l, i))
      && (failure.None? ==>
          && after.disk == after.memory && after.memory.Some? && after.memory.value.pool.Some?
          && exists i ::
               && Chosen(c.memory.value.pool.value.entries, l, i)
               && after.memory.value.pool.value == c.memory.value.pool.value.(entries :=
                    c.memory.value.pool.value.entries[i := c.memory.value.pool.value.entries[i].(spent := true,
                        json := "")]))
  {
    if c.memory.Some? && c.memory.value.pool.Some? {
      var es := c.memory.value.pool.value.entries;
      FirstNamedBounds(es, l);
      if FirstNamed(es, l) < |es| && !es[FirstNamed(es, l)].spent { assert Chosen(es, l, FirstNamed(es, l)); }
      forall i | Chosen(es, l, i) ensures FirstNamed(es, l) == i {
        assert Names(l, es[i]);
      }
    }
  }

  /** The first entry with all data of the lease, not spent yet. */
  predicate Chosen(es: seq<Entry>, l: Lease, i: int) {
    0 <= i < |es| && Same(l, es[i]) && !es[i].spent && forall j | 0 <= j < i :: !Same(l, es[j])
  }

  /** A spend works: from any pool in force with a good entry whose digest is
      right, an acquisition, the ledger entry and the stored pool, none of them
      failing, spend the first good entry, on disk, under its tombstone. */
  lemma {:induction false} SpendWorks(d: Digests, c: Configs, ledger: Ledger, now: int, at: int)
    requires InForce(d, c, false) && |Kept(ledger, at)| < 65_536
    requires var p := c.memory.value.pool.value;
      && (exists i :: 0 <= i < |p.entries| && Good(p.entries[i], ledger, now, p.horizon))
      && (forall i | 0 <= i < |p.entries| && Good(p.entries[i], ledger, now, p.horizon) ::
            p.entries[i].digest == d.sha(p.entries[i].json) != "" && p.entries[i].expires > 0)
    ensures
      var (held, r) := Acquire(d, c, false, ledger, now, Stored, Stored);
      && r.Ok? && held.memory.Some?
      && var l := Lease(held.memory.value.generation, r.value.sequence, r.value.digest, r.value.json, r.value.expires);
         var (after, ok) := BeginSpend(d, ledger, l, at, Done);
         && ok && Spent(r.value.digest) in after && FinishSpend(held, l, Stored).1 == None
  {
    var p := c.memory.value.pool.value;
    var (held, r) := Acquire(d, c, false, ledger, now, Stored, Stored);
    AcquiresExactly(d, c, false, ledger, now);
    var i :| IsFirst(p.entries, i, r.value, ledger, now, p.horizon);
    var l := Lease(held.memory.value.generation, r.value.sequence, r.value.digest, r.value.json, r.value.expires);
    BeginsExactly(d, ledger, l, at, Done);
    AcquiredIsHeld(d, c, ledger, now);
    var k :| 0 <= k < |held.memory.value.pool.value.entries| && held.memory.value.pool.value.entries[k] == r.value;
    FirstChosen(held.memory.value.pool.value.entries, l, k);
    FinishesExactly(held, l, Stored);
  }

  /** Where the data of a lease is found unspent, and so is everything like it,
      there is a first. */
  lemma {:induction false} FirstChosen(es: seq<Entry>, l: Lease, k: nat)
    requires k < |es| && Same(l, es[k]) && l.json != "" && forall j | 0 <= j < |es| && es[j].spent :: es[j].json == ""
    ensures exists i :: Chosen(es, l, i)
  {
    if exists j :: 0 <= j < k && Same(l, es[j]) {
      var j :| 0 <= j < k && Same(l, es[j]);
      FirstChosen(es, l, j);
    } else {
      assert Chosen(es, l, k);
    }
  }

  lemma {:induction false} OfferIsIn(es: seq<Entry>, now: int, horizon: nat)
    ensures FirstOffer(es, now, horizon).Some? ==> FirstOffer(es, now, horizon).value in es
  {
    if es != [] { OfferIsIn(es[1..], now, horizon); }
  }

  lemma {:induction false} CompactedIsPart(es: seq<Entry>, remove: nat)
    ensures forall e | e in Compacted(es, remove) :: e in es
  {
    if es != [] && remove > 0 {
      CompactedIsPart(es[1..], if Removable(es[0]) then remove - 1 else remove);
    }
  }

  /** The acquired entry is in the pool then held, where spent ones are blank. */
  lemma {:induction false} AcquiredIsHeld(d: Digests, c: Configs, ledger: Ledger, now: int)
    requires InForce(d, c, false) && Acquire(d, c, false, ledger, now, Stored, Stored).1.Ok?
    ensures
      var (held, r) := Acquire(d, c, false, ledger, now, Stored, Stored);
      && held.memory.Some? && held.memory.value.pool.Some?
      && r.value in held.memory.value.pool.value.entries
      && forall e | e in held.memory.value.pool.value.entries && e.spent :: e.json == ""
  {
    var p := c.memory.value.pool.value;
    var q := Ordered(p, ledger, now);
    AcquireIs(d, c, false, ledger, now, Stored, Stored);
    OfferIsIn(q.entries, now, p.horizon);
    var es := Blanked(Reconciled(p.entries, ledger), now);
    CompactedIsPart(es, if |es| <= MAX_POOL then 0 else |es| - MAX_POOL);
  }

  // ------------------------------------------------------ what is stored of it

  /** `f` is `e` put in order: burned under a tombstone, and without its JSON
      once it is spent, revoked or past its expiry. */
  predicate Cleaned(e: Entry, f: Entry, ledger: Ledger, now: int) {
    var burned := !e.spent && !e.revoked && Spent(e.digest) in ledger;
    && f == e.(spent := f.spent, json := f.json) && (f.spent <==> e.spent || burned)
    && f.json == (if e.spent || e.revoked || burned || e.expires <= now then "" else e.json)
  }

  function RemovableCount(es: seq<Entry>): nat {
    if es == [] then 0
    else
      var e := es[0];
      (if e.spent || e.revoked || e.json == "" then 1 else 0) + RemovableCount(es[1..])
  }

  lemma {:induction false} CompactedLength(es: seq<Entry>, remove: nat)
    ensures |Compacted(es, remove)| == |es| - (if remove < RemovableCount(es) then remove else RemovableCount(es))
    ensures forall e | e in Compacted(es, remove) :: e in es
  {
    if es != [] && remove > 0 { CompactedLength(es[1..], if Removable(es[0]) then remove - 1 else remove); }
  }

  /** An ordered pool of at most eight entries has each of them, put in order; a
      larger one loses removable entries until eight are left or none is. */
  lemma {:induction false} OrderedExactly(p: Pool, ledger: Ledger, now: int)
    ensures
      var es, clean := Ordered(p, ledger, now).entries, Blanked(Reconciled(p.entries, ledger), now);
      && |clean| == |p.entries| && (forall i | 0 <= i < |clean| :: Cleaned(p.entries[i], clean[i], ledger, now))
      && (|p.entries| <= 8 ==> es == clean)
      && (|p.entries| > 8 ==>
          |es| == (if |p.entries| - 8 < RemovableCount(clean) then 8 else |p.entries| - RemovableCount(clean)))
      && (forall e | e in es :: e in clean)
  {
    var clean := Blanked(Reconciled(p.entries, ledger), now);
    if |p.entries| > 8 { CompactedLength(clean, |clean| - 8); }
  }

  /** A spend whose save failed is burned in memory wherever its sequence and
      digest stand, and nowhere else, so that it is not offered again. */
  lemma {:induction false} FailedSpendIsBurned(c: Configs, l: Lease, save: Save)
    requires FinishSpend(c, l, save).1 == Some(SaveFailed)
    ensures
      var after := FinishSpend(c, l, save).0;
      && c.memory.Some? && c.memory.value.pool.Some? && after.memory.Some? && after.memory.value.pool.Some?
      && var es, fs := c.memory.value.pool.value.entries, after.memory.value.pool.value.entries;
         && |fs| == |es| && (save.Failed? ==> after.disk == c.disk)
         && forall i | 0 <= i < |es| ::
              fs[i] == (if es[i].sequence == l.sequence && es[i].digest == l.digest
                        then es[i].(spent := true, json := "") else es[i])
  {}
}
