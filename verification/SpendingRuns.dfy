/** One-shot spending over whole runs: crashes, failed saves, duplicate leases,
    pruning, data-plane spends and other writers of the configuration. */
module SpendingRuns {
  import opened Basics
  import opened Spending

  datatype Key = Key(sequence: nat, digest: string)

  /** The agent's state with its history: durably spent digests with their
      expiry, committed entries, every entry the pool ever held, and the latest
      clock reading. */
  datatype World = World(c: Configs, ledger: Ledger, leases: set<Lease>, begun: set<Lease>,
                         burned: map<string, int>, committed: seq<Key>, seen: set<Key>, clock: int)

  datatype Step =
    | Acquiring(now: int, rejected: bool, save: Save, save2: Save)
    | Beginning(lease: Lease, now: int, fate: Fate)
    | Finishing(lease: Lease, save: Save)
    | DataSpend(digest: string, expires: int, now: int, fate: Fate)
    | OtherWriter(c: Configs)
    | Crash(files: Ledger)

  function KeyOf(e: Entry): Key {
    Key(e.sequence, e.digest)
  }

  function EntriesOf(c: Option<Config>): seq<Entry> {
    if c.Some? && c.value.pool.Some? then c.value.pool.value.entries else []
  }

  ghost predicate Distinct(es: seq<Entry>) {
    forall i, j | 0 <= i < j < |es| :: KeyOf(es[i]) != KeyOf(es[j])
  }

  /** The expiry of an artifact is part of its bytes, so of its digest. */
  type Expiry = string -> int

  predicate Unspent(es: seq<Entry>, k: Key) {
    exists e | e in es :: KeyOf(e) == k && !e.spent
  }

  /** What another writer may put in the place of the configuration: it never
      un-spends an entry and never delivers one that was there before. */
  ghost predicate Delivered(w: World, expiry: Expiry, es: seq<Entry>) {
    && Distinct(es)
    && forall e | e in es :: e.expires == expiry(e.digest) &&
         (!e.spent ==>
             KeyOf(e) !in w.seen || Unspent(EntriesOf(w.c.memory), KeyOf(e)) ||
             Unspent(EntriesOf(w.c.disk), KeyOf(e)))
  }

  ghost predicate Allowed(w: World, expiry: Expiry, s: Step) {
    match s
    case Acquiring(now, _, _, _) => w.clock <= now
    case Beginning(l, now, _) => w.clock <= now && l in w.leases
    case Finishing(l, _) => l in w.begun
    case DataSpend(digest, expires, now, _) => w.clock <= now && expires == expiry(digest)
    case OtherWriter(c) => Delivered(w, expiry, EntriesOf(c.memory)) && Delivered(w, expiry, EntriesOf(c.disk))
    case Crash(files) => forall d | d in w.burned && Spent(d) in w.ledger ::
        Spent(d) in files &&
        files[Spent(d)] == w.ledger[Spent(d)]
  }

  function LeaseOf(e: Entry, generation: int): Lease {
    Lease(generation, e.sequence, e.digest, e.json, e.expires)
  }

  function KeysOf(c: Configs): set<Key> {
    (set e | e in EntriesOf(c.memory) :: KeyOf(e)) + (set e | e in EntriesOf(c.disk) :: KeyOf(e))
  }

  function After(d: Digests, w: World, s: Step): World {
    match s
    case Acquiring(now, rejected, save, save2) =>
      var r := Acquire(d, w.c, rejected, w.ledger, now, save, save2);
      w.(c := r.0, leases := if r.1.Ok? && r.0.memory.Some? then w.leases +
          {LeaseOf(r.1.value, r.0.memory.value.generation)} else w.leases, clock := now)
    case Beginning(l, now, fate) =>
      var r := BeginSpend(d, w.ledger, l, now, fate);
      w.(ledger := r.0, begun := if r.1 then w.begun + {l} else w.begun, burned := if r.1
          then w.burned[l.digest := l.expires] else w.burned, clock := now)
    case Finishing(l, save) =>
      var r := FinishSpend(w.c, l, save);
      w.(c := r.0, committed := if r.1.None? then w.committed + [Key(l.sequence, l.digest)] else w.committed)
    case DataSpend(digest, expires, now, fate) =>
      var r := CreateEntry(w.ledger, digest, expires, now, fate);
      w.(ledger := r.0, burned := if r.1 then w.burned[digest := expires] else w.burned, clock := now)
    case OtherWriter(c) => w.(c := c, seen := w.seen + KeysOf(c))
    case Crash(files) => w.(c := w.c.(memory := w.c.disk), ledger := files, leases := {}, begun := {})
  }

  // -------------------------------------------------------------- invariant

  predicate EntryOk(w: World, expiry: Expiry, e: Entry) {
    KeyOf(e) in w.seen && e.expires == expiry(e.digest) && (KeyOf(e) in w.committed ==> e.spent)
  }

  ghost predicate PoolOk(w: World, expiry: Expiry, es: seq<Entry>) {
    Distinct(es) && forall e | e in es :: EntryOk(w, expiry, e)
  }

  ghost predicate ConfigsOk(w: World, expiry: Expiry, c: Configs) {
    PoolOk(w, expiry, EntriesOf(c.memory)) && PoolOk(w, expiry, EntriesOf(c.disk))
  }

  predicate TombstoneOk(w: World, expiry: Expiry, d: string) {
    d in w.burned ==>
      w.burned[d] == expiry(d) &&
      (w.clock >= expiry(d) + LEDGER_RETENTION ||
       (Spent(d) in w.ledger && w.ledger[Spent(d)] == Record(expiry(d), expiry(d) + LEDGER_RETENTION)))
  }

  ghost predicate Inv(w: World, expiry: Expiry) {
    && ConfigsOk(w, expiry, w.c)
    && (forall l | l in w.leases || l in w.begun :: l.expires == expiry(l.digest))
    && (forall d :: TombstoneOk(w, expiry, d))
    && (forall i, j | 0 <= i < j < |w.committed| :: w.committed[i] != w.committed[j])
    && (forall k | k in w.committed :: k in w.seen)
  }

  // ------------------------------------------------------------------ proofs

  /** Every entry of `fs` is one of `es`, kept or burned. */
  predicate Comes(f: Entry, es: seq<Entry>) {
    exists e | e in es :: KeyOf(e) == KeyOf(f) && e.expires == f.expires && (e.spent ==> f.spent)
  }

  ghost predicate Shrinks(es: seq<Entry>, fs: seq<Entry>) {
    (Distinct(es) ==> Distinct(fs)) && forall f | f in fs :: Comes(f, es)
  }

  lemma {:induction false} ShrinkKeeps(w: World, expiry: Expiry, es: seq<Entry>, fs: seq<Entry>)
    requires PoolOk(w, expiry, es) && Shrinks(es, fs)
    ensures PoolOk(w, expiry, fs)
  {
    forall f | f in fs ensures EntryOk(w, expiry, f) { assert Comes(f, es); }
  }

  lemma {:induction false} Pointwise(es: seq<Entry>, fs: seq<Entry>)
    requires |fs| == |es|
    requires forall i | 0 <= i < |es| ::
             KeyOf(fs[i]) == KeyOf(es[i]) && fs[i].expires == es[i].expires &&
             (es[i].spent ==> fs[i].spent)
    ensures Shrinks(es, fs)
  {
    forall f | f in fs ensures Comes(f, es) {
      var i :| 0 <= i < |fs| && fs[i] == f;
      assert es[i] in es;
    }
  }

  lemma {:induction false} CompactedShrinks(es: seq<Entry>, remove: nat)
    ensures Shrinks(es, Compacted(es, remove)) && forall f | f in Compacted(es, remove) :: f in es
  {
    if es != [] && remove > 0 {
      var rest := Compacted(es[1..], if Removable(es[0]) then remove - 1 else remove);
      CompactedShrinks(es[1..], if Removable(es[0]) then remove - 1 else remove);
      var all := Compacted(es, remove);
      assert forall f | f in all :: f in es;
      if Distinct(es) {
        assert Distinct(es[1..]) by {
          forall i, j | 0 <= i < j < |es[1..]| ensures KeyOf(es[1..][i]) != KeyOf(es[1..][j]) {
            assert KeyOf(es[i + 1]) != KeyOf(es[j + 1]);
          }
        }
        forall f | f in rest ensures KeyOf(f) != KeyOf(es[0]) {
          var j :| 0 <= j < |es[1..]| && es[1..][j] == f;
          assert KeyOf(es[0]) != KeyOf(es[j + 1]);
        }
      }
    }
  }

  lemma {:induction false} ShrinksTwice(es: seq<Entry>, fs: seq<Entry>, gs: seq<Entry>)
    requires Shrinks(es, fs) && Shrinks(fs, gs)
    ensures Shrinks(es, gs)
  {
    forall g | g in gs ensures Comes(g, es) {
      assert Comes(g, fs);
      var f :| f in fs && KeyOf(f) == KeyOf(g) && f.expires == g.expires && (f.spent ==> g.spent);
      assert Comes(f, es);
    }
  }

  lemma {:induction false} OrderedShrinks(p: Pool, ledger: Ledger, now: int)
    ensures Shrinks(p.entries, Ordered(p, ledger, now).entries)
  {
    var clean := Blanked(Reconciled(p.entries, ledger), now);
    Pointwise(p.entries, clean);
    CompactedShrinks(clean, if |clean| <= MAX_POOL then 0 else |clean| - MAX_POOL);
    ShrinksTwice(p.entries, clean, Compact(clean));
  }

  /** A save moves the configuration to a shrunk pool. */
  lemma {:induction false} SaveKeeps(w: World, expiry: Expiry, c: Configs, next: Config, save: Save)
    requires ConfigsOk(w, expiry, c) && PoolOk(w, expiry, EntriesOf(Some(next)))
    ensures ConfigsOk(w, expiry, Saved(c, next, save))
  {}

  lemma {:induction false} OfferKeeps(w: World, expiry: Expiry, c: Configs, cfg: Config, p: Pool, now: int, save: Save)
    requires ConfigsOk(w, expiry, c) && PoolOk(w, expiry, p.entries)
    ensures ConfigsOk(w, expiry, Offer(c, cfg, p, now, save).0)
  {
    SaveKeeps(w, expiry, c, cfg.(pool := Some(p.(recovery := Exhausted))), save);
  }

  lemma {:induction false} AcquireFromKeeps(w: World, expiry: Expiry, c: Configs, cfg: Config, p: Pool, q: Pool,
          now: int, save: Save,
          save2: Save)
    requires ConfigsOk(w, expiry, c) && PoolOk(w, expiry, p.entries) && PoolOk(w, expiry, q.entries)
    ensures ConfigsOk(w, expiry, AcquireFrom(c, cfg, p, q, now, save, save2).0)
  {
    var next := cfg.(pool := Some(q));
    SaveKeeps(w, expiry, c, next, save);
    OfferKeeps(w, expiry, c, cfg, p, now, save2);
    OfferKeeps(w, expiry, Saved(c, next, save), next, q, now, save2);
  }

  lemma {:induction false} AcquireKeeps(d: Digests, w: World, expiry: Expiry, rejected: bool, now: int, save: Save,
          save2: Save)
    requires ConfigsOk(w, expiry, w.c)
    ensures ConfigsOk(w, expiry, Acquire(d, w.c, rejected, w.ledger, now, save, save2).0)
  {
    if w.c.memory.Some? && w.c.memory.value.pool.Some? {
      var cfg, p := w.c.memory.value, w.c.memory.value.pool.value;
      OrderedShrinks(p, w.ledger, now);
      ShrinkKeeps(w, expiry, p.entries, Ordered(p, w.ledger, now).entries);
      AcquireFromKeeps(w, expiry, w.c, cfg, p, Ordered(p, w.ledger, now), now, save, save2);
    }
  }

  lemma {:induction false} OfferIsThere(es: seq<Entry>, now: int, horizon: nat)
    ensures FirstOffer(es, now, horizon).Some? ==>
            FirstOffer(es, now, horizon).value in es &&
            Offerable(FirstOffer(es, now, horizon).value, now, horizon)
  {
    if es != [] && !Offerable(es[0], now, horizon) { OfferIsThere(es[1..], now, horizon); }
  }

  lemma {:induction false} CleanIsFree(es: seq<Entry>, ledger: Ledger, now: int, e: Entry)
    requires e in Blanked(Reconciled(es, ledger), now) && !e.spent && !e.revoked
    ensures Spent(e.digest) !in ledger
  {
    var i :| 0 <= i < |es| && Blanked(Reconciled(es, ledger), now)[i] == e;
    assert e == BlankEntry(ReconcileEntry(es[i], ledger), now);
  }

  lemma {:induction false} CompactIsPart(es: seq<Entry>, e: Entry)
    requires e in Compact(es)
    ensures e in es
  {
    if |es| > MAX_POOL { CompactedShrinks(es, |es| - MAX_POOL); }
  }

  lemma {:induction false} OrderedIsClean(p: Pool, ledger: Ledger, now: int, e: Entry)
    requires e in Ordered(p, ledger, now).entries && !e.spent && !e.revoked
    ensures Spent(e.digest) !in ledger
  {
    CompactIsPart(Blanked(Reconciled(p.entries, ledger), now), e);
    CleanIsFree(p.entries, ledger, now, e);
  }

  lemma {:induction false} FromIsThere(c: Configs, cfg: Config, p: Pool, q: Pool, now: int, save: Save, save2: Save)
    requires c.memory == Some(cfg) && cfg.pool == Some(p)
    ensures var r := AcquireFrom(c, cfg, p, q, now, save, save2);
            r.1.Ok? ==>
                r.0.memory.Some? && EntriesOf(r.0.memory) == q.entries && r.1.value in q.entries &&
                Offerable(r.1.value, now, q.horizon)
  {
    OfferIsThere(q.entries, now, q.horizon);
  }

  /** What an acquisition returns is unspent, live and without a tombstone. */
  lemma {:induction false} AcquiredIsFree(d: Digests, c: Configs, rejected: bool, ledger: Ledger, now: int,
          save: Save, save2: Save)
    ensures var r := Acquire(d, c, rejected, ledger, now, save, save2);
            r.1.Ok? ==> r.0.memory.Some? && r.1.value in EntriesOf(r.0.memory) && !r.1.value.spent &&
                        r.1.value.expires > now && Spent(r.1.value.digest) !in ledger
  {
    var r := Acquire(d, c, rejected, ledger, now, save, save2);
    if r.1.Ok? {
      var cfg, p := c.memory.value, c.memory.value.pool.value;
      FromIsThere(c, cfg, p, Ordered(p, ledger, now), now, save, save2);
      OrderedIsClean(p, ledger, now, r.1.value);
    }
  }

  lemma {:induction false} FinishKeeps(w: World, expiry: Expiry, l: Lease, save: Save)
    requires ConfigsOk(w, expiry, w.c)
    ensures var r := FinishSpend(w.c, l, save);
            && ConfigsOk(w, expiry, r.0)
            && (r.1.None? ==>
                  && Key(l.sequence, l.digest) !in w.committed && Key(l.sequence, l.digest) in w.seen
                  && ConfigsOk(w.(committed := w.committed + [Key(l.sequence, l.digest)]), expiry, r.0))
  {
    if w.c.memory.Some? && w.c.memory.value.pool.Some? {
      var cfg, p := w.c.memory.value, w.c.memory.value.pool.value;
      var i := FirstNamed(p.entries, l);
      FirstNamedBounds(p.entries, l);
      if i < |p.entries| {
        var es := p.entries[i := Burned(p.entries[i])];
        Pointwise(p.entries, es);
        ShrinkKeeps(w, expiry, p.entries, es);
        Pointwise(p.entries, BurnAll(p.entries, l));
        ShrinkKeeps(w, expiry, p.entries, BurnAll(p.entries, l));
        assert p.entries[i] in p.entries;
        SpendMarks(w, expiry, p.entries, i);
      }
    }
  }

  /** The entry found is the only one with its key, so burning it is enough. */
  lemma {:induction false} SpendMarks(w: World, expiry: Expiry, es: seq<Entry>, i: nat)
    requires PoolOk(w, expiry, es) && i < |es|
    ensures PoolOk(w.(committed := w.committed + [KeyOf(es[i])]), expiry, es[i := Burned(es[i])])
  {
    var v, fs := w.(committed := w.committed + [KeyOf(es[i])]), es[i := Burned(es[i])];
    Pointwise(es, fs);
    forall f | f in fs ensures EntryOk(v, expiry, f) {
      var j :| 0 <= j < |fs| && fs[j] == f;
      assert es[j] in es && EntryOk(w, expiry, es[j]);
      if j != i { assert KeyOf(es[j]) != KeyOf(es[i]); }
    }
  }

  lemma {:induction false} CreateKeeps(w: World, expiry: Expiry, digest: string, expires: int, now: int, fate: Fate,
          d: string)
    requires TombstoneOk(w, expiry, d) && w.clock <= now && expires == expiry(digest)
    ensures var r := CreateEntry(w.ledger, digest, expires, now, fate);
            TombstoneOk(w.(ledger := r.0, burned := if r.1 then w.burned[digest := expires] else w.burned,
                clock := now), expiry, d)
  {}

  lemma {:induction false} StepKeeps(d: Digests, w: World, expiry: Expiry, s: Step)
    requires Inv(w, expiry) && Allowed(w, expiry, s)
    ensures Inv(After(d, w, s), expiry)
  {
    match s
    case Acquiring(now, rejected, save, save2) =>
      AcquireKeeps(d, w, expiry, rejected, now, save, save2);
      AcquiredIsFree(d, w.c, rejected, w.ledger, now, save, save2);
      forall e ensures TombstoneOk(After(d, w, s), expiry, e) { assert TombstoneOk(w, expiry, e); }
    case Beginning(l, now, fate) =>
      forall e ensures TombstoneOk(After(d, w, s), expiry, e) {
        CreateKeeps(w, expiry, l.digest, l.expires, now, fate, e);
      }
    case Finishing(l, save) =>
      FinishKeeps(w, expiry, l, save);
      forall e ensures TombstoneOk(After(d, w, s), expiry, e) { assert TombstoneOk(w, expiry, e); }
    case DataSpend(digest, expires, now, fate) =>
      forall e ensures TombstoneOk(After(d, w, s), expiry, e) { CreateKeeps(w, expiry, digest, expires, now, fate, e); }
    case OtherWriter(c) => WriterKeeps(d, w, expiry, c);
    case Crash(_) =>
      forall e ensures TombstoneOk(After(d, w, s), expiry, e) { assert TombstoneOk(w, expiry, e); }
  }

  lemma {:induction false} CommittedIsSpent(w: World, expiry: Expiry, es: seq<Entry>, k: Key)
    requires PoolOk(w, expiry, es) && k in w.committed
    ensures !Unspent(es, k)
  {
    assert forall e | e in es :: EntryOk(w, expiry, e);
  }

  lemma {:induction false} DeliveredKeeps(w: World, v: World, expiry: Expiry, es: seq<Entry>)
    requires ConfigsOk(w, expiry, w.c) && Delivered(w, expiry, es) && (forall k | k in w.committed :: k in w.seen)
    requires v.committed == w.committed && (forall e | e in es :: KeyOf(e) in v.seen)
    ensures PoolOk(v, expiry, es)
  {
    forall e | e in es ensures EntryOk(v, expiry, e) {
      if KeyOf(e) in w.committed {
        CommittedIsSpent(w, expiry, EntriesOf(w.c.memory), KeyOf(e));
        CommittedIsSpent(w, expiry, EntriesOf(w.c.disk), KeyOf(e));
      }
    }
  }

  lemma {:induction false} WriterKeeps(d: Digests, w: World, expiry: Expiry, c: Configs)
    requires Inv(w, expiry) && Allowed(w, expiry, OtherWriter(c))
    ensures Inv(After(d, w, OtherWriter(c)), expiry)
  {
    var v := After(d, w, OtherWriter(c));
    forall e | e in EntriesOf(c.memory) || e in EntriesOf(c.disk) ensures KeyOf(e) in v.seen {
      assert KeyOf(e) in KeysOf(c);
    }
    DeliveredKeeps(w, v, expiry, EntriesOf(c.memory));
    DeliveredKeeps(w, v, expiry, EntriesOf(c.disk));
    forall e ensures TombstoneOk(v, expiry, e) { assert TombstoneOk(w, expiry, e); }
  }

  ghost predicate AllowedRun(d: Digests, w: World, expiry: Expiry, steps: seq<Step>)
    decreases steps
  {
    steps == [] || (Allowed(w, expiry, steps[0]) && AllowedRun(d, After(d, w, steps[0]), expiry, steps[1..]))
  }

  function Run(d: Digests, w: World, steps: seq<Step>): World
    decreases steps
  {
    if steps == [] then w else Run(d, After(d, w, steps[0]), steps[1..])
  }

  lemma {:induction false} RunKeeps(d: Digests, w: World, expiry: Expiry, steps: seq<Step>)
    requires Inv(w, expiry) && AllowedRun(d, w, expiry, steps)
    ensures Inv(Run(d, w, steps), expiry)
    decreases steps
  {
    if steps != [] {
      StepKeeps(d, w, expiry, steps[0]);
      RunKeeps(d, After(d, w, steps[0]), expiry, steps[1..]);
    }
  }

  /** An installation that has not spent anything yet. */
  function Start(clock: int): World {
    World(Configs(None, None), map[], {}, {}, map[], [], {}, clock)
  }

  /** At most once: in no run is the spend of one pool entry committed twice. */
  lemma {:induction false} SpentAtMostOnce(d: Digests, expiry: Expiry, clock: int, steps: seq<Step>, i: nat, j: nat)
    requires AllowedRun(d, Start(clock), expiry, steps)
    requires i < j < |Run(d, Start(clock), steps).committed|
    ensures Run(d, Start(clock), steps).committed[i] != Run(d, Start(clock), steps).committed[j]
  {
    RunKeeps(d, Start(clock), expiry, steps);
  }

  /** No tombstone of an artifact goes before its retention has passed. */
  lemma {:induction false} TombstonesStay(d: Digests, expiry: Expiry, clock: int, steps: seq<Step>, digest: string)
    requires AllowedRun(d, Start(clock), expiry, steps)
    requires digest in Run(d, Start(clock), steps).burned && Run(d, Start(clock), steps).clock < expiry(digest) +
             LEDGER_RETENTION
    ensures Spent(digest) in Run(d, Start(clock), steps).ledger
  {
    RunKeeps(d, Start(clock), expiry, steps);
    assert TombstoneOk(Run(d, Start(clock), steps), expiry, digest);
  }

  /** The ledger alone makes an artifact one-shot, for pool and data-plane
      spends alike: once a creation has succeeded for a digest, none succeeds
      again before its expiry and retention have passed, whatever the crashes,
      the prunings and the fate of the operations in between. */
  lemma {:induction false} SpendsOncePerArtifact(d: Digests, expiry: Expiry, clock: int, steps: seq<Step>,
          digest: string,
                                                 expires: int, now: int, fate: Fate)
    requires AllowedRun(d, Start(clock), expiry, steps)
    requires digest in Run(d, Start(clock), steps).burned &&
             Run(d, Start(clock), steps).clock <= now < expiry(digest) + LEDGER_RETENTION
    ensures !CreateEntry(Run(d, Start(clock), steps).ledger, digest, expires, now, fate).1
  {
    RunKeeps(d, Start(clock), expiry, steps);
    assert TombstoneOk(Run(d, Start(clock), steps), expiry, digest);
  }

  /** An acquisition never returns an entry with a tombstone, nor one that was
      ever durably spent or committed, whatever happened in between. */
  lemma {:induction false} AcquiredWasNeverSpent(d: Digests, expiry: Expiry, clock: int, steps: seq<Step>, now: int,
          rejected: bool,
          save: Save, save2: Save)
    requires AllowedRun(d, Start(clock), expiry, steps) && Run(d, Start(clock), steps).clock <= now
    ensures
      var w := Run(d, Start(clock), steps);
      var r := Acquire(d, w.c, rejected, w.ledger, now, save, save2).1;
      r.Ok? ==>
          Spent(r.value.digest) !in w.ledger && r.value.digest !in w.burned && KeyOf(r.value) !in w.committed &&
          r.value.expires > now
  {
    RunKeeps(d, Start(clock), expiry, steps);
    var w := Run(d, Start(clock), steps);
    var r := Acquire(d, w.c, rejected, w.ledger, now, save, save2);
    if r.1.Ok? {
      AcquireKeeps(d, w, expiry, rejected, now, save, save2);
      AcquiredIsFree(d, w.c, rejected, w.ledger, now, save, save2);
      assert EntryOk(w, expiry, r.1.value);
      assert TombstoneOk(w, expiry, r.1.value.digest);
    }
  }

  // ------------------------------------------------------------------ limits

  lemma {:induction false} Fewer(a: Ledger, b: Ledger)
    requires a.Keys <= b.Keys
    ensures |a| <= |b|
  {
    var more := b.Keys - a.Keys;
    assert b.Keys == a.Keys + more;
  }

  lemma {:induction false} OneMore(ledger: Ledger, n: Name, file: File)
    ensures |ledger[n := file]| <= |ledger| + 1
  {
    assert ledger[n := file].Keys == ledger.Keys + {n};
  }

  /** A spend never takes the ledger above its limit. */
  lemma {:induction false} LedgerStaysBounded(ledger: Ledger, digest: string, expires: int, now: int, fate: Fate)
    ensures |CreateEntry(ledger, digest, expires, now, fate).0| <= if |ledger| > LEDGER_LIMIT then |ledger|
            else LEDGER_LIMIT
  {
    var kept := Pruned(ledger, now);
    if fate.PruneFails? {
      Fewer(CreateEntry(ledger, digest, expires, now, fate).0, ledger);
    } else {
      Fewer(kept, ledger);
      OneMore(kept, Spent(digest), Unreadable);
      OneMore(kept, Spent(digest), Record(expires, expires + LEDGER_RETENTION));
    }
  }

  /** Compaction drops terminal entries only, and as many as it was asked to
      while there are any. */
  lemma {:induction false} CompactionKeepsUsable(es: seq<Entry>, remove: nat, e: Entry)
    requires e in es && !Removable(e)
    ensures e in Compacted(es, remove)
  {
    if es != [] && remove > 0 && e != es[0] {
      CompactionKeepsUsable(es[1..], if Removable(es[0]) then remove - 1 else remove, e);
    }
  }
}
