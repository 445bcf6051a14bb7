/** One-shot control artifacts: the durable create-new ledger and the pool kept
    in the configuration, as values and as the objects that change them. */
module Spending {
  import opened Basics

  const LEDGER_LIMIT: nat := 65_536
  const LEDGER_RETENTION: int := 3600
  const MAX_POOL: nat := 8
  const MAX_JSON: nat := 65_536

  // ------------------------------------------------------------------ ledger

  /** A file of the ledger directory: the tombstone of a digest, or any other. */
  datatype Name = Spent(digest: string) | Foreign(file: string)

  /** A tombstone's record; what is not a well-formed record is never pruned. */
  datatype File = Record(expires: int, retainUntil: int) | Unreadable

  type Ledger = map<Name, File>

  predicate Prunable(name: Name, file: File, now: int) {
    name.Spent? && file.Record? && file.expires < file.retainUntil <= now
  }

  function Pruned(ledger: Ledger, now: int): Ledger {
    map n | n in ledger && !Prunable(n, ledger[n], now) :: ledger[n]
  }

  /** How far a creation gets before something fails: in pruning (which removed
      `gone`), in creating or writing the file, in syncing it, or nowhere. */
  datatype Fate = PruneFails(gone: set<Name>) | CreateFails | WriteFails | SyncFails | Done

  function CreateEntry(ledger: Ledger, digest: string, expires: int, now: int, fate: Fate): (Ledger, bool) {
    if expires <= 0 then (ledger, false)
    else if fate.PruneFails? then (map n | n in ledger && !(n in fate.gone && Prunable(n, ledger[n], now)) ::
        ledger[n], false)
    else
      var kept := Pruned(ledger, now);
      if Spent(digest) in kept || |kept| >= LEDGER_LIMIT || fate.CreateFails? then (kept, false)
      else if fate.WriteFails? then (kept[Spent(digest) := Unreadable], false)
      else (kept[Spent(digest) := Record(expires, expires + LEDGER_RETENTION)], fate.Done?)
  }

  class SpendLedger {
    var files: Ledger

    constructor ()
      ensures files == map[]
    {
      files := map[];
    }

    /** `pruneArtifactSpendLedger`; `gone` is what it removed before a failure. */
    method Prune(now: int, gone: Option<set<Name>>) returns (remaining: nat, removed: nat)
      modifies this
      ensures files == if gone.Some? then map n | n in old(files) &&
              !(n in gone.value && Prunable(n, old(files)[n], now)) :: old(files)[n]
                       else Pruned(old(files), now)
      ensures remaining == |files| && remaining + removed == |old(files)|
    {
      remaining, removed := 0, 0;
      var todo := files.Keys;
      while todo != {}
        invariant todo <= files.Keys <= old(files).Keys
        invariant forall n | n in files :: files[n] == old(files)[n]
        invariant forall n | n in old(files) && n !in todo ::
                    n in files <==> !((gone.Some? ==> n in gone.value) && Prunable(n, old(files)[n], now))
        invariant remaining + |todo| == |files.Keys| && remaining + removed + |todo| == |old(files).Keys|
        decreases |todo|
      {
        var n :| n in todo;
        todo := todo - {n};
        if Prunable(n, files[n], now) && (gone.Some? ==> n in gone.value) {
          Removing(files, n);
          files := files - {n};
          removed := removed + 1;
        } else {
          remaining := remaining + 1;
        }
      }
    }

    method CreateSpendLedgerEntry(digest: string, expires: int, now: int, fate: Fate) returns (ok: bool)
      modifies this
      ensures (files, ok) == CreateEntry(old(files), digest, expires, now, fate)
      ensures Spent(digest) in files && Spent(digest) !in old(files) ==> |files| <= LEDGER_LIMIT
    {
      if expires <= 0 { return false; }
      var remaining, _ := Prune(now, if fate.PruneFails? then Some(fate.gone) else None);
      if fate.PruneFails? { return false; }
      if Spent(digest) in files { return false; }
      if remaining >= LEDGER_LIMIT || fate.CreateFails? { return false; }
      files := files[Spent(digest) := if fate.WriteFails? then Unreadable
          else Record(expires, expires + LEDGER_RETENTION)];
      return fate.Done?;
    }
  }

  lemma {:induction false} Removing(m: Ledger, n: Name)
    requires n in m
    ensures (m - {n}).Keys == m.Keys - {n} && |(m - {n}).Keys| == |m.Keys| - 1
  {}

  // -------------------------------------------------------------------- pool

  datatype Entry = Entry(sequence: nat, json: string, digest: string, channel: string, expires: int, spent: bool,
                         revoked: bool)

  datatype Recovery = Ready | Degraded | Exhausted | Relink

  datatype Pool = Pool(generation: int, waterline: nat, horizon: nat, recovery: Recovery, topUpTerminal: bool,
                       entries: seq<Entry>)

  datatype Config = Config(generation: int, pool: Option<Pool>)

  /** Base64 and SHA-256 of the libraries; nothing is assumed of them. */
  datatype Digests = Digests(sha: string -> string, canonical: string -> bool)

  datatype PoolError = Missing | Mismatch | BadDigest | SaveFailed | RelinkRequired | Empty | AlreadySpent | Changed
      | LedgerRefused

  function Burned(e: Entry): Entry {
    e.(spent := true, json := "")
  }

  function ReconcileEntry(e: Entry, ledger: Ledger): Entry {
    if !e.spent && !e.revoked && Spent(e.digest) in ledger then Burned(e) else e
  }

  function BlankEntry(e: Entry, now: int): Entry {
    if e.spent || e.revoked || e.expires <= now then e.(json := "") else e
  }

  function Reconciled(es: seq<Entry>, ledger: Ledger): seq<Entry> {
    seq(|es|, i requires 0 <= i < |es| => ReconcileEntry(es[i], ledger))
  }

  function Blanked(es: seq<Entry>, now: int): seq<Entry> {
    seq(|es|, i requires 0 <= i < |es| => BlankEntry(es[i], now))
  }

  /** An entry that compaction may drop. */
  predicate Removable(e: Entry) {
    e.spent || e.revoked || e.json == ""
  }

  /** Drops the first `remove` removable entries, as far as there are any. */
  function Compacted(es: seq<Entry>, remove: nat): seq<Entry> {
    if es == [] || remove == 0 then es
    else if Removable(es[0]) then Compacted(es[1..], remove - 1)
    else [es[0]] + Compacted(es[1..], remove)
  }

  function Compact(es: seq<Entry>): seq<Entry> {
    if |es| <= MAX_POOL then es else Compacted(es, |es| - MAX_POOL)
  }

  predicate Usable(e: Entry, now: int, horizon: nat) {
    !e.spent && !e.revoked && e.json != "" && e.expires > now + horizon
  }

  function UsableCount(es: seq<Entry>, now: int, horizon: nat): nat {
    if es == [] then 0
    else (if Usable(es[|es| - 1], now, horizon) then 1 else 0) + UsableCount(es[..|es| - 1], now, horizon)
  }

  /** The pool as `acquireControlArtifactEntry` first puts it in order. */
  function Ordered(p: Pool, ledger: Ledger, now: int): Pool {
    var es := Compact(Blanked(Reconciled(p.entries, ledger), now));
    p.(entries := es, recovery := if UsableCount(es, now, p.horizon) < p.waterline &&
        p.recovery == Ready then Degraded else p.recovery)
  }

  predicate Offerable(e: Entry, now: int, horizon: nat) {
    !e.spent && !e.revoked && e.expires > now + horizon && e.json != "" && |e.json| <= MAX_JSON
  }

  function FirstOffer(es: seq<Entry>, now: int, horizon: nat): Option<Entry> {
    if es == [] then None
    else if Offerable(es[0], now, horizon) then Some(es[0])
    else FirstOffer(es[1..], now, horizon)
  }

  /** Whether a save of the configuration is stored and reported, fails, or is
      stored but reported as failed. */
  datatype Save = Stored | Failed | Lost

  datatype Configs = Configs(memory: Option<Config>, disk: Option<Config>)

  function Saved(c: Configs, next: Config, save: Save): Configs {
    match save
    case Stored => Configs(Some(next), Some(next))
    case Failed => c
    case Lost => c.(disk := Some(next))
  }

  /** The part of an acquisition behind the ordered, stored pool. */
  function Offer(c: Configs, cfg: Config, p: Pool, now: int, save: Save): (Configs, Result<Entry, PoolError>) {
    if p.recovery == Relink || p.topUpTerminal then (c, Err(RelinkRequired))
    else match FirstOffer(p.entries, now, p.horizon)
    case Some(e) => (c, Ok(e))
    case None =>
      if p.recovery == Exhausted then (c, Err(Empty))
      else (Saved(c, cfg.(pool := Some(p.(recovery := Exhausted))), save),
          Err(if save.Stored? then Empty else SaveFailed))
  }

  /** The ordered pool is stored first, if ordering changed anything. */
  function AcquireFrom(c: Configs, cfg: Config, p: Pool, q: Pool, now: int, save: Save, save2: Save): (Configs,
          Result<Entry, PoolError>) {
    if q == p then Offer(c, cfg, p, now, save2)
    else
      var next := cfg.(pool := Some(q));
      if save.Stored? then Offer(Saved(c, next, save), next, q, now, save2) else (Saved(c, next, save), Err(SaveFailed))
  }

  /** `acquireControlArtifactEntry`, with the fates of its one or two saves. */
  function Acquire(d: Digests, c: Configs, rejected: bool, ledger: Ledger, now: int, save: Save,
          save2: Save): (Configs, Result<Entry, PoolError>) {
    if c.memory.None? then (c, Err(Missing))
    else if rejected then (c, Err(RelinkRequired))
    else if c.memory.value.pool.None? then (c, Err(Empty))
    else
      var cfg, p := c.memory.value, c.memory.value.pool.value;
      if p.generation != cfg.generation then (c, Err(Mismatch))
      else if exists e | e in p.entries :: !e.spent && !e.revoked && !d.canonical(e.digest) then (c, Err(BadDigest))
      else AcquireFrom(c, cfg, p, Ordered(p, ledger, now), now, save, save2)
  }

  /** What a lease captured of its entry. */
  datatype Lease = Lease(generation: int, sequence: nat, digest: string, json: string, expires: int)

  predicate Names(l: Lease, e: Entry) {
    e.sequence == l.sequence && e.digest == l.digest && e.expires == l.expires && e.json == l.json
  }

  /** The ledger half of `commitControlArtifactPoolSpend`. */
  function BeginSpend(d: Digests, ledger: Ledger, l: Lease, now: int, fate: Fate): (Ledger, bool) {
    if l.json == "" || |l.json| > MAX_JSON || l.digest == "" || l.digest != d.sha(l.json) then (ledger, false)
    else CreateEntry(ledger, l.digest, l.expires, now, fate)
  }

  function FirstNamed(es: seq<Entry>, l: Lease): nat {
    if es == [] || Names(l, es[0]) then 0 else 1 + FirstNamed(es[1..], l)
  }

  lemma {:induction false} FirstNamedBounds(es: seq<Entry>, l: Lease)
    ensures FirstNamed(es, l) <= |es|
    ensures FirstNamed(es, l) < |es| ==> Names(l, es[FirstNamed(es, l)])
    ensures forall k | 0 <= k < FirstNamed(es, l) :: !Names(l, es[k])
  {
    if es != [] && !Names(l, es[0]) { FirstNamedBounds(es[1..], l); }
  }

  /** After a failed save the memory is burned so that it offers nothing twice. */
  function BurnAll(es: seq<Entry>, l: Lease): seq<Entry> {
    seq(|es|, i requires 0 <= i < |es| => if es[i].sequence == l.sequence &&
        es[i].digest == l.digest then Burned(es[i]) else es[i])
  }

  /** The configuration half of `commitControlArtifactPoolSpend`. */
  function FinishSpend(c: Configs, l: Lease, save: Save): (Configs, Option<PoolError>) {
    if c.memory.None? || c.memory.value.pool.None? || c.memory.value.generation != l.generation then (c, Some(Changed))
    else
      var cfg, p := c.memory.value, c.memory.value.pool.value;
      var i := FirstNamed(p.entries, l);
      FirstNamedBounds(p.entries, l);
      if i == |p.entries| then (c, Some(Changed))
      else if p.entries[i].spent then (c, Some(AlreadySpent))
      else
        var next := cfg.(pool := Some(p.(entries := p.entries[i := Burned(p.entries[i])])));
        if save.Stored? then (Saved(c, next, save), None)
        else (Saved(c, next, save).(memory := Some(cfg.(pool := Some(p.(entries := BurnAll(p.entries, l)))))),
            Some(SaveFailed))
  }

  // --------------------------------------------------------------- the agent

  lemma {:induction false} OneMoreRemains(es: seq<Entry>, i: nat, remove: nat)
    requires i < |es|
    ensures remove > 0 && Removable(es[i]) ==> Compacted(es[i..], remove) == Compacted(es[i + 1..], remove - 1)
    ensures !(remove > 0 && Removable(es[i])) ==> Compacted(es[i..], remove) == [es[i]] + Compacted(es[i + 1..], remove)
  {
    assert es[i..][1..] == es[i + 1..];
    if remove == 0 { assert es[i..] == [es[i]] + es[i + 1..]; }
  }

  lemma {:induction false} Extended(out: seq<Entry>, e: Entry, rest: seq<Entry>)
    ensures out + ([e] + rest) == (out + [e]) + rest
  {}

  /** The part of `Agent` that holds the pool; `disk` is the stored file. */
  class ArtifactPool {
    const digests: Digests
    const ledger: SpendLedger
    var memory: Option<Config>
    var disk: Option<Config>
    var rejected: bool

    constructor (digests: Digests, ledger: SpendLedger, disk: Option<Config>)
      ensures View() == Configs(disk, disk) && this.digests == digests && this.ledger == ledger
    {
      this.digests, this.ledger := digests, ledger;
      memory, this.disk, rejected := disk, disk, false;
    }

    function View(): Configs
      reads this
    {
      Configs(memory, disk)
    }

    method SaveConnection(next: Config, save: Save) returns (ok: bool)
      modifies `memory, `disk
      ensures View() == Saved(old(View()), next, save) && ok == save.Stored?
    {
      if save.Failed? { return false; }
      disk := Some(next);
      if save.Lost? { return false; }
      memory := Some(next);
      return true;
    }

    method Reconcile(es: seq<Entry>) returns (out: Option<seq<Entry>>)
      ensures out.None? <==> exists e | e in es :: !e.spent && !e.revoked && !digests.canonical(e.digest)
      ensures out.Some? ==> out.value == Reconciled(es, ledger.files)
    {
      var r := es;
      for i := 0 to |es|
        invariant |r| == |es|
        invariant forall k | 0 <= k < i :: r[k] == ReconcileEntry(es[k], ledger.files)
        invariant forall k | i <= k < |es| :: r[k] == es[k]
        invariant forall k | 0 <= k < i :: es[k].spent || es[k].revoked || digests.canonical(es[k].digest)
      {
        if r[i].spent || r[i].revoked { continue; }
        if !digests.canonical(r[i].digest) {
          assert es[i] in es;
          return None;
        }
        if Spent(r[i].digest) in ledger.files { r := r[i := Burned(r[i])]; }
      }
      assert r == Reconciled(es, ledger.files);
      return Some(r);
    }

    method BlankEntries(es: seq<Entry>, now: int) returns (blank: seq<Entry>)
      ensures blank == Blanked(es, now)
    {
      blank := es;
      for i := 0 to |es|
        invariant |blank| == |es|
        invariant forall k | 0 <= k < i :: blank[k] == BlankEntry(es[k], now)
        invariant forall k | i <= k < |es| :: blank[k] == es[k]
      {
        if (blank[i].spent || blank[i].revoked || blank[i].expires <= now) && blank[i].json != "" {
          blank := blank[i := blank[i].(json := "")];
        }
      }
      assert blank == Blanked(es, now);
    }

    method CompactEntries(es: seq<Entry>) returns (out: seq<Entry>)
      ensures out == Compact(es)
    {
      if |es| <= MAX_POOL { return es; }
      var remove := |es| - MAX_POOL;
      ghost var all := Compacted(es, remove);
      out := [];
      var i := 0;
      assert es[0..] == es;
      while i < |es|
        invariant 0 <= remove && i <= |es|
        invariant out + Compacted(es[i..], remove) == all
      {
        OneMoreRemains(es, i, remove);
        if remove > 0 && Removable(es[i]) {
          remove := remove - 1;
        } else {
          Extended(out, es[i], Compacted(es[i + 1..], remove));
          out := out + [es[i]];
        }
        i := i + 1;
      }
    }

    method CountUsable(es: seq<Entry>, now: int, horizon: nat) returns (n: nat)
      ensures n == UsableCount(es, now, horizon)
    {
      n := 0;
      for i := 0 to |es|
        invariant n == UsableCount(es[..i], now, horizon)
      {
        assert es[..i + 1][..i] == es[..i];
        if Usable(es[i], now, horizon) { n := n + 1; }
      }
      assert es[..|es|] == es;
    }

    method FindOffer(es: seq<Entry>, now: int, horizon: nat) returns (e: Option<Entry>)
      ensures e == FirstOffer(es, now, horizon)
    {
      for i := 0 to |es|
        invariant FirstOffer(es, now, horizon) == FirstOffer(es[i..], now, horizon)
      {
        if Offerable(es[i], now, horizon) { return Some(es[i]); }
      }
      return None;
    }

    method PutInOrder(p: Pool, now: int) returns (q: Option<Pool>)
      ensures q.None? <==> exists e | e in p.entries :: !e.spent && !e.revoked && !digests.canonical(e.digest)
      ensures q.Some? ==> q.value == Ordered(p, ledger.files, now)
    {
      var reconciled := Reconcile(p.entries);
      if reconciled.None? { return None; }
      var blank := BlankEntries(reconciled.value, now);
      var es := CompactEntries(blank);
      var usable := CountUsable(es, now, p.horizon);
      var recovery := p.recovery;
      if usable < p.waterline && recovery == Ready { recovery := Degraded; }
      return Some(p.(entries := es, recovery := recovery));
    }

    method AcquireControlArtifactEntry(now: int, save: Save, save2: Save) returns (r: Result<Entry, PoolError>)
      modifies `memory, `disk
      ensures (View(), r) == Acquire(digests, old(View()), rejected, ledger.files, now, save, save2)
    {
      if memory.None? { return Err(Missing); }
      if rejected { return Err(RelinkRequired); }
      if memory.value.pool.None? { return Err(Empty); }
      var cfg, p := memory.value, memory.value.pool.value;
      if p.generation != cfg.generation { return Err(Mismatch); }
      var ordered := PutInOrder(p, now);
      if ordered.None? { return Err(BadDigest); }
      if ordered.value != p {
        var ok := SaveConnection(cfg.(pool := ordered), save);
        if !ok { return Err(SaveFailed); }
        p := ordered.value;
      }
      if p.recovery == Relink || p.topUpTerminal { return Err(RelinkRequired); }
      var e := FindOffer(p.entries, now, p.horizon);
      if e.Some? { return Ok(e.value); }
      if p.recovery != Exhausted {
        var ok := SaveConnection(memory.value.(pool := Some(p.(recovery := Exhausted))), save2);
        if !ok { return Err(SaveFailed); }
      }
      return Err(Empty);
    }

    /** The first section of `commitControlArtifactPoolSpend`, under the ledger's
        own lock. */
    method CommitSpendLedger(l: Lease, now: int, fate: Fate) returns (ok: bool)
      modifies ledger
      ensures (ledger.files, ok) == BeginSpend(digests, old(ledger.files), l, now, fate)
    {
      if l.json == "" || |l.json| > MAX_JSON { return false; }
      if l.digest == "" || l.digest != digests.sha(l.json) { return false; }
      ok := ledger.CreateSpendLedgerEntry(l.digest, l.expires, now, fate);
    }

    method BurnInMemory(l: Lease)
      requires memory.Some? && memory.value.pool.Some?
      modifies `memory
      ensures var cfg := old(memory).value;
              memory == Some(cfg.(pool := Some(cfg.pool.value.(entries := BurnAll(cfg.pool.value.entries, l)))))
    {
      var cfg, p := memory.value, memory.value.pool.value;
      var es := p.entries;
      for i := 0 to |es|
        invariant |es| == |p.entries|
        invariant forall k | 0 <= k < i ::
                    es[k] == if p.entries[k].sequence == l.sequence && p.entries[k].digest == l.digest
                        then Burned(p.entries[k]) else p.entries[k]
        invariant forall k | i <= k < |es| :: es[k] == p.entries[k]
      {
        if es[i].sequence == l.sequence && es[i].digest == l.digest { es := es[i := Burned(es[i])]; }
      }
      assert es == BurnAll(p.entries, l);
      memory := Some(cfg.(pool := Some(p.(entries := es))));
    }

    method FindNamed(es: seq<Entry>, l: Lease) returns (i: nat)
      ensures i == FirstNamed(es, l)
    {
      i := 0;
      while i < |es|
        invariant i <= |es| && FirstNamed(es, l) == i + FirstNamed(es[i..], l)
      {
        if Names(l, es[i]) { return; }
        i := i + 1;
      }
    }

    /** The second section, under the agent's lock. */
    method CommitSpendConfig(l: Lease, save: Save) returns (failure: Option<PoolError>)
      modifies `memory, `disk
      ensures (View(), failure) == FinishSpend(old(View()), l, save)
    {
      if memory.None? || memory.value.pool.None? || memory.value.generation != l.generation { return Some(Changed); }
      var cfg, p := memory.value, memory.value.pool.value;
      var i := FindNamed(p.entries, l);
      FirstNamedBounds(p.entries, l);
      if i == |p.entries| { return Some(Changed); }
      if p.entries[i].spent { return Some(AlreadySpent); }
      var ok := SaveConnection(cfg.(pool := Some(p.(entries := p.entries[i := Burned(p.entries[i])]))), save);
      if !ok {
        BurnInMemory(l);
        return Some(SaveFailed);
      }
      return None;
    }
  }
}
