/** Cloud closure: fence new grants, drain the sessions of the closed binding,
    queue a receipt; and the admission of data sessions with their leases. */
module Closure {
  import opened Basics

  const MAX_RECEIPTS: nat := 4096

  /** The public id and the generation of a cloud binding. */
  datatype Fence = Fence(id: string, generation: int)

  datatype Notice = Notice(closure: string, runtime: string, fence: Fence)

  datatype Receipt = Receipt(closure: string, fence: Fence)

  /** `owner` stands for everything `sameCloudRouteOwner` compares. */
  datatype Association = Association(owner: string, runtime: string, enabled: bool, approved: bool,
                                     binding: Option<Fence>, outbox: seq<Receipt>)

  datatype Config = Config(environment: string, generation: int, association: Option<Association>, pooled: bool)

  datatype Session = Session(digest: string, expires: int, fence: Option<Fence>, lease: nat)

  datatype Agent = Agent(cfg: Config, rejected: bool, stopping: bool, sessions: map<string, Session>,
                         released: seq<nat>)

  datatype Grant = Grant(channel: string, digest: string, expires: int)

  predicate SameOwner(left: Config, right: Config) {
    left.association.Some? && right.association.Some? && right.association.value.enabled &&
        left.association.value.owner == right.association.value.owner
  }

  predicate ValidFence(f: Fence) {
    f.id != "" && f.generation >= 1
  }

  /** `cloudBinding`, when it is valid. */
  function FenceOf(cfg: Config): Option<Fence> {
    if cfg.association.Some? && cfg.association.value.binding.Some? && ValidFence(cfg.association.value.binding.value)
    then cfg.association.value.binding else None
  }

  // --------------------------------------------------------------- admission

  predicate Admissible(a: Agent, cfg: Config) {
    && !a.stopping && !a.rejected
    && (cfg.association.Some? ==> SameOwner(cfg, a.cfg) && a.cfg.association.value.approved)
    && a.cfg.environment == cfg.environment && a.cfg.generation == cfg.generation
  }

  /** The admission section of `handleGrantNotifyForConfig`: `cfg` is the
      configuration the handler was started with, `lease` its admitted workload. */
  function Admit(a: Agent, cfg: Config, g: Grant, lease: nat): Agent {
    if !Admissible(a, cfg) || g.channel in a.sessions then a.(released := a.released + [lease])
    else a.(sessions := a.sessions[g.channel := Session(g.digest, g.expires, FenceOf(cfg), lease)])
  }

  /** `removeActiveSession`. */
  function Remove(a: Agent, channel: string): Agent {
    if channel !in a.sessions then a
    else a.(sessions := a.sessions - {channel}, released := a.released + [a.sessions[channel].lease])
  }

  // ----------------------------------------------------------------- closure

  predicate NoticeFits(owner: Config, n: Notice) {
    owner.association.Some? &&
    var o := owner.association.value;
    n.runtime == o.runtime && n.fence.id != "" && n.closure != "" && n.fence.generation >= 1 &&
        (o.binding.Some? ==> n.fence.id == o.binding.value.id)
  }

  predicate Covers(n: Fence, f: Fence) {
    n.id == f.id && n.generation >= f.generation
  }

  /** The first section of `applyCloudClosure`. */
  function FenceOff(a: Agent, owner: Config, n: Notice): (Agent, bool) {
    if !NoticeFits(owner, n) || !SameOwner(owner, a.cfg) then (a, false)
    else
      var association := a.cfg.association.value;
      if association.binding.Some? && Covers(n.fence, association.binding.value)
      then (a.(cfg := a.cfg.(association := Some(association.(approved := false)), pooled := false),
          rejected := true), true)
      else (a, true)
  }

  predicate Concerned(s: Session, f: Fence) {
    s.fence.Some? && Covers(f, s.fence.value)
  }

  /** `closeCloudSessions` reports whether any session was still registered. */
  predicate Drained(a: Agent, f: Fence) {
    forall c | c in a.sessions :: !Concerned(a.sessions[c], f)
  }

  /** The last section of `applyCloudClosure`. */
  function QueueReceipt(a: Agent, owner: Config, n: Notice, saved: bool): (Agent, bool) {
    if !SameOwner(owner, a.cfg) then (a, false)
    else
      var association, receipt := a.cfg.association.value, Receipt(n.closure, n.fence);
      if receipt in association.outbox then (a, saved)
      else if |association.outbox| >= MAX_RECEIPTS || !saved then (a, false)
      else (a.(cfg := a.cfg.(association := Some(association.(outbox := association.outbox + [receipt])))), true)
  }

  // --------------------------------------------------------------- the agent

  class CloudAgent {
    var cfg: Config
    var rejected: bool
    var stopping: bool
    var sessions: map<string, Session>
    var released: seq<nat>

    constructor (cfg: Config)
      ensures View() == Agent(cfg, false, false, map[], [])
    {
      this.cfg := cfg;
      rejected, stopping, sessions, released := false, false, map[], [];
    }

    function View(): Agent
      reads this
    {
      Agent(cfg, rejected, stopping, sessions, released)
    }

    method AdmitSession(cfg: Config, g: Grant, lease: nat) returns (admitted: bool)
      modifies `sessions, `released
      ensures View() == Admit(old(View()), cfg, g, lease)
      ensures admitted <==> Admissible(old(View()), cfg) && g.channel !in old(sessions)
    {
      if stopping || rejected || (cfg.association.Some? &&
          (!SameOwner(cfg, this.cfg) || !this.cfg.association.value.approved)) ||
         this.cfg.environment != cfg.environment || this.cfg.generation != cfg.generation {
        released := released + [lease];
        return false;
      }
      if g.channel in sessions {
        released := released + [lease];
        return false;
      }
      var session := Session(g.digest, g.expires, None, lease);
      var fence := FenceOf(cfg);
      if fence.Some? { session := session.(fence := fence); }
      sessions := sessions[g.channel := session];
      return true;
    }

    method RemoveActiveSession(channel: string)
      modifies `sessions, `released
      ensures View() == Remove(old(View()), channel)
    {
      if channel !in sessions { return; }
      var s := sessions[channel];
      sessions := sessions - {channel};
      released := released + [s.lease];
    }

    method BeginSessionShutdown()
      modifies `stopping
      ensures View() == old(View()).(stopping := true)
    {
      stopping := true;
    }

    method FenceClosure(owner: Config, n: Notice) returns (ok: bool)
      modifies `cfg, `rejected
      ensures (View(), ok) == FenceOff(old(View()), owner, n)
    {
      if !NoticeFits(owner, n) { return false; }
      if !SameOwner(owner, cfg) { return false; }
      var association := cfg.association.value;
      if association.binding.Some? && n.fence.id == association.binding.value.id &&
          n.fence.generation >= association.binding.value.generation {
        cfg := cfg.(association := Some(association.(approved := false)), pooled := false);
        rejected := true;
      }
      return true;
    }

    /** Also names the channels whose sessions are to be cancelled. */
    method CloseCloudSessions(f: Fence) returns (done: bool, cancels: set<string>)
      ensures cancels == set c | c in sessions && Concerned(sessions[c], f)
      ensures done <==> Drained(View(), f)
    {
      done, cancels := true, {};
      var todo := sessions.Keys;
      while todo != {}
        invariant todo <= sessions.Keys
        invariant cancels == set c | c in sessions && c !in todo && Concerned(sessions[c], f)
        invariant done <==> cancels == {}
        decreases |todo|
      {
        var c :| c in todo;
        todo := todo - {c};
        var s := sessions[c];
        if s.fence.None? || s.fence.value.id != f.id || s.fence.value.generation > f.generation { continue; }
        done := false;
        cancels := cancels + {c};
      }
      assert done ==> forall c | c in sessions :: Concerned(sessions[c], f) ==> c in cancels;
    }

    method QueueClosureReceipt(owner: Config, n: Notice, saved: bool) returns (ok: bool)
      modifies `cfg
      ensures (View(), ok) == QueueReceipt(old(View()), owner, n, saved)
    {
      if !SameOwner(owner, cfg) { return false; }
      var association, receipt := cfg.association.value, Receipt(n.closure, n.fence);
      for i := 0 to |association.outbox|
        invariant receipt !in association.outbox[..i]
      {
        if association.outbox[i] == receipt { return saved; }
      }
      assert association.outbox[..|association.outbox|] == association.outbox;
      if |association.outbox| >= MAX_RECEIPTS || !saved { return false; }
      cfg := cfg.(association := Some(association.(outbox := association.outbox + [receipt])));
      return true;
    }
  }

  // ------------------------------------------------------------------- runs

  /** The agent with its history: what was fenced (the highest closed generation
      of each binding), found drained, acknowledged, and the leases admitted. */
  datatype World = World(a: Agent, closed: map<string, int>, drained: set<Fence>, receipts: set<Fence>,
                         waiting: set<nat>, leases: set<nat>)

  datatype Step =
    | AdmitLease(lease: nat)
    | Admission(cfg: Config, grant: Grant, lease: nat)
    | Removal(channel: string)
    | Shutdown
    | Fencing(owner: Config, notice: Notice)
    | Draining(fence: Fence)
    | Queueing(owner: Config, notice: Notice, saved: bool)
    | OtherWriter(cfg: Config, rejected: bool)

  /** A binding's public id belongs to the identity it was issued for, its
      generation is repeated in the configuration, and approval delivers one. */
  predicate Issued(id: (string, string) -> string, cfg: Config) {
    && (FenceOf(cfg).Some? ==>
          FenceOf(cfg).value.id == id(cfg.association.value.owner, cfg.environment) &&
              FenceOf(cfg).value.generation == cfg.generation)
    && (cfg.association.Some? && cfg.association.value.approved ==> FenceOf(cfg).Some?)
  }

  predicate ClosedFor(w: World, f: Fence) {
    f.id in w.closed && f.generation <= w.closed[f.id]
  }

  /** No approved configuration names a closed generation. */
  predicate Open(w: World, cfg: Config) {
    FenceOf(cfg).Some? && cfg.association.value.approved ==> !ClosedFor(w, FenceOf(cfg).value)
  }

  /** Leases are new, a handler admits with its own lease, receipts are queued
      after the drain they report, and other writers re-approve a binding only
      with a generation above every closed one. */
  ghost predicate Allowed(w: World, id: (string, string) -> string, s: Step) {
    match s
    case AdmitLease(lease) => lease !in w.leases
    case Admission(cfg, _, lease) => lease in w.waiting && Issued(id, cfg)
    case Queueing(_, n, _) => n.fence in w.drained
    case Fencing(_, _) => true
    case Draining(f) => ClosedFor(w, f)
    case OtherWriter(cfg, _) => Issued(id, cfg) && Open(w, cfg)
    case _ => true
  }

  function Close(closed: map<string, int>, f: Fence): map<string, int> {
    closed[f.id := if f.id in closed && closed[f.id] >= f.generation then closed[f.id] else f.generation]
  }

  function After(w: World, s: Step): World {
    match s
    case AdmitLease(lease) => w.(waiting := w.waiting + {lease}, leases := w.leases + {lease})
    case Admission(cfg, g, lease) => w.(a := Admit(w.a, cfg, g, lease), waiting := w.waiting - {lease})
    case Removal(channel) => w.(a := Remove(w.a, channel))
    case Shutdown => w.(a := w.a.(stopping := true))
    case Fencing(owner, n) =>
      var r := FenceOff(w.a, owner, n);
      w.(a := r.0, closed := if r.1 then Close(w.closed, n.fence) else w.closed)
    case Draining(f) => if Drained(w.a, f) then w.(drained := w.drained + {f}) else w
    case Queueing(owner, n, saved) =>
      var r := QueueReceipt(w.a, owner, n, saved);
      w.(a := r.0, receipts := if r.1 then w.receipts + {n.fence} else w.receipts)
    case OtherWriter(cfg, rejected) => w.(a := w.a.(cfg := cfg, rejected := rejected))
  }

  // -------------------------------------------------------------- invariant

  ghost predicate FenceInv(w: World, id: (string, string) -> string) {
    && Issued(id, w.a.cfg) && Open(w, w.a.cfg) && w.receipts <= w.drained
    && forall f | f in w.drained :: ClosedFor(w, f) && Drained(w.a, f)
  }

  /** Every admitted lease is with exactly one holder: a handler, a session, or
      it has been released, once. */
  ghost predicate LeaseInv(w: World) {
    && (forall l :: l in w.leases <==> l in w.waiting || HeldBySession(w.a, l) || l in w.a.released)
    && (forall l ::
        !(l in w.waiting && (HeldBySession(w.a, l) || l in w.a.released)) &&
        !(HeldBySession(w.a, l) && l in w.a.released))
    && (forall c, d | c in w.a.sessions && d in w.a.sessions && c != d ::
        w.a.sessions[c].lease != w.a.sessions[d].lease)
    && (forall i, j | 0 <= i < j < |w.a.released| :: w.a.released[i] != w.a.released[j])
  }

  predicate HeldBySession(a: Agent, lease: nat) {
    exists c | c in a.sessions :: a.sessions[c].lease == lease
  }

  /** An admitted session's binding is the approved one, so it is not closed. */
  lemma {:induction false} AdmittedIsOpen(w: World, id: (string, string) -> string, cfg: Config)
    requires FenceInv(w, id) && Issued(id, cfg) && Admissible(w.a, cfg) && FenceOf(cfg).Some?
    ensures !ClosedFor(w, FenceOf(cfg).value)
  {
    assert FenceOf(w.a.cfg) == FenceOf(cfg);
  }

  lemma {:induction false} AdmissionKeepsFence(w: World, id: (string, string) -> string, cfg: Config, g: Grant,
          lease: nat)
    requires FenceInv(w, id) && Issued(id, cfg)
    ensures FenceInv(w.(a := Admit(w.a, cfg, g, lease)), id)
  {
    if Admissible(w.a, cfg) && FenceOf(cfg).Some? { AdmittedIsOpen(w, id, cfg); }
  }

  lemma {:induction false} StepKeepsFence(w: World, id: (string, string) -> string, s: Step)
    requires FenceInv(w, id) && Allowed(w, id, s)
    ensures FenceInv(After(w, s), id) && w.receipts <= After(w, s).receipts
  {
    match s
    case Admission(cfg, g, lease) => AdmissionKeepsFence(w, id, cfg, g, lease);
    case _ =>
  }

  lemma {:induction false} RemovalKeepsLeases(w: World, channel: string)
    requires LeaseInv(w)
    ensures LeaseInv(w.(a := Remove(w.a, channel)))
  {
    if channel in w.a.sessions {
      var lease, a := w.a.sessions[channel].lease, Remove(w.a, channel);
      assert HeldBySession(w.a, lease);
      forall l ensures HeldBySession(a, l) <==> HeldBySession(w.a, l) && l != lease {
        if HeldBySession(w.a, l) && l != lease {
          var c :| c in w.a.sessions && w.a.sessions[c].lease == l;
          assert c in a.sessions;
        }
      }
    }
  }

  lemma {:induction false} AdmissionKeepsLeases(w: World, cfg: Config, g: Grant, lease: nat)
    requires LeaseInv(w) && lease in w.waiting
    ensures LeaseInv(w.(a := Admit(w.a, cfg, g, lease), waiting := w.waiting - {lease}))
  {
    var a := Admit(w.a, cfg, g, lease);
    assert !HeldBySession(w.a, lease) && lease !in w.a.released;
    if g.channel in a.sessions && g.channel !in w.a.sessions {
      forall l ensures HeldBySession(a, l) <==> HeldBySession(w.a, l) || l == lease {
        if HeldBySession(w.a, l) {
          var c :| c in w.a.sessions && w.a.sessions[c].lease == l;
          assert c in a.sessions && a.sessions[c].lease == l;
        }
        if l == lease { assert a.sessions[g.channel].lease == l; }
      }
    }
  }

  lemma {:induction false} StepKeepsLeases(w: World, id: (string, string) -> string, s: Step)
    requires LeaseInv(w) && Allowed(w, id, s)
    ensures LeaseInv(After(w, s))
  {
    match s
    case AdmitLease(lease) => assert !HeldBySession(w.a, lease) && lease !in w.a.released;
    case Admission(cfg, g, lease) => AdmissionKeepsLeases(w, cfg, g, lease);
    case Removal(channel) => RemovalKeepsLeases(w, channel);
    case _ => assert forall l :: HeldBySession(After(w, s).a, l) == HeldBySession(w.a, l);
  }

  ghost predicate AllowedRun(w: World, id: (string, string) -> string, steps: seq<Step>)
    decreases steps
  {
    steps == [] || (Allowed(w, id, steps[0]) && AllowedRun(After(w, steps[0]), id, steps[1..]))
  }

  function Run(w: World, steps: seq<Step>): World
    decreases steps
  {
    if steps == [] then w else Run(After(w, steps[0]), steps[1..])
  }

  lemma {:induction false} RunKeeps(w: World, id: (string, string) -> string, steps: seq<Step>)
    requires FenceInv(w, id) && LeaseInv(w) && AllowedRun(w, id, steps)
    ensures FenceInv(Run(w, steps), id) && LeaseInv(Run(w, steps)) && w.receipts <= Run(w, steps).receipts
    decreases steps
  {
    if steps != [] {
      StepKeepsFence(w, id, steps[0]);
      StepKeepsLeases(w, id, steps[0]);
      RunKeeps(After(w, steps[0]), id, steps[1..]);
    }
  }

  /** An agent that has just started on a configuration. */
  function Start(cfg: Config): World {
    World(Agent(cfg, false, false, map[], []), map[], {}, {}, {}, {})
  }

  /** Receipts are truthful: once one is queued, then and after any further
      steps no session of its binding with an equal or lower generation is
      registered. */
  lemma {:induction false} ReceiptsAreTruthful(id: (string, string) -> string, cfg: Config, steps: seq<Step>,
          more: seq<Step>, f: Fence)
    requires Issued(id, cfg) && AllowedRun(Start(cfg), id, steps) && AllowedRun(Run(Start(cfg), steps), id, more)
    requires f in Run(Start(cfg), steps).receipts
    ensures Drained(Run(Start(cfg), steps).a, f) && Drained(Run(Run(Start(cfg), steps), more).a, f)
  {
    assert LeaseInv(Start(cfg)) && FenceInv(Start(cfg), id);
    RunKeeps(Start(cfg), id, steps);
    RunKeeps(Run(Start(cfg), steps), id, more);
  }

  /** Every lease that was admitted is waiting with its handler, owned by one
      session, or released, and no lease is released twice. */
  lemma {:induction false} LeasesAreConserved(id: (string, string) -> string, cfg: Config, steps: seq<Step>, lease: nat)
    requires Issued(id, cfg) && AllowedRun(Start(cfg), id, steps)
    ensures
      var w := Run(Start(cfg), steps);
      && (lease in w.leases <==> lease in w.waiting || HeldBySession(w.a, lease) || lease in w.a.released)
      && (lease in w.a.released ==> lease !in w.waiting && !HeldBySession(w.a, lease))
      && (lease in w.waiting ==> !HeldBySession(w.a, lease))
      && (forall c, d | c in w.a.sessions && d in w.a.sessions && c != d ::
          w.a.sessions[c].lease != w.a.sessions[d].lease)
      && (forall i, j | 0 <= i < j < |w.a.released| :: w.a.released[i] != w.a.released[j])
  {
    assert LeaseInv(Start(cfg)) && FenceInv(Start(cfg), id);
    RunKeeps(Start(cfg), id, steps);
  }

  /** Shutdown is final: afterwards no session is ever added. */
  lemma {:induction false} NothingAfterShutdown(w: World, steps: seq<Step>)
    requires w.a.stopping
    ensures Run(w, steps).a.stopping && Run(w, steps).a.sessions.Keys <= w.a.sessions.Keys
    decreases steps
  {
    if steps != [] { NothingAfterShutdown(After(w, steps[0]), steps[1..]); }
  }
}
