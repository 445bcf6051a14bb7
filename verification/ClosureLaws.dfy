/** What each section of a cloud closure does, stated on the agent and the notice
    alone, and the closure as a whole: it can always be brought to its receipt. */
module ClosureLaws {
  import opened Basics
  import opened Closure

  /** The configuration in force belongs to the owner's, and is enabled. */
  predicate Owned(owner: Config, current: Config) {
    owner.association.Some? && current.association.Some? && current.association.value.enabled &&
    owner.association.value.owner == current.association.value.owner
  }

  /** The notice is complete and meant for the owner's runtime and binding. */
  predicate Meant(owner: Config, n: Notice) {
    && owner.association.Some? && n.runtime == owner.association.value.runtime
    && n.closure != "" && n.fence.id != "" && n.fence.generation > 0
    && (owner.association.value.binding.Some? ==> owner.association.value.binding.value.id == n.fence.id)
  }

  /** The binding in force is the closed one, of the closed generation or an
      earlier one. */
  predicate Hits(a: Agent, f: Fence) {
    && a.cfg.association.Some? && a.cfg.association.value.binding.Some?
    && a.cfg.association.value.binding.value.id == f.id
    && a.cfg.association.value.binding.value.generation <= f.generation
  }

  /** A closure goes on exactly when it is meant for this owner; it withdraws the
      approval, drops the pool and rejects from then on exactly when it hits the
      binding in force, and changes nothing else. */
  lemma {:induction false} FencesExactly(a: Agent, owner: Config, n: Notice)
    ensures
      var (b, ok) := FenceOff(a, owner, n);
      && (ok <==> Meant(owner, n) && Owned(owner, a.cfg))
      && (ok && Hits(a, n.fence) ==>
          && b.rejected && !b.cfg.pooled && b.cfg.association.Some? && !b.cfg.association.value.approved
          && b == a.(rejected := true, cfg := a.cfg.(pooled := false,
                   association := Some(a.cfg.association.value.(approved := false)))))
      && (!(ok && Hits(a, n.fence)) ==> b == a)
  {}

  /** From then on nothing is admitted, whatever configuration the handler had. */
  lemma {:induction false} FencedAdmitsNothing(a: Agent, owner: Config, n: Notice, cfg: Config, g: Grant, lease: nat)
    requires FenceOff(a, owner, n).1 && Hits(a, n.fence)
    ensures var b := FenceOff(a, owner, n).0; Admit(b, cfg, g, lease) == b.(released := b.released + [lease])
  {}

  /** The binding that a session is started under, if it is a valid one. */
  predicate Bound(cfg: Config, f: Fence) {
    cfg.association.Some? && cfg.association.value.binding == Some(f) && f.id != "" && f.generation > 0
  }

  /** A grant is admitted exactly on a running agent that rejects nothing, whose
      configuration is still the handler's, approved where it is associated, and
      for a channel that is free; its session then has the grant's digest and
      expiry, the handler's binding and lease. Otherwise the lease is released. */
  lemma {:induction false} AdmitsExactly(a: Agent, cfg: Config, g: Grant, lease: nat)
    ensures
      var b := Admit(a, cfg, g, lease);
      var admits := !a.stopping && !a.rejected && a.cfg.environment == cfg.environment &&
        a.cfg.generation == cfg.generation && g.channel !in a.sessions &&
        (cfg.association.Some? ==> Owned(cfg, a.cfg) && a.cfg.association.value.approved);
      && (admits ==>
          && g.channel in b.sessions && b == a.(sessions := a.sessions[g.channel := b.sessions[g.channel]])
          && var s := b.sessions[g.channel];
             && s == Session(g.digest, g.expires, s.fence, lease)
             && (s.fence.Some? <==> exists f :: Bound(cfg, f)) && (s.fence.Some? ==> Bound(cfg, s.fence.value)))
      && (!admits ==> b == a.(released := a.released + [lease]))
  {
    if FenceOf(cfg).Some? { assert Bound(cfg, FenceOf(cfg).value); }
  }

  /** A binding is drained exactly when no session of it, of the closed generation
      or an earlier one, is registered. */
  lemma {:induction false} DrainedExactly(a: Agent, f: Fence)
    ensures Drained(a, f) <==>
              forall c, g | c in a.sessions && a.sessions[c].fence == Some(g) :: g.id == f.id ==>
                  g.generation > f.generation
  {
    if Drained(a, f) {
      forall c, g | c in a.sessions && a.sessions[c].fence == Some(g) &&
          g.id == f.id ensures g.generation > f.generation {
        assert !Concerned(a.sessions[c], f);
      }
    }
  }

  /** A receipt is queued exactly when the owner is still in force, the outbox has
      it or holds fewer than 4,096, and the save is reported; it is queued once,
      and nothing else changes. */
  lemma {:induction false} QueuesExactly(a: Agent, owner: Config, n: Notice, saved: bool)
    ensures
      var (b, ok) := QueueReceipt(a, owner, n, saved);
      && (ok <==> saved && Owned(owner, a.cfg) &&
                  (Receipt(n.closure, n.fence) in a.cfg.association.value.outbox ||
                   |a.cfg.association.value.outbox| < 4096))
      && (ok ==>
          && b.cfg.association.Some?
          && var was, now := a.cfg.association.value.outbox, b.cfg.association.value.outbox;
             && Receipt(n.closure, n.fence) in now && (was == now || was + [Receipt(n.closure, n.fence)] == now)
             && (Receipt(n.closure, n.fence) in was ==> was == now)
             && b == a.(cfg := a.cfg.(association := Some(a.cfg.association.value.(outbox := now)))))
      && (!ok ==> b == a)
  {}

  // ------------------------------------------------------ a closure as a whole

  function RemoveAll(a: Agent, channels: seq<string>): Agent
    decreases |channels|
  {
    if channels == [] then a else RemoveAll(Remove(a, channels[0]), channels[1..])
  }

  /** Ending these sessions removes them and no others, and releases each lease. */
  lemma {:induction false} RemovedExactly(a: Agent, channels: seq<string>)
    ensures
      var b := RemoveAll(a, channels);
      && b == a.(sessions := b.sessions, released := b.released)
      && (forall c :: c in b.sessions <==> c in a.sessions && c !in channels)
      && (forall c | c in b.sessions :: b.sessions[c] == a.sessions[c])
      && (forall l | l in a.released :: l in b.released)
      && (forall c | c in channels && c in a.sessions :: a.sessions[c].lease in b.released)
    decreases |channels|
  {
    if channels != [] {
      RemovedExactly(Remove(a, channels[0]), channels[1..]);
      assert channels == [channels[0]] + channels[1..];
    }
  }

  /** A closure that is meant for this owner ends in its receipt: fenced, its
      sessions ended, found drained, with room in the outbox and a save that is
      reported. */
  lemma {:induction false} ClosureCompletes(a: Agent, owner: Config, n: Notice, ended: seq<string>)
    requires Meant(owner, n) && Owned(owner, a.cfg) && |a.cfg.association.value.outbox| < 4096
    requires forall c | c in a.sessions && a.sessions[c].fence.Some? && a.sessions[c].fence.value.id == n.fence.id &&
                        a.sessions[c].fence.value.generation <= n.fence.generation :: c in ended
    ensures
      var fenced := FenceOff(a, owner, n).0;
      var left := RemoveAll(fenced, ended);
      && Drained(left, n.fence) && QueueReceipt(left, owner, n, true).1
      && Receipt(n.closure, n.fence) in QueueReceipt(left, owner, n, true).0.cfg.association.value.outbox
  {
    FencesExactly(a, owner, n);
    var fenced := FenceOff(a, owner, n).0;
    RemovedExactly(fenced, ended);
    DrainedExactly(RemoveAll(fenced, ended), n.fence);
    QueuesExactly(RemoveAll(fenced, ended), owner, n, true);
  }
}
