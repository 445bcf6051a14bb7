/** What each turn of the policy management does, stated on its request alone,
    and over whole runs where a committed change of the policy comes from. */
module Management {
  import opened Basics
  import opened Throttle
  import opened Factors
  import opened Authority

  // -------------------------------------------------------------- the factors

  /** The code, as typed, is the six characters that the secret shows at one of
      the three live steps. */
  predicate Shows(c: Crypto, secret: string, code: string, now: int, step: int) {
    && |c.normalizeCode(code)| == 6 && step >= 0 && StepAt(now) - 1 <= step <= StepAt(now) + 1
    && c.code(secret, step) == Some(c.normalizeCode(code))
  }

  /** The clock in milliseconds, seconds and, from the epoch on, half minutes. */
  lemma {:induction false} ClockReads(now: int)
    ensures 1_000_000 * UnixMilli(now) <= now < 1_000_000 * (UnixMilli(now) + 1)
    ensures 1_000_000_000 * Unix(now) <= now < 1_000_000_000 * (Unix(now) + 1)
    ensures now >= 0 ==> 30_000_000_000 * StepAt(now) <= now < 30_000_000_000 * (StepAt(now) + 1)
  {}

  lemma {:induction false} ShownStep(c: Crypto, secret: string, code: string, now: int)
    ensures var r := MatchedStep(c, secret, code, now);
            && (r.Some? <==> exists k :: Shows(c, secret, code, now, k))
            && (r.Some? ==> Shows(c, secret, code, now, r.value))
            && (r.Some? ==> forall k | Shows(c, secret, code, now, k) :: k <= r.value)
  {
    var r, step := MatchedStep(c, secret, code, now), StepAt(now);
    if r.Some? { assert Shows(c, secret, code, now, r.value); }
    forall k | Shows(c, secret, code, now, k) ensures r.Some? && k <= r.value {
      assert k == step - 1 || k == step || k == step + 1;
    }
  }

  /** The recovery code, as typed, is one of those still unused. */
  ghost predicate Unused(c: Crypto, a: AuthState, recovery: string) {
    exists i | 0 <= i < |a.recoveryHashes| ::
      a.recoveryHashes[i] == c.digest(a.recoverySalt, c.normalizeRecovery(recovery))
  }

  /** The code belongs to a step after the last one used, is not the text whose
      window is still open, and the clock has not fallen behind that step. */
  ghost predicate Unspent(c: Crypto, a: AuthState, code: string, now: int) {
    && (exists k :: k > a.lastStep && Shows(c, a.secret, code, now, k))
    && (c.digest(a.credentialId, c.normalizeCode(code)) == a.lastCodeHash ==> Unix(now) >= a.lastCodeUntil)
    && StepAt(now) >= a.lastStep - 1
  }

  /** A factor is accepted exactly when it is stored, no cooldown runs, and it is
      an unused recovery code or, where none is given, an unspent time code. */
  lemma {:induction false} FactorCountsExactly(c: Crypto, policy: Policy, a: AuthState, code: string,
          recovery: string, now: int,
          saved: bool)
    ensures Accepts(c, policy, a, TryFactor(code, recovery, now, saved)) <==>
            && saved && a.secret != "" && UnixMilli(now) >= a.cooldownUntil
            && (if recovery != "" then Unused(c, a, recovery) else Unspent(c, a, code, now))
  {
    ShownStep(c, a.secret, code, now);
  }

  /** What an evaluated factor leaves: an accepted one clears the failures, and
      takes away one use of the recovery code or moves the last step to the one
      shown; a refused one counts one failure more, from zero after half an hour
      of rest, and changes nothing else. */
  lemma {:induction false} FactorLeavesExactly(c: Crypto, policy: Policy, a: AuthState, code: string,
          recovery: string, now: int)
    requires a.secret != "" && UnixMilli(now) >= a.cooldownUntil
    ensures
      var e := TryFactor(code, recovery, now, true);
      var b := Factors.After(c, policy, a, e);
      var h := c.digest(a.recoverySalt, c.normalizeRecovery(recovery));
      if !Accepts(c, policy, a, e) then
        && b == a.(failures := b.failures, lastFailure := UnixMilli(now), cooldownUntil := b.cooldownUntil)
        && b.failures == (if UnixMilli(now) - a.lastFailure >= 30 * 60 * 1000 then 0 else a.failures) + 1
        && b.cooldownUntil == UnixMilli(now + CooldownFor(policy.steps, b.failures))
      else
        && b.failures == 0 && b.lastFailure == 0 && b.cooldownUntil == 0
        && b == a.(failures := 0, lastFailure := 0, cooldownUntil := 0, lastStep := b.lastStep,
                   lastCodeHash := b.lastCodeHash, lastCodeUntil := b.lastCodeUntil, recoveryHashes := b.recoveryHashes)
        && (recovery != "" ==>
            b.lastStep == a.lastStep && b.lastCodeHash == a.lastCodeHash && b.lastCodeUntil == a.lastCodeUntil &&
            multiset(a.recoveryHashes) == multiset(b.recoveryHashes) + multiset{h})
        && (recovery == "" ==>
            && b.recoveryHashes == a.recoveryHashes && Shows(c, a.secret, code, now, b.lastStep)
            && (forall k | Shows(c, a.secret, code, now, k) :: k <= b.lastStep)
            && b.lastCodeHash == c.digest(a.credentialId, c.normalizeCode(code))
            && b.lastCodeUntil == 30 * (b.lastStep + 2))
  {
    ShownStep(c, a.secret, code, now);
    WithoutOne(a.recoveryHashes, RecoveryHash(c, a, recovery));
  }

  /** Why a factor is refused: none is set, or a cooldown runs, with its end; the
      save failed; or it was a miss, answered with the end of the cooldown that
      starts, where that lies in a later millisecond. */
  lemma {:induction false} FactorRefusedExactly(c: Crypto, policy: Policy, o: Owner, row: Row, code: string,
          recovery: string, now: int,
          fate: Fate)
    ensures
      var a, (p, next, failure) := o.auth, VerifyFactor(c, policy, o, row, code, recovery, now, fate);
      var stored := row.generation == o.generation && fate == Stored;
      var b := Factors.After(c, policy, a, TryFactor(code, recovery, now, true));
      && (failure.None? <==> Accepts(c, policy, a, TryFactor(code, recovery, now, stored)))
      && (a.secret == "" ==> failure == Some(SecondFactor) && p == o && next == row)
      && (a.secret != "" && UnixMilli(now) < a.cooldownUntil ==>
          failure == Some(FactorLimitedUntil(a.cooldownUntil)) && p == o && next == row)
      && (a.secret != "" && UnixMilli(now) >= a.cooldownUntil ==>
          && (next == (if row.generation == o.generation && fate != Failed then Row(row.generation + 1, b) else row))
          && p == (if stored then o.(auth := b, generation := o.generation + 1) else o)
          && (!stored ==> failure == Some(SaveFailed))
          && (stored && failure.Some? ==>
              failure == Some(if UnixMilli(now) < b.cooldownUntil then FactorLimitedUntil(b.cooldownUntil)
                              else SecondFactor)))
  {}

  // ------------------------------------------------------ turns, one by one

  /** The operation named is one the owner may go on with: its own memory is the
      stored policy, and the operation is of this binding, of the policy's
      revision and less than five minutes old. */
  predicate Pending(o: Owner, row: Row, q: Query) {
    && row.generation == o.generation && q.operationId in o.ops
    && var op := o.ops[q.operationId];
       op.binding == q.binding && q.now < op.expires && op.revision == o.auth.revision
  }

  /** The operations but for `id` are those not yet expired, as they were. */
  ghost predicate OthersKept(o: Owner, now: int, p: Owner, id: string) {
    forall k | k != id ::
      (k in p.ops <==> k in o.ops && now < o.ops[k].expires) && (k in p.ops ==> p.ops[k] == o.ops[k])
  }

  ghost predicate AllKept(o: Owner, now: int, p: Owner) {
    forall k :: (k in p.ops <==> k in o.ops && now < o.ops[k].expires) && (k in p.ops ==> p.ops[k] == o.ops[k])
  }

  /** The turn changed nothing but the operations. */
  predicate OnlyOps(o: Owner, row: Row, t: Turn) {
    t.owner == o.(ops := t.owner.ops) && t.row == row && !t.revokes
  }

  /** Reading the state, or any request to an owner that fell behind the stored
      row, changes nothing but that expired operations may go. */
  lemma {:induction false} StatusExactly(c: Crypto, policy: Policy, o: Owner, row: Row, q: Query)
    ensures var t := Manage(c, policy, o, row, q);
            && (row.generation != o.generation ==> t == Turn(o, row, Err(RestartRequired), false))
            && (row.generation == o.generation && q.request.Status? ==>
                OnlyOps(o, row, t) && AllKept(o, q.now, t.owner) && t.reply.Ok? &&
                t.reply.value.enabled == (o.auth.secret != "") && t.reply.value.revision == o.auth.revision &&
                t.reply.value.passwordConfigured == (o.auth.passwordHash != "") &&
                t.reply.value.recoveryPending == o.auth.recoveryPending && t.reply.value.secret == "" &&
                t.reply.value.codes == [] && t.reply.value.remaining == |o.auth.recoveryHashes|)
  {}

  /** A cancelled operation goes when it is of this binding; all others stay. */
  lemma {:induction false} CancelExactly(c: Crypto, policy: Policy, o: Owner, row: Row, q: Query)
    requires row.generation == o.generation && q.request.Cancel?
    ensures var t, id := Manage(c, policy, o, row, q), q.operationId;
            && OnlyOps(o, row, t) && t.reply.Ok? && OthersKept(o, q.now, t.owner, id)
            && (id in t.owner.ops <==> id in o.ops && q.now < o.ops[id].expires && o.ops[id].binding != q.binding)
            && (id in t.owner.ops ==> t.owner.ops[id] == o.ops[id])
  {}

  /** A recovery is marked exactly when its save is reported; the factors and the
      verifier stay until a new setup is committed. */
  lemma {:induction false} RecoverExactly(c: Crypto, policy: Policy, o: Owner, row: Row, q: Query)
    requires row.generation == o.generation && q.request.Recover?
    ensures
      var t := Manage(c, policy, o, row, q);
      && (t.reply.Ok? <==> q.fate == Stored) && (t.revokes <==> q.fate == Stored)
      && AllKept(o, q.now, t.owner)
      && (if q.fate == Failed then t.row == row
          else t.row == Row(row.generation + 1, o.auth.(recoveryPending := true, revision := o.auth.revision + 1)))
      && (if q.fate == Stored then t.owner.auth == t.row.state && t.owner.generation == t.row.generation &&
              t.owner.enabled
          else t.owner == o.(ops := t.owner.ops))
  {}

  /** What was shown and fixed when an operation began. */
  predicate BegunWith(c: Crypto, o: Owner, q: Query, id: string, op: Op) {
    q.material.Some? &&
    var m := q.material.value;
    && q.request == Begin(op.action) && id == m.id
    && op.binding == q.binding && op.revision == o.auth.revision && op.expires == q.now + 5 * MINUTE
    && (op.verified <==> op.action == Rotate || op.action == Disable) && op.step == -1 && !op.committed
    && (if op.action == Setup || op.action == Replace then op.secret == m.secret && op.credentialId == m.credentialId
        else op.secret == "" && op.credentialId == "")
    && (if op.action == Disable then op.salt == "" && op.codes == [] else op.salt == m.salt && op.codes == m.codes)
    && |op.hashes| == |op.codes| && (forall i | 0 <= i < |op.codes| :: op.hashes[i] == c.digest(m.salt, op.codes[i]))
    && (if op.action == Setup && (o.auth.recoveryPending || o.auth.passwordHash == "")
        then m.hash == Some(op.passwordHash) else op.passwordHash == "")
  }

  /** The guards of a change of a protected policy. */
  predicate Reconfirmed(c: Crypto, policy: Policy, o: Owner, row: Row, q: Query) {
    && o.auth.secret != "" && !o.auth.recoveryPending && o.auth.passwordHash != ""
    && (o.enabled ==> q.password0.Accepted?)
    && Accepts(c, policy, o.auth, TryFactor(q.code, q.recovery, q.now, Saved(row, o.generation, q.fate)))
  }

  /** The guards of a setup. */
  predicate SetsUp(o: Owner, q: Query) {
    && (o.auth.secret == "" || o.auth.recoveryPending)
    && (o.auth.recoveryPending || o.auth.passwordHash == "" ==>
        q.password != "" && q.material.Some? && q.material.value.hash.Some?)
  }

  /** The operation of this turn, begun under its guards. */
  predicate Begins(c: Crypto, policy: Policy, o: Owner, row: Row, q: Query, id: string, op: Op) {
    && row.generation == o.generation && BegunWith(c, o, q, id, op)
    && |set k | k in o.ops && q.now < o.ops[k].expires| < 32
    && (if op.action == Setup then SetsUp(o, q) else Reconfirmed(c, policy, o, row, q))
  }

  lemma {:induction false} AddsExactly(c: Crypto, o: Owner, row: Row, action: Action, q: Query)
    requires q.request == Begin(action)
    ensures
      var t := AddOp(c, o, row, action, q);
      var needs := o.auth.recoveryPending || o.auth.passwordHash == "";
      && OnlyOps(o, row, t)
      && (t.reply.Ok? <==>
          q.material.Some? && (needs ==> action == Setup && q.password != "" && q.material.value.hash.Some?))
      && (t.reply.Err? ==> t.owner == o)
      && (t.reply.Ok? ==>
          && t.reply.value.operationId == q.material.value.id && t.reply.value.operationId in t.owner.ops
          && BegunWith(c, o, q, q.material.value.id, t.owner.ops[q.material.value.id])
          && t.owner.ops - {q.material.value.id} == o.ops - {q.material.value.id}
          && t.reply.value.secret == t.owner.ops[t.reply.value.operationId].secret)
  {}

  /** A change of a protected policy begins only once its guards passed, and the
      factor it took is spent in the stored row. */
  lemma {:induction false} ChangesExactly(c: Crypto, policy: Policy, o: Owner, row: Row, action: Action, q: Query)
    requires q.request == Begin(action) && action != Setup && o.auth.secret != "" && !o.auth.recoveryPending
    requires o.auth.passwordHash != ""
    ensures
      var t := Change(c, policy, o, row, action, q);
      && !t.revokes && (t.reply.Ok? <==> q.material.Some? && Reconfirmed(c, policy, o, row, q))
      && (t.reply.Err? ==> t.owner.ops == o.ops)
      && (t.reply.Ok? ==>
          && t.reply.value.operationId == q.material.value.id && t.reply.value.operationId in t.owner.ops
          && BegunWith(c, o, q, q.material.value.id, t.owner.ops[q.material.value.id])
          && t.owner.ops - {q.material.value.id} == o.ops - {q.material.value.id}
          && t.reply.value.secret == t.owner.ops[t.reply.value.operationId].secret)
  {
    var f := VerifyFactor(c, policy, o, row, q.code, q.recovery, q.now, q.fate);
    FactorIsEvent(c, policy, o, row, q.code, q.recovery, q.now, q.fate);
    FactorKeepsPolicy(c, policy, o, row, q);
    AddsExactly(c, f.0, f.1, action, q);
  }

  lemma {:induction false} FactorKeepsPolicy(c: Crypto, policy: Policy, o: Owner, row: Row, q: Query)
    ensures var p := VerifyFactor(c, policy, o, row, q.code, q.recovery, q.now, q.fate).0;
            p.ops == o.ops && p.auth.revision == o.auth.revision && p.auth.passwordHash == o.auth.passwordHash &&
            p.auth.recoveryPending == o.auth.recoveryPending && p.auth.secret == o.auth.secret
  {}

  lemma {:induction false} DoBeginExactly(c: Crypto, policy: Policy, o: Owner, row: Row, q: Query)
    requires q.request.Begin? && PolicyOk(o.auth)
    ensures
      var t := DoBegin(c, policy, o, row, q.request.action, q);
      && !t.revokes
      && (t.reply.Ok? <==>
          && q.material.Some? && |o.ops| < 32
          && (if q.request.action == Setup then SetsUp(o, q) else Reconfirmed(c, policy, o, row, q)))
      && (t.reply.Ok? ==>
          && t.reply.value.operationId == q.material.value.id && t.reply.value.operationId in t.owner.ops
          && BegunWith(c, o, q, q.material.value.id, t.owner.ops[q.material.value.id])
          && t.owner.ops - {q.material.value.id} == o.ops - {q.material.value.id}
          && t.reply.value.secret == t.owner.ops[t.reply.value.operationId].secret)
      && (t.reply.Err? ==> t.owner.ops == o.ops)
      && (q.request.action == Setup ==> t.row == row && t.owner.auth == o.auth)
  {
    var action := q.request.action;
    AddsExactly(c, o, row, action, q);
    if action != Setup && o.auth.secret != "" && !o.auth.recoveryPending {
      ChangesExactly(c, policy, o, row, action, q);
    }
  }

  lemma {:induction false} KeepsOthers(o: Owner, now: int, p: Owner, id: string)
    requires p.ops - {id} == Unexpired(o.ops, now) - {id}
    ensures OthersKept(o, now, p, id)
  {
    forall k | k != id
      ensures (k in p.ops <==> k in o.ops && now < o.ops[k].expires) && (k in p.ops ==> p.ops[k] == o.ops[k])
    {
      assert k in p.ops <==> k in p.ops - {id};
      assert k in Unexpired(o.ops, now) <==> k in Unexpired(o.ops, now) - {id};
    }
  }

  /** An operation begins exactly under its guards, and adds itself alone. */
  lemma {:induction false} BeginExactly(c: Crypto, policy: Policy, o: Owner, row: Row, q: Query)
    requires q.request.Begin? && PolicyOk(o.auth)
    ensures
      var t := Manage(c, policy, o, row, q);
      && !t.revokes
      && (t.reply.Ok? <==>
          && row.generation == o.generation && q.material.Some?
          && |set k | k in o.ops && q.now < o.ops[k].expires| < 32
          && (if q.request.action == Setup then SetsUp(o, q) else Reconfirmed(c, policy, o, row, q)))
      && (t.reply.Ok? ==>
          && t.reply.value.operationId == q.material.value.id && t.reply.value.operationId in t.owner.ops
          && Begins(c, policy, o, row, q, t.reply.value.operationId, t.owner.ops[t.reply.value.operationId])
          && OthersKept(o, q.now, t.owner, t.reply.value.operationId)
          && t.reply.value.secret == t.owner.ops[t.reply.value.operationId].secret)
      && (t.reply.Err? && row.generation == o.generation ==> AllKept(o, q.now, t.owner))
      && (q.request.action == Setup ==> t.row == row && t.owner.auth == o.auth)
  {
    var v := o.(ops := Unexpired(o.ops, q.now));
    assert v.ops.Keys == set k | k in o.ops && q.now < o.ops[k].expires;
    assert |v.ops| == |v.ops.Keys|;
    DoBeginExactly(c, policy, v, row, q);
    var t := Manage(c, policy, o, row, q);
    if row.generation == o.generation {
      assert t == DoBegin(c, policy, v, row, q.request.action, q);
      if t.reply.Ok? { KeepsOthers(o, q.now, t.owner, q.material.value.id); }
    }
  }

  /** The operation's new authenticator was shown to work by this turn. */
  predicate Proves(c: Crypto, o: Owner, row: Row, q: Query, id: string, op: Op) {
    && q.request.Verify? && q.operationId == id && Pending(o, row, q) && UnixMilli(q.now) >= o.auth.cooldownUntil
    && !o.ops[id].verified && (op.action == Setup || op.action == Replace)
    && op == o.ops[id].(verified := true, step := op.step) && Shows(c, op.secret, q.code, q.now, op.step)
    && (forall k | StepAt(q.now) - 1 <= k <= StepAt(q.now) + 1 :: Shows(c, op.secret, q.code, q.now, k) ==>
        k <= op.step)
  }

  predicate PendingSetup(o: Owner, row: Row, q: Query) {
    Pending(o, row, q) && (o.ops[q.operationId].action == Setup || o.ops[q.operationId].action == Replace)
  }

  /** A pending setup is verified exactly when no cooldown runs and its own
      secret shows the typed code at a live step, and then the greatest such
      step is recorded and nothing else changes. */
  lemma {:induction false} VerifyExactly(c: Crypto, policy: Policy, o: Owner, row: Row, q: Query)
    requires q.request.Verify?
    ensures
      var t, id := Manage(c, policy, o, row, q), q.operationId;
      && (t.reply.Ok? <==>
          PendingSetup(o, row, q) &&
          (o.ops[id].verified || (UnixMilli(q.now) >= o.auth.cooldownUntil &&
                                  exists k :: Shows(c, o.ops[id].secret, q.code, q.now, k))))
      && (t.reply.Ok? ==>
          && OnlyOps(o, row, t) && OthersKept(o, q.now, t.owner, id) && id in t.owner.ops
          && t.reply.value.codes == o.ops[id].codes && t.reply.value.operationId == id && t.owner.ops[id].verified
          && (t.owner.ops[id] == o.ops[id] || Proves(c, o, row, q, id, t.owner.ops[id])))
  {
    if q.operationId in o.ops { ShownStep(c, o.ops[q.operationId].secret, q.code, q.now); }
  }

  /** A code that is refused verifies nothing, and where it was compared, one
      failure more is stored with its cooldown; otherwise nothing is. */
  lemma {:induction false} VerifyMissExactly(c: Crypto, policy: Policy, o: Owner, row: Row, q: Query)
    requires q.request.Verify? && row.generation == o.generation
    ensures
      var t := Manage(c, policy, o, row, q);
      t.reply.Err? ==>
        && !t.revokes && t.owner.ops == Unexpired(o.ops, q.now)
        && (if !PendingSetup(o, row, q) || UnixMilli(q.now) < o.auth.cooldownUntil || q.fate == Failed
            then t.row == row && t.owner.auth == o.auth
            else t.row == Row(row.generation + 1, o.auth.(failures := o.auth.failures + 1,
                     lastFailure := UnixMilli(q.now),
                     cooldownUntil := UnixMilli(q.now + CooldownFor(policy.steps, o.auth.failures + 1)))) &&
                 t.owner.auth == (if q.fate == Stored then t.row.state else o.auth))
  {}

  /** Why a verify or commit turn is refused. */
  lemma {:induction false} RefusedFor(c: Crypto, policy: Policy, o: Owner, row: Row, q: Query)
    requires (q.request.Verify? || q.request.Commit?) && row.generation == o.generation
    requires Manage(c, policy, o, row, q).reply.Err?
    ensures
      var why, id := Manage(c, policy, o, row, q).reply.error, q.operationId;
      if id !in o.ops || o.ops[id].binding != q.binding || o.ops[id].expires <= q.now then why == SetupExpired
      else if o.ops[id].revision != o.auth.revision then why == SettingsChanged
      else if q.request.Commit? then
        why == if o.ops[id].verified && (o.ops[id].action == Disable || q.saved) then SaveFailed else NotReady
      else if o.ops[id].action == Rotate || o.ops[id].action == Disable then why == InvalidOperation
      else if UnixMilli(q.now) < o.auth.cooldownUntil then why == FactorLimitedUntil(o.auth.cooldownUntil)
      else why == if q.fate == Stored then SecondFactor else SaveFailed
  {}

  /** A code that is refused leaves every operation as it was. */
  lemma {:induction false} VerifyMissKeeps(c: Crypto, policy: Policy, o: Owner, row: Row, q: Query)
    requires q.request.Verify? && row.generation == o.generation && Manage(c, policy, o, row, q).reply.Err?
    ensures AllKept(o, q.now, Manage(c, policy, o, row, q).owner)
  {
    VerifyMissExactly(c, policy, o, row, q);
  }

  /** The guards of a commit. */
  predicate MayCommit(o: Owner, row: Row, q: Query) {
    && q.request.Commit? && Pending(o, row, q) && !o.ops[q.operationId].committed && o.ops[q.operationId].verified
    && (o.ops[q.operationId].action == Disable || q.saved)
  }

  /** The policy that an operation turns `a` into. */
  predicate Installs(c: Crypto, a: AuthState, op: Op, b: AuthState) {
    && b.revision == a.revision + 1
    && (op.action == Disable ==>
        b == a.(revision := b.revision, secret := "", credentialId := "", recoverySalt := "", recoveryHashes := []))
    && (op.action != Disable ==>
        && b.recoverySalt == op.salt && b.recoveryHashes == op.hashes && !b.recoveryPending
        && b.failures == 0 && b.lastFailure == 0 && b.cooldownUntil == 0
        && b.passwordHash == (if op.passwordHash != "" then op.passwordHash else a.passwordHash))
    && (op.action == Rotate ==>
        b.secret == a.secret && b.credentialId == a.credentialId && b.lastStep == a.lastStep &&
        b.lastCodeHash == a.lastCodeHash && b.lastCodeUntil == a.lastCodeUntil)
    && (op.action == Setup || op.action == Replace ==>
        b.secret == op.secret && b.credentialId == op.credentialId && b.lastStep == op.step &&
        b.lastCodeUntil == 30 * (op.step + 2) &&
        (c.code(op.secret, op.step).Some? ==>
            b.lastCodeHash == c.digest(op.credentialId, c.code(op.secret, op.step).value)))
  }

  /** A commit is stored exactly under its guards, and leaves the policy of its
      operation; its owner revokes when the save is reported. */
  lemma {:induction false} CommitExactly(c: Crypto, policy: Policy, o: Owner, row: Row, q: Query)
    requires q.request.Commit? && PolicyOk(o.auth) && OpsOk(o.auth, o.ops)
    ensures
      var t, id := Manage(c, policy, o, row, q), q.operationId;
      && (t.row != row <==> MayCommit(o, row, q) && q.fate != Failed)
      && (t.row != row ==> t.row.generation == row.generation + 1 && Installs(c, o.auth, o.ops[id], t.row.state))
      && (t.revokes <==> MayCommit(o, row, q) && q.fate == Stored)
      && (t.revokes ==>
          && t.owner.auth == t.row.state && t.owner.generation == t.row.generation
          && t.owner.passwordHash == t.row.state.passwordHash && t.owner.enabled)
  {
    if q.operationId in o.ops { assert OpOk(o.auth, o.ops[q.operationId]); }
  }

  /** A commit that is not reported leaves every operation as it was. */
  lemma {:induction false} CommitRefusedKeeps(c: Crypto, policy: Policy, o: Owner, row: Row, q: Query)
    requires q.request.Commit? && !Manage(c, policy, o, row, q).revokes && row.generation == o.generation
    ensures var p := Manage(c, policy, o, row, q).owner;
            p == o.(ops := Unexpired(o.ops, q.now)) && AllKept(o, q.now, p)
  {}

  /** A commit spends its operation, drops what it held in secret, and answers a
      repeat the same way. */
  lemma {:induction false} CommitSpendsOperation(c: Crypto, policy: Policy, o: Owner, row: Row, q: Query)
    requires q.request.Commit?
    ensures
      var t, id := Manage(c, policy, o, row, q), q.operationId;
      && (t.reply.Ok? <==>
          t.revokes || (row.generation == o.generation && id in o.ops && o.ops[id].binding == q.binding &&
                        q.now < o.ops[id].expires && o.ops[id].committed))
      && (t.revokes ==>
          && id in t.owner.ops && t.owner.ops[id].committed && t.owner.ops[id].binding == q.binding
          && t.owner.ops[id].codes == [] && t.owner.ops[id].secret == ""
          && t.owner.ops - {id} == Unexpired(o.ops, q.now) - {id})
  {}

  /** Any other request changes nothing. */
  lemma {:induction false} UnknownExactly(c: Crypto, policy: Policy, o: Owner, row: Row, q: Query)
    requires q.request.Unknown? && row.generation == o.generation
    ensures var t := Manage(c, policy, o, row, q); t.reply.Err? && OnlyOps(o, row, t) && AllKept(o, q.now, t.owner)
  {}

  // ----------------------------------------- where a committed change comes from

  /** The operation as it was before its authenticator was shown to work. */
  function Unproved(op: Op): Op {
    if op.action == Setup || op.action == Replace then op.(verified := false, step := -1) else op
  }

  predicate StepBegins(c: Crypto, policy: Policy, w: World, s: Step, i: nat, id: string, op: Op) {
    s.Managed? && s.i == i && i in w.owners && Begins(c, policy, w.owners[i], w.row, s.query, id, op)
  }

  predicate StepProves(c: Crypto, w: World, s: Step, i: nat, id: string, op: Op) {
    s.Managed? && s.i == i && i in w.owners && Proves(c, w.owners[i], w.row, s.query, id, op)
  }

  /** Some step of the run shows the operation's authenticator to work. */
  ghost predicate ProvedIn(c: Crypto, policy: Policy, w: World, steps: seq<Step>, i: nat, id: string, op: Op)
    decreases steps
  {
    steps != [] && Allowed(w, steps[0]) &&
    (StepProves(c, w, steps[0], i, id, op) ||
     ProvedIn(c, policy, Authority.After(c, policy, w, steps[0]), steps[1..], i, id, op))
  }

  predicate NeedsProof(op: Op) {
    op.verified && (op.action == Setup || op.action == Replace)
  }

  /** Some step of the run begins the operation under its guards, and where it
      enrols an authenticator a later one shows that to work. */
  ghost predicate PreparedIn(c: Crypto, policy: Policy, w: World, steps: seq<Step>, i: nat, id: string, op: Op)
    decreases steps
  {
    steps != [] && Allowed(w, steps[0]) &&
    var v := Authority.After(c, policy, w, steps[0]);
    (|| (StepBegins(c, policy, w, steps[0], i, id, Unproved(op)) &&
         (NeedsProof(op) ==> ProvedIn(c, policy, v, steps[1..], i, id, op)))
     || PreparedIn(c, policy, v, steps[1..], i, id, op))
  }

  predicate Holding(w: World, i: nat, id: string, op: Op) {
    i in w.owners && id in w.owners[i].ops && w.owners[i].ops[id] == op
  }

  lemma {:induction false} TurnStems(c: Crypto, policy: Policy, o: Owner, row: Row, q: Query, id: string)
    requires PolicyOk(o.auth)
    ensures
      var p := Manage(c, policy, o, row, q).owner;
      id in p.ops && !p.ops[id].committed ==>
        || Begins(c, policy, o, row, q, id, p.ops[id]) || (id in o.ops && o.ops[id] == p.ops[id])
        || Proves(c, o, row, q, id, p.ops[id])
  {
    match q.request
    case Status => StatusExactly(c, policy, o, row, q);
    case Unknown => if row.generation == o.generation { UnknownExactly(c, policy, o, row, q); }
    case Recover => if row.generation == o.generation { RecoverExactly(c, policy, o, row, q); }
    case Cancel => if row.generation == o.generation { CancelExactly(c, policy, o, row, q); }
    case Begin(_) => BeginExactly(c, policy, o, row, q);
    case Verify =>
      VerifyExactly(c, policy, o, row, q);
      if row.generation == o.generation && Manage(c, policy, o, row, q).reply.Err? {
        VerifyMissKeeps(c, policy, o, row, q);
      }
    case Commit =>
      var t := Manage(c, policy, o, row, q);
      CommitSpendsOperation(c, policy, o, row, q);
      if t.revokes { KeepsOthers(o, q.now, t.owner, q.operationId); }
      else if row.generation == o.generation { CommitRefusedKeeps(c, policy, o, row, q); }
  }

  lemma {:induction false} StepStems(c: Crypto, policy: Policy, w: World, s: Step, i: nat, id: string, op: Op)
    requires Authority.Inv(w) && Allowed(w, s) && !op.committed
    requires Holding(Authority.After(c, policy, w, s), i, id, op)
    ensures StepBegins(c, policy, w, s, i, id, op) || Holding(w, i, id, op) || StepProves(c, w, s, i, id, op)
  {
    if s.Managed? && s.i == i {
      assert OwnerOk(w.history, w.owners[i]);
      assert Past(w.history[w.owners[i].generation - 1], w.row.state);
      TurnStems(c, policy, w.owners[i], w.row, s.query, id);
    } else if s.Factor? && s.i == i {
      assert VerifyFactor(c, policy, w.owners[i], w.row, s.code, s.recovery, s.now, s.fate).0.ops == w.owners[i].ops;
    }
  }

  /** The operation before it was proved, whatever step it names. */
  predicate HoldingUnproved(w: World, i: nat, id: string, op: Op) {
    && NeedsProof(op) && i in w.owners && id in w.owners[i].ops && !w.owners[i].ops[id].verified
    && w.owners[i].ops[id].(step := -1) == Unproved(op)
  }

  /** The operation is held, or it was before a later step proved it. */
  ghost predicate HeldBefore(c: Crypto, policy: Policy, w: World, steps: seq<Step>, i: nat, id: string, op: Op) {
    Holding(w, i, id, op) || (HoldingUnproved(w, i, id, op) && ProvedIn(c, policy, w, steps, i, id, op))
  }

  lemma {:induction false} Prepares(c: Crypto, policy: Policy, w: World, steps: seq<Step>, i: nat, id: string, op: Op)
    requires steps != [] && Allowed(w, steps[0]) && StepBegins(c, policy, w, steps[0], i, id, Unproved(op))
    requires NeedsProof(op) ==> ProvedIn(c, policy, Authority.After(c, policy, w, steps[0]), steps[1..], i, id, op)
    ensures PreparedIn(c, policy, w, steps, i, id, op)
  {}

  lemma {:induction false} BegunIsUnproved(c: Crypto, policy: Policy, w: World, s: Step, i: nat, id: string, op: Op)
    requires StepBegins(c, policy, w, s, i, id, op)
    ensures Unproved(op) == op && !NeedsProof(op) && op.step == -1
  {}

  lemma {:induction false} ProvedHeld(c: Crypto, w: World, s: Step, i: nat, id: string, op: Op)
    requires StepProves(c, w, s, i, id, op)
    ensures HoldingUnproved(w, i, id, op)
  {}

  lemma {:induction false} StemsHeld(c: Crypto, policy: Policy, w: World, steps: seq<Step>, i: nat, id: string, op: Op)
    requires Authority.Inv(w) && steps != [] && Allowed(w, steps[0]) && !op.committed
    requires Holding(Authority.After(c, policy, w, steps[0]), i, id, op)
    ensures PreparedIn(c, policy, w, steps, i, id, op) || HeldBefore(c, policy, w, steps, i, id, op)
  {
    StepStems(c, policy, w, steps[0], i, id, op);
    if StepBegins(c, policy, w, steps[0], i, id, op) {
      BegunIsUnproved(c, policy, w, steps[0], i, id, op);
      Prepares(c, policy, w, steps, i, id, op);
    } else if StepProves(c, w, steps[0], i, id, op) {
      ProvedHeld(c, w, steps[0], i, id, op);
    }
  }

  lemma {:induction false} StemsBack(c: Crypto, policy: Policy, w: World, steps: seq<Step>, i: nat, id: string, op: Op)
    requires Authority.Inv(w) && steps != [] && Allowed(w, steps[0]) && !op.committed
    requires HeldBefore(c, policy, Authority.After(c, policy, w, steps[0]), steps[1..], i, id, op)
    ensures PreparedIn(c, policy, w, steps, i, id, op) || HeldBefore(c, policy, w, steps, i, id, op)
  {
    var v := Authority.After(c, policy, w, steps[0]);
    if Holding(v, i, id, op) {
      StemsHeld(c, policy, w, steps, i, id, op);
    } else {
      var was := v.owners[i].ops[id];
      StepStems(c, policy, w, steps[0], i, id, was);
      if StepBegins(c, policy, w, steps[0], i, id, was) {
        BegunIsUnproved(c, policy, w, steps[0], i, id, was);
        Prepares(c, policy, w, steps, i, id, op);
      }
    }
  }

  /** What an uncommitted operation at the end of a run goes back to. */
  lemma {:induction false} RunStems(c: Crypto, policy: Policy, w: World, steps: seq<Step>, i: nat, id: string, op: Op)
    requires Authority.Inv(w) && AllowedRun(c, policy, w, steps) && !op.committed
    requires Holding(RunOf(c, policy, w, steps), i, id, op)
    ensures PreparedIn(c, policy, w, steps, i, id, op) || HeldBefore(c, policy, w, steps, i, id, op)
    decreases steps
  {
    if steps != [] {
      var v := Authority.After(c, policy, w, steps[0]);
      StepKeeps(c, policy, w, steps[0]);
      RunStems(c, policy, v, steps[1..], i, id, op);
      if HeldBefore(c, policy, v, steps[1..], i, id, op) { StemsBack(c, policy, w, steps, i, id, op); }
    }
  }

  /** No change of the policy out of nothing: over every run with any openers and
      any fate of their saves, a stored commit installs the operation it names,
      which the same opener began less than five minutes before for the same
      binding and at this very revision; began it as a setup of an unprotected
      or recovering gate, or with the password and a factor that counted; and,
      where it enrols an authenticator, saw that one show its code since. */
  lemma {:induction false} CommitWasPrepared(c: Crypto, policy: Policy, hash: string, steps: seq<Step>, s: Step)
    requires AllowedRun(c, policy, Start(hash), steps)
    requires var w := RunOf(c, policy, Start(hash), steps);
             Allowed(w, s) && s.Managed? && s.query.request.Commit? && Authority.After(c, policy, w, s).row != w.row
    ensures
      var w := RunOf(c, policy, Start(hash), steps);
      var id := s.query.operationId;
      && id in w.owners[s.i].ops
      && var op := w.owners[s.i].ops[id];
         && PreparedIn(c, policy, Start(hash), steps, s.i, id, op) && op.verified && !op.committed
         && op.binding == s.query.binding && s.query.now < op.expires && op.revision == w.row.state.revision
         && Installs(c, w.row.state, op, Authority.After(c, policy, w, s).row.state)
  {
    assert Authority.Inv(Start(hash));
    Authority.RunKeeps(c, policy, Start(hash), steps);
    var w := RunOf(c, policy, Start(hash), steps);
    var o := w.owners[s.i];
    assert OwnerOk(w.history, o) && Past(w.history[o.generation - 1], w.row.state);
    CommitExactly(c, policy, o, w.row, s.query);
    RunStems(c, policy, Start(hash), steps, s.i, s.query.operationId, o.ops[s.query.operationId]);
  }

  /** A verifier is written exactly where no second factor is set and no recovery
      is pending, by an owner that holds the stored policy. */
  lemma {:induction false} WriteExactly(o: Owner, row: Row, hash: string, fate: Fate)
    ensures
      var p := WriteHash(o, row, hash, fate);
      var free := o.auth.secret == "" && !o.auth.recoveryPending && row.generation == o.generation;
      && (p.2 <==> free && fate == Stored)
      && (free && fate != Failed ==>
          p.1 == Row(row.generation + 1, o.auth.(passwordHash := hash, revision := o.auth.revision + 1)))
      && (!(free && fate != Failed) ==> p.1 == row)
  {}

  /** What protects a policy: the verifier, the authenticator and a recovery that
      has not been finished. */
  predicate SameProtection(a: AuthState, b: AuthState) {
    && a.passwordHash == b.passwordHash && a.secret == b.secret && a.credentialId == b.credentialId
    && a.recoverySalt == b.recoverySalt && (a.recoveryPending ==> b.recoveryPending)
  }

  lemma {:induction false} TurnProtects(c: Crypto, policy: Policy, o: Owner, row: Row, q: Query)
    requires PolicyOk(o.auth) && OpsOk(o.auth, o.ops) && (row.generation == o.generation ==> o.auth == row.state)
    requires !q.request.Commit?
    ensures SameProtection(row.state, Manage(c, policy, o, row, q).row.state)
  {
    match q.request
    case Status => StatusExactly(c, policy, o, row, q);
    case Unknown => if row.generation == o.generation { UnknownExactly(c, policy, o, row, q); }
    case Recover => if row.generation == o.generation { RecoverExactly(c, policy, o, row, q); }
    case Cancel => if row.generation == o.generation { CancelExactly(c, policy, o, row, q); }
    case Begin(action) =>
      var v := o.(ops := Unexpired(o.ops, q.now));
      FactorProtects(c, policy, v, row, q.code, q.recovery, q.now, q.fate);
    case Verify =>
      VerifyExactly(c, policy, o, row, q);
      if row.generation == o.generation { VerifyMissExactly(c, policy, o, row, q); }
  }

  lemma {:induction false} FactorProtects(c: Crypto, policy: Policy, o: Owner, row: Row, code: string,
          recovery: string, now: int,
          fate: Fate)
    requires row.generation == o.generation ==> o.auth == row.state
    ensures SameProtection(row.state, VerifyFactor(c, policy, o, row, code, recovery, now, fate).1.state)
  {}

  /** A protected policy changes only by a commit: over every run, no other step
      touches the verifier or the authenticator of a gate with a second factor
      or with a recovery pending, or ends such a recovery. */
  lemma {:induction false} ProtectedChangesByCommit(c: Crypto, policy: Policy, hash: string, steps: seq<Step>, s: Step)
    requires AllowedRun(c, policy, Start(hash), steps) && Allowed(RunOf(c, policy, Start(hash), steps), s)
    requires var a := RunOf(c, policy, Start(hash), steps).row.state; a.secret != "" || a.recoveryPending
    ensures
      var w := RunOf(c, policy, Start(hash), steps);
      SameProtection(w.row.state, Authority.After(c, policy, w, s).row.state) || (s.Managed? && s.query.request.Commit?)
  {
    assert Authority.Inv(Start(hash));
    Authority.RunKeeps(c, policy, Start(hash), steps);
    var w := RunOf(c, policy, Start(hash), steps);
    assert s.Open? || s.Close? || OwnerOk(w.history, w.owners[s.i]);
    match s
    case Open(_) =>
    case Close(_) =>
    case Factor(i, code, recovery, now, fate) =>
      FactorProtects(c, policy, w.owners[i], w.row, code, recovery, now, fate);
    case Managed(i, q) =>
      assert Past(w.history[w.owners[i].generation - 1], w.row.state);
      if !q.request.Commit? { TurnProtects(c, policy, w.owners[i], w.row, q); }
    case Write(i, text, fate) =>
      WriteExactly(w.owners[i], w.row, text, fate);
  }
}
