/** The durable authentication authority: optimistic saves on a shared row and
    the management operations that change the policy, as values. */
module Authority {
  import opened Basics
  import opened Throttle
  import opened Factors

  // ----------------------------------------------------------------- the row

  /** The single database row: its generation and the (unsealed) state. */
  datatype Row = Row(generation: int, state: AuthState)

  /** What the database makes of an update that matches the generation: it is
      stored and reported, fails without effect, or is stored but the report
      is lost. */
  datatype Fate = Stored | Failed | Lost

  function SaveRow(row: Row, generation: int, next: AuthState, fate: Fate): Row {
    if row.generation == generation && fate != Failed then Row(generation + 1, next) else row
  }

  predicate Saved(row: Row, generation: int, fate: Fate) {
    row.generation == generation && fate == Stored
  }

  /** The check made when the row is opened. */
  predicate PolicyOk(a: AuthState) {
    a.revision != 0 && (a.secret != "" ==> a.passwordHash != "" && a.credentialId != "")
  }

  // ---------------------------------------------------------- one owner

  datatype Action = Setup | Replace | Rotate | Disable

  datatype Op = Op(binding: string, action: Action, secret: string, credentialId: string, salt: string,
                   passwordHash: string, codes: seq<string>, hashes: seq<string>, revision: nat, expires: int,
                   verified: bool, step: int, committed: bool)

  datatype Owner = Owner(auth: AuthState, generation: int, ops: map<string, Op>, enabled: bool, passwordHash: string)

  datatype Request = Status | Recover | Cancel | Begin(action: Action) | Verify | Commit | Unknown

  /** Fresh random material for one operation; `hash` is the bcrypt verifier of
      the requested password. */
  datatype Material = Material(id: string, secret: string, credentialId: string, salt: string, hash: Option<string>,
                               codes: seq<string>)

  datatype Query = Query(request: Request, binding: string, operationId: string, password: string, code: string,
                         recovery: string, saved: bool, now: int, password0: Verdict, material: Option<Material>,
                         fate: Fate)

  datatype AuthError =
    | RestartRequired | TooManyOperations | AlreadyConfigured | SetupUnfinished | PendingRecovery | PasswordNeeded
    | PasswordRefused(verdict: Verdict) | SecondFactor | FactorLimitedUntil(until: int) | RandomSourceFailed
    | BadPassword
    | SetupExpired | SettingsChanged | InvalidOperation | NotReady | SaveFailed | UnknownAction

  datatype Reply = Reply(enabled: bool, passwordConfigured: bool, recoveryPending: bool, remaining: nat,
                         revision: nat, operationId: string, secret: string, codes: seq<string>)

  datatype Turn = Turn(owner: Owner, row: Row, reply: Result<Reply, AuthError>, revokes: bool)

  const MAX_OPERATIONS: nat := 32

  function StatusOf(a: AuthState): Reply {
    Reply(a.secret != "", a.passwordHash != "", a.recoveryPending, |a.recoveryHashes|, a.revision, "", "", [])
  }

  function Refuse(o: Owner, row: Row, e: AuthError): Turn {
    Turn(o, row, Err(e), false)
  }

  /** `persistLocked`: memory follows only a save that was reported. */
  function Persist(o: Owner, row: Row, next: AuthState, fate: Fate): (Owner, Row, bool) {
    if Saved(row, o.generation, fate)
    then (o.(auth := next, generation := o.generation + 1), SaveRow(row, o.generation, next, fate), true)
    else (o, SaveRow(row, o.generation, next, fate), false)
  }

  /** `verifyFactorLocked` with its save. */
  function VerifyFactor(c: Crypto, policy: Policy, o: Owner, row: Row, code: string, recovery: string, now: int,
          fate: Fate)
    : (Owner, Row, Option<AuthError>)
  {
    match Attempt(c, policy, o.auth, code, recovery, now)
    case Err(NoFactor) => (o, row, Some(SecondFactor))
    case Err(FactorLimited(until)) => (o, row, Some(FactorLimitedUntil(until)))
    case Ok((next, success)) =>
      var p := Persist(o, row, next, fate);
      (p.0, p.1,
       if !p.2 then Some(SaveFailed)
       else if success then None
       else if UnixMilli(now) < next.cooldownUntil then Some(FactorLimitedUntil(next.cooldownUntil))
       else Some(SecondFactor))
  }

  // ------------------------------------------------------------- operations

  function Unexpired(ops: map<string, Op>, now: int): map<string, Op> {
    map id | id in ops && now < ops[id].expires :: ops[id]
  }

  function RecoverNext(a: AuthState): AuthState {
    a.(recoveryPending := true, revision := a.revision + 1)
  }

  function DoRecover(o: Owner, row: Row, fate: Fate): Turn {
    var p := Persist(o, row, RecoverNext(o.auth), fate);
    if p.2 then Turn(p.0.(enabled := true), p.1, Ok(StatusOf(p.0.auth)), true)
        else Turn(p.0, p.1, Err(SaveFailed), false)
  }

  function DoCancel(o: Owner, row: Row, q: Query): Turn {
    var left := if q.operationId in o.ops && o.ops[q.operationId].binding == q.binding then o.ops - {q.operationId}
        else o.ops;
    Turn(o.(ops := left), row, Ok(StatusOf(o.auth)), false)
  }

  predicate NeedsPassword(a: AuthState) {
    a.recoveryPending || a.passwordHash == ""
  }

  predicate Enrolls(action: Action) {
    action == Setup || action == Replace
  }

  function NewOp(c: Crypto, a: AuthState, binding: string, action: Action, m: Material, now: int): Op {
    var enrolls := Enrolls(action);
    var codes := if action == Disable then [] else m.codes;
    Op(binding, action, if enrolls then m.secret else "", if enrolls then m.credentialId else "",
       if action == Disable then "" else m.salt, if enrolls && NeedsPassword(a) && m.hash.Some? then m.hash.value
           else "",
       codes, seq(|codes|, i requires 0 <= i < |codes| => c.digest(m.salt, codes[i])),
       a.revision, now + 5 * MINUTE, !enrolls, -1, false)
  }

  function AddOp(c: Crypto, o: Owner, row: Row, action: Action, q: Query): Turn {
    if NeedsPassword(o.auth) && action != Setup then Refuse(o, row, PendingRecovery)
    else if NeedsPassword(o.auth) && q.password == "" then Refuse(o, row, PasswordNeeded)
    else if q.material.None? then Refuse(o, row, RandomSourceFailed)
    else
      var m := q.material.value;
      if Enrolls(action) && NeedsPassword(o.auth) && m.hash.None? then Refuse(o, row, BadPassword)
      else
        var op := NewOp(c, o.auth, q.binding, action, m, q.now);
        Turn(o.(ops := o.ops[m.id := op]), row,
             Ok(StatusOf(o.auth).(operationId := m.id, secret := op.secret, codes := if action == Rotate
                 then op.codes else [])), false)
  }

  function Change(c: Crypto, policy: Policy, o: Owner, row: Row, action: Action, q: Query): Turn {
    if o.enabled && !q.password0.Accepted? then Refuse(o, row, PasswordRefused(q.password0))
    else
      var f := VerifyFactor(c, policy, o, row, q.code, q.recovery, q.now, q.fate);
      if f.2.Some? then Refuse(f.0, f.1, f.2.value) else AddOp(c, f.0, f.1, action, q)
  }

  function DoBegin(c: Crypto, policy: Policy, o: Owner, row: Row, action: Action, q: Query): Turn {
    if |o.ops| >= MAX_OPERATIONS then Refuse(o, row, TooManyOperations)
    else if action == Setup && o.auth.secret != "" && !o.auth.recoveryPending then Refuse(o, row, AlreadyConfigured)
    else if action != Setup && (o.auth.secret == "" || o.auth.recoveryPending) then Refuse(o, row, SetupUnfinished)
    else if action == Setup then AddOp(c, o, row, action, q)
    else Change(c, policy, o, row, action, q)
  }

  function DoVerify(c: Crypto, policy: Policy, o: Owner, row: Row, q: Query): Turn
    requires q.operationId in o.ops
  {
    var op := o.ops[q.operationId];
    if !Enrolls(op.action) then Refuse(o, row, InvalidOperation)
    else if op.verified then Turn(o, row, Ok(StatusOf(o.auth).(operationId := q.operationId, codes := op.codes)), false)
    else if UnixMilli(q.now) < o.auth.cooldownUntil then Refuse(o, row, FactorLimitedUntil(o.auth.cooldownUntil))
    else
      match MatchedStep(c, op.secret, q.code, q.now)
      case None =>
        var p := Persist(o, row, Miss(policy, o.auth, o.auth.failures, q.now), q.fate);
        Turn(p.0, p.1, Err(if p.2 then SecondFactor else SaveFailed), false)
      case Some(step) =>
        Turn(o.(ops := o.ops[q.operationId := op.(step := step, verified := true)]), row,
             Ok(StatusOf(o.auth).(operationId := q.operationId, codes := op.codes)), false)
  }

  function CommitNext(c: Crypto, a: AuthState, op: Op): AuthState {
    var raised := a.(revision := a.revision + 1);
    if op.action == Disable then raised.(secret := "", credentialId := "", recoverySalt := "", recoveryHashes := [])
    else
      var shown := c.code(op.secret, op.step);
      var renewed := Calm(raised.(recoverySalt := op.salt, recoveryHashes := op.hashes, recoveryPending := false,
                                  passwordHash := if op.passwordHash != "" then op.passwordHash else a.passwordHash));
      if op.secret == "" then renewed
      else renewed.(secret := op.secret, credentialId := op.credentialId, lastStep := op.step,
                    lastCodeHash := c.digest(op.credentialId, if shown.Some? then shown.value else ""),
                    lastCodeUntil := (op.step + 2) * 30)
  }

  function DoCommit(c: Crypto, o: Owner, row: Row, q: Query): Turn
    requires q.operationId in o.ops
  {
    var op := o.ops[q.operationId];
    if !op.verified || (op.action != Disable && !q.saved) then Refuse(o, row, NotReady)
    else
      var next := CommitNext(c, o.auth, op);
      var p := Persist(o, row, next, q.fate);
      if !p.2 then Turn(p.0, p.1, Err(SaveFailed), false)
      else
        var done := op.(committed := true, secret := "", codes := [], hashes := [], passwordHash := "");
        Turn(p.0.(ops := o.ops[q.operationId := done], passwordHash := next.passwordHash,
            enabled := next.passwordHash != ""),
             p.1, Ok(StatusOf(next)), true)
  }

  /** Verify and commit address a pending operation by its id. */
  function DoOperation(c: Crypto, policy: Policy, o: Owner, row: Row, q: Query): Turn {
    if q.operationId !in o.ops || o.ops[q.operationId].binding != q.binding then Refuse(o, row, SetupExpired)
    else if o.ops[q.operationId].committed && q.request.Commit? then Turn(o, row, Ok(StatusOf(o.auth)), false)
    else if o.ops[q.operationId].revision != o.auth.revision then Refuse(o, row, SettingsChanged)
    else if q.request.Verify? then DoVerify(c, policy, o, row, q)
    else if q.request.Commit? then DoCommit(c, o, row, q)
    else Refuse(o, row, UnknownAction)
  }

  function Dispatch(c: Crypto, policy: Policy, o: Owner, row: Row, q: Query): Turn {
    if q.request.Status? then Turn(o, row, Ok(StatusOf(o.auth)), false)
    else if q.request.Recover? then DoRecover(o, row, q.fate)
    else if q.request.Cancel? then DoCancel(o, row, q)
    else if q.request.Begin? then DoBegin(c, policy, o, row, q.request.action, q)
    else DoOperation(c, policy, o, row, q)
  }

  /** `Manage`: nothing on a stale generation; expired operations go first. */
  function Manage(c: Crypto, policy: Policy, o: Owner, row: Row, q: Query): Turn {
    if row.generation != o.generation then Refuse(o, row, RestartRequired)
    else Dispatch(c, policy, o.(ops := Unexpired(o.ops, q.now)), row, q)
  }

  /** The state an authority is created with. */
  function FirstState(hash: string): AuthState {
    AuthState(hash, 1, "", "", "", [], -1, "", 0, 0, 0, 0, false)
  }

  /** `OpenPersistent` on an initialized store: the row's state is loaded. */
  function Opened(row: Row): Owner {
    Owner(row.state, row.generation, map[], row.state.passwordHash != "" || row.state.recoveryPending,
        row.state.passwordHash)
  }

  /** `WritePasswordHash` once the authority exists: an owner that opened the
      row refuses a protected policy, saves, and is closed again. */
  function WriteHash(o: Owner, row: Row, hash: string, fate: Fate): (Owner, Row, bool) {
    if o.auth.secret != "" || o.auth.recoveryPending then (o, row, false)
    else Persist(o, row, o.auth.(passwordHash := hash, revision := o.auth.revision + 1), fate)
  }

  // ------------------------------------------------- runs with many openers

  datatype World = World(row: Row, history: seq<AuthState>, owners: map<nat, Owner>, commits: seq<nat>)

  datatype Step =
    | Open(i: nat)
    | Close(i: nat)
    | Factor(i: nat, code: string, recovery: string, now: int, fate: Fate)
    | Managed(i: nat, query: Query)
    | Write(i: nat, hash: string, fate: Fate)

  /** Random material is never empty: bcrypt verifiers, TOTP secrets and tokens. */
  predicate RealMaterial(q: Query) {
    q.material.Some? ==>
      var m := q.material.value;
      m.secret != "" && m.credentialId != "" && (m.hash.Some? ==> m.hash.value != "") && |m.codes| == 8
  }

  predicate Allowed(w: World, s: Step) {
    match s
    case Open(_) => true
    case Managed(i, q) => i in w.owners && RealMaterial(q)
    case _ => s.i in w.owners
  }

  /** The row moved, if it did, to a new state kept in the history. */
  function Move(w: World, row: Row): World {
    if row == w.row then w else w.(row := row, history := w.history + [row.state])
  }

  /** The revision on which a stored commit was based, reported or not. */
  function CommitsOf(w: World, s: Step, t: Turn): seq<nat>
    requires s.Managed? && s.i in w.owners
  {
    if s.query.request == Commit && t.row != w.row then [w.owners[s.i].auth.revision] else []
  }

  function After(c: Crypto, policy: Policy, w: World, s: Step): World
    requires Allowed(w, s)
  {
    match s
    case Open(i) => w.(owners := w.owners[i := Opened(w.row)])
    case Close(i) => w.(owners := w.owners - {i})
    case Factor(i, code, recovery, now, fate) =>
      var f := VerifyFactor(c, policy, w.owners[i], w.row, code, recovery, now, fate);
      Move(w, f.1).(owners := w.owners[i := f.0])
    case Managed(i, q) =>
      var t := Manage(c, policy, w.owners[i], w.row, q);
      Move(w, t.row).(owners := w.owners[i := t.owner], commits := w.commits + CommitsOf(w, s, t))
    case Write(i, hash, fate) =>
      Move(w, WriteHash(w.owners[i], w.row, hash, fate).1).(owners := w.owners - {i})
  }

  // -------------------------------------------------------------- invariant

  /** A pending operation of the current revision commits to a sound policy. */
  predicate OpOk(a: AuthState, op: Op) {
    op.revision <= a.revision &&
    (op.revision == a.revision && !op.committed ==>
       if Enrolls(op.action) then op.secret != "" && op.credentialId != "" && |op.hashes| == 8 &&
           (op.passwordHash != "" || a.passwordHash != "")
       else op.secret == "" && op.passwordHash == "" && a.secret != "" && (op.action == Rotate ==> |op.hashes| == 8))
  }

  ghost predicate OpsOk(a: AuthState, ops: map<string, Op>) {
    forall id | id in ops :: OpOk(a, ops[id])
  }

  /** An owner holds exactly the state that was stored at its generation. */
  ghost predicate OwnerOk(history: seq<AuthState>, o: Owner) {
    && 1 <= o.generation <= |history| && history[o.generation - 1] == o.auth
    && (o.auth.passwordHash != "" ==> o.enabled) && OpsOk(o.auth, o.ops)
  }

  predicate Past(a: AuthState, now: AuthState) {
    PolicyOk(a) && a.revision <= now.revision
  }

  ghost predicate RowOk(row: Row, history: seq<AuthState>) {
    row.generation == |history| >= 1 && history[|history| - 1] == row.state &&
    forall g | 0 <= g < |history| :: Past(history[g], row.state)
  }

  ghost predicate CommitsOk(commits: seq<nat>, revision: nat) {
    (forall k | 0 <= k < |commits| :: commits[k] < revision) &&
    (forall j, k | 0 <= j < k < |commits| :: commits[j] < commits[k])
  }

  ghost predicate Inv(w: World) {
    RowOk(w.row, w.history) && CommitsOk(w.commits, w.row.state.revision) && forall i | i in w.owners ::
        OwnerOk(w.history, w.owners[i])
  }

  // ------------------------------------------------------------- proof steps

  /** A state that may follow `a`: sound, and of no lower revision; at equal
      revision the enrolled credential and password are untouched. */
  predicate Follows(a: AuthState, b: AuthState) {
    PolicyOk(b) && a.revision <= b.revision &&
    (a.revision == b.revision ==>
        b.secret == a.secret && b.credentialId == a.credentialId &&
        b.passwordHash == a.passwordHash)
  }

  /** From owner `o` on `row` to owner `p` on `next`: either nothing was stored
      and the owner keeps its view, or the owner held the current state and a
      state that may follow it was stored, reported or not. */
  ghost predicate Fair(o: Owner, row: Row, p: Owner, next: Row) {
    && (next == row || (o.generation == row.generation && next.generation == row.generation + 1 &&
        (PolicyOk(o.auth) ==> Follows(o.auth, next.state))))
    && ((p.auth == o.auth && p.generation == o.generation) ||
        (next != row && p.auth == next.state && p.generation == next.generation))
    && (PolicyOk(o.auth) && (o.auth.passwordHash != "" ==> o.enabled) && OpsOk(o.auth, o.ops) ==>
          (p.auth.passwordHash != "" ==> p.enabled) && OpsOk(p.auth, p.ops))
  }

  function Settle(w: World, i: nat, o: Owner, row: Row): World {
    Move(w, row).(owners := w.owners[i := o])
  }

  lemma {:induction false} HistoryMoves(w: World, next: Row)
    requires Inv(w) && next.generation == w.row.generation + 1 && Follows(w.row.state, next.state)
    ensures Inv(Move(w, next))
  {
    var v := Move(w, next);
    assert Past(w.history[|w.history| - 1], w.row.state);
    forall i | i in v.owners ensures OwnerOk(v.history, v.owners[i]) { assert OwnerOk(w.history, w.owners[i]); }
  }

  lemma {:induction false} FairKeeps(w: World, i: nat, p: Owner, next: Row)
    requires Inv(w) && i in w.owners && Fair(w.owners[i], w.row, p, next)
    ensures Inv(Settle(w, i, p, next))
    ensures next != w.row ==> w.owners[i].auth == w.row.state && w.owners[i].auth.revision <= next.state.revision
  {
    var o := w.owners[i];
    assert OwnerOk(w.history, o) && Past(w.history[o.generation - 1], w.row.state);
    if next != w.row { HistoryMoves(w, next); }
    var v := Move(w, next);
    assert OwnerOk(v.history, p);
  }

  lemma {:induction false} OpsFollow(a: AuthState, b: AuthState, ops: map<string, Op>)
    requires OpsOk(a, ops) && Follows(a, b)
    ensures OpsOk(b, ops)
  {
    forall id | id in ops ensures OpOk(b, ops[id]) { assert OpOk(a, ops[id]); }
  }

  lemma {:induction false} PersistFair(o: Owner, row: Row, next: AuthState, fate: Fate)
    requires PolicyOk(o.auth) ==>
             Follows(o.auth, next) &&
             (next.passwordHash != "" ==> o.enabled || o.auth.passwordHash != "")
    ensures var p := Persist(o, row, next, fate); Fair(o, row, p.0, p.1)
  {
    if PolicyOk(o.auth) && OpsOk(o.auth, o.ops) { OpsFollow(o.auth, next, o.ops); }
  }

  lemma {:induction false} AttemptFollows(c: Crypto, policy: Policy, a: AuthState, code: string, recovery: string,
          now: int)
    requires PolicyOk(a)
    ensures var r := Attempt(c, policy, a, code, recovery, now);
            r.Ok? ==> Follows(a, r.value.0) && r.value.0.revision == a.revision
  {}

  lemma {:induction false} CommitFollows(c: Crypto, a: AuthState, op: Op)
    requires PolicyOk(a) && OpOk(a, op) && op.revision == a.revision && !op.committed
    ensures Follows(a, CommitNext(c, a, op)) && CommitNext(c, a, op).passwordHash != ""
    ensures op.action != Disable ==> |CommitNext(c, a, op).recoveryHashes| == 8
  {}

  lemma {:induction false} FactorFair(c: Crypto, policy: Policy, o: Owner, row: Row, code: string, recovery: string,
          now: int, fate: Fate)
    ensures var f := VerifyFactor(c, policy, o, row, code, recovery, now, fate);
            Fair(o, row, f.0, f.1) && f.0.auth.revision == o.auth.revision && f.0.enabled == o.enabled
  {
    var r := Attempt(c, policy, o.auth, code, recovery, now);
    if r.Ok? {
      if PolicyOk(o.auth) { AttemptFollows(c, policy, o.auth, code, recovery, now); }
      PersistFair(o, row, r.value.0, fate);
    }
  }

  ghost predicate FairTurn(o: Owner, row: Row, t: Turn) {
    Fair(o, row, t.owner, t.row)
  }

  lemma {:induction false} RecoverFair(o: Owner, row: Row, fate: Fate)
    ensures FairTurn(o, row, DoRecover(o, row, fate))
  {
    if PolicyOk(o.auth) && OpsOk(o.auth, o.ops) { OpsFollow(o.auth, RecoverNext(o.auth), o.ops); }
  }

  lemma {:induction false} AddFair(c: Crypto, o: Owner, row: Row, action: Action, q: Query)
    requires RealMaterial(q) && (action == Setup || o.auth.secret != "")
    ensures FairTurn(o, row, AddOp(c, o, row, action, q)) && AddOp(c, o, row, action, q).row == row
    ensures AddOp(c, o, row, action, q).owner.auth == o.auth &&
            AddOp(c, o, row, action, q).owner.generation == o.generation
  {
    if AddOp(c, o, row, action, q).reply.Ok? {
      assert OpOk(o.auth, NewOp(c, o.auth, q.binding, action, q.material.value, q.now));
    }
  }

  lemma {:induction false} ChangeFair(c: Crypto, policy: Policy, o: Owner, row: Row, action: Action, q: Query)
    requires RealMaterial(q) && PolicyOk(o.auth) && o.auth.secret != ""
    ensures FairTurn(o, row, Change(c, policy, o, row, action, q))
  {
    var f := VerifyFactor(c, policy, o, row, q.code, q.recovery, q.now, q.fate);
    FactorFair(c, policy, o, row, q.code, q.recovery, q.now, q.fate);
    if f.2.None? {
      AttemptFollows(c, policy, o.auth, q.code, q.recovery, q.now);
      AddFair(c, f.0, f.1, action, q);
    }
  }

  lemma {:induction false} BeginFair(c: Crypto, policy: Policy, o: Owner, row: Row, action: Action, q: Query)
    requires RealMaterial(q) && PolicyOk(o.auth)
    ensures FairTurn(o, row, DoBegin(c, policy, o, row, action, q))
  {
    if action == Setup {
      AddFair(c, o, row, action, q);
    } else if o.auth.secret != "" {
      ChangeFair(c, policy, o, row, action, q);
    }
  }

  lemma {:induction false} MissFair(policy: Policy, o: Owner, row: Row, before: nat, now: int, fate: Fate)
    ensures var p := Persist(o, row, Miss(policy, o.auth, before, now), fate); Fair(o, row, p.0, p.1)
  {
    PersistFair(o, row, Miss(policy, o.auth, before, now), fate);
  }

  lemma {:induction false} VerifiedFair(o: Owner, row: Row, id: string, step: int)
    requires id in o.ops
    ensures Fair(o, row, o.(ops := o.ops[id := o.ops[id].(step := step, verified := true)]), row)
  {
    if OpsOk(o.auth, o.ops) { assert OpOk(o.auth, o.ops[id]); }
  }

  lemma {:induction false} VerifyFair(c: Crypto, policy: Policy, o: Owner, row: Row, q: Query)
    requires q.operationId in o.ops
    ensures FairTurn(o, row, DoVerify(c, policy, o, row, q))
  {
    var step := MatchedStep(c, o.ops[q.operationId].secret, q.code, q.now);
    MissFair(policy, o, row, o.auth.failures, q.now, q.fate);
    if step.Some? { VerifiedFair(o, row, q.operationId, step.value); }
  }

  lemma {:induction false} CommitFair(c: Crypto, o: Owner, row: Row, q: Query)
    requires q.operationId in o.ops && PolicyOk(o.auth) && OpsOk(o.auth, o.ops)
    requires o.ops[q.operationId].revision == o.auth.revision && !o.ops[q.operationId].committed
    ensures FairTurn(o, row, DoCommit(c, o, row, q))
    ensures DoCommit(c, o, row, q).revokes ==> DoCommit(c, o, row, q).owner.enabled
  {
    var op := o.ops[q.operationId];
    assert OpOk(o.auth, op);
    CommitFollows(c, o.auth, op);
    OpsFollow(o.auth, CommitNext(c, o.auth, op), o.ops);
  }

  lemma {:induction false} OperationFair(c: Crypto, policy: Policy, o: Owner, row: Row, q: Query)
    requires PolicyOk(o.auth) && OpsOk(o.auth, o.ops) && (o.auth.passwordHash != "" ==> o.enabled)
    ensures FairTurn(o, row, DoOperation(c, policy, o, row, q))
    ensures DoOperation(c, policy, o, row, q).revokes ==> DoOperation(c, policy, o, row, q).owner.enabled
  {
    if q.operationId in o.ops {
      VerifyFair(c, policy, o, row, q);
      assert OpOk(o.auth, o.ops[q.operationId]);
      if o.ops[q.operationId].revision == o.auth.revision && !o.ops[q.operationId].committed {
        CommitFair(c, o, row, q);
      }
    }
  }

  lemma {:induction false} ExpireFair(o: Owner, row: Row, now: int)
    ensures OpsOk(o.auth, o.ops) ==> OpsOk(o.auth, Unexpired(o.ops, now))
  {}

  /** No turn of `Manage` stores anything unfair, and a turn that asks for the
      ordinary credentials to be revoked leaves the gate enabled. */
  lemma {:induction false} ManageFair(c: Crypto, policy: Policy, o: Owner, row: Row, q: Query)
    requires RealMaterial(q) && PolicyOk(o.auth) && OpsOk(o.auth, o.ops) && (o.auth.passwordHash != "" ==> o.enabled)
    ensures FairTurn(o, row, Manage(c, policy, o, row, q))
    ensures Manage(c, policy, o, row, q).revokes ==> Manage(c, policy, o, row, q).owner.enabled
  {
    var v := o.(ops := Unexpired(o.ops, q.now));
    ExpireFair(o, row, q.now);
    if row.generation != o.generation || q.request.Status? || q.request.Cancel? {
      assert forall id | id in v.ops :: OpOk(o.auth, v.ops[id]);
    } else if q.request.Recover? {
      RecoverFair(v, row, q.fate);
    } else if q.request.Begin? {
      BeginFair(c, policy, v, row, q.request.action, q);
    } else {
      OperationFair(c, policy, v, row, q);
    }
  }

  lemma {:induction false} WriteFair(o: Owner, row: Row, hash: string, fate: Fate)
    requires PolicyOk(o.auth) && OpsOk(o.auth, o.ops)
    ensures var p := WriteHash(o, row, hash, fate); Fair(o.(enabled := true), row, p.0.(enabled := true), p.1)
  {
    var next := o.auth.(passwordHash := hash, revision := o.auth.revision + 1);
    if o.auth.secret == "" && !o.auth.recoveryPending { OpsFollow(o.auth, next, o.ops); }
  }

  /** A turn asks for revocation exactly when it stored a new revision, and
      then the revision rises by one over the state the owner held. */
  predicate RevokesWithRevision(o: Owner, row: Row, t: Turn) {
    && (t.revokes <==> t.owner.auth.revision != o.auth.revision)
    && (t.revokes ==>
        t.owner.auth.revision == o.auth.revision + 1 && row.generation == o.generation &&
        t.row == Row(row.generation + 1, t.owner.auth))
    && (!t.revokes ==> t.owner.enabled == o.enabled && t.owner.passwordHash == o.passwordHash)
  }

  predicate Quiet(o: Owner, p: Owner) {
    p.auth.revision == o.auth.revision && p.enabled == o.enabled && p.passwordHash == o.passwordHash
  }

  lemma {:induction false} FactorIsQuiet(c: Crypto, policy: Policy, o: Owner, row: Row, code: string,
          recovery: string, now: int,
          fate: Fate)
    ensures Quiet(o, VerifyFactor(c, policy, o, row, code, recovery, now, fate).0)
  {}

  lemma {:induction false} AddIsQuiet(c: Crypto, o: Owner, row: Row, action: Action, q: Query)
    ensures var t := AddOp(c, o, row, action, q); !t.revokes && Quiet(o, t.owner)
  {}

  lemma {:induction false} BeginIsQuiet(c: Crypto, policy: Policy, o: Owner, row: Row, action: Action, q: Query)
    ensures var t := DoBegin(c, policy, o, row, action, q); !t.revokes && Quiet(o, t.owner)
  {
    var f := VerifyFactor(c, policy, o, row, q.code, q.recovery, q.now, q.fate);
    FactorIsQuiet(c, policy, o, row, q.code, q.recovery, q.now, q.fate);
    AddIsQuiet(c, o, row, action, q);
    AddIsQuiet(c, f.0, f.1, action, q);
  }

  lemma {:induction false} OperationRevokes(c: Crypto, policy: Policy, o: Owner, row: Row, q: Query)
    ensures RevokesWithRevision(o, row, DoOperation(c, policy, o, row, q))
    ensures DoOperation(c, policy, o, row, q).revokes ==> q.request.Commit?
  {}

  lemma {:induction false} ManageRevokes(c: Crypto, policy: Policy, o: Owner, row: Row, q: Query)
    ensures RevokesWithRevision(o, row, Manage(c, policy, o, row, q))
    ensures Manage(c, policy, o, row, q).revokes ==> q.request.Recover? || q.request.Commit?
  {
    var v := o.(ops := Unexpired(o.ops, q.now));
    if q.request.Begin? {
      BeginIsQuiet(c, policy, v, row, q.request.action, q);
    } else if q.request.Verify? || q.request.Commit? || q.request.Unknown? {
      OperationRevokes(c, policy, v, row, q);
    }
  }

  lemma {:induction false} CommitStores(c: Crypto, policy: Policy, o: Owner, row: Row, q: Query)
    requires q.request.Commit? && Manage(c, policy, o, row, q).row != row
    ensures o.generation == row.generation && Manage(c, policy, o, row, q).row.state.revision == o.auth.revision + 1
  {}

  lemma {:induction false} TurnKeeps(w: World, i: nat, t: Turn, based: seq<nat>)
    requires Inv(w) && i in w.owners && FairTurn(w.owners[i], w.row, t)
    requires based != [] ==> based == [w.owners[i].auth.revision] && t.row != w.row &&
                             t.row.state.revision == w.owners[i].auth.revision + 1
    ensures Inv(Settle(w, i, t.owner, t.row).(commits := w.commits + based))
  {
    FairKeeps(w, i, t.owner, t.row);
  }

  lemma {:induction false} ManagedKeeps(c: Crypto, policy: Policy, w: World, s: Step)
    requires Inv(w) && s.Managed? && Allowed(w, s)
    ensures Inv(After(c, policy, w, s))
  {
    var o := w.owners[s.i];
    assert OwnerOk(w.history, o) && Past(w.history[o.generation - 1], w.row.state);
    var t := Manage(c, policy, o, w.row, s.query);
    ManageFair(c, policy, o, w.row, s.query);
    if s.query.request == Commit && t.row != w.row { CommitStores(c, policy, o, w.row, s.query); }
    TurnKeeps(w, s.i, t, CommitsOf(w, s, t));
  }

  lemma {:induction false} StepKeeps(c: Crypto, policy: Policy, w: World, s: Step)
    requires Inv(w) && Allowed(w, s)
    ensures Inv(After(c, policy, w, s))
  {
    match s
    case Open(i) =>
      assert Past(w.history[|w.history| - 1], w.row.state) && OwnerOk(w.history, Opened(w.row));
    case Close(_) =>
    case Factor(i, code, recovery, now, fate) =>
      FactorFair(c, policy, w.owners[i], w.row, code, recovery, now, fate);
      FairKeeps(w, i, VerifyFactor(c, policy, w.owners[i], w.row, code, recovery, now, fate).0,
                VerifyFactor(c, policy, w.owners[i], w.row, code, recovery, now, fate).1);
    case Managed(_, _) => ManagedKeeps(c, policy, w, s);
    case Write(i, hash, fate) =>
      var o := w.owners[i];
      assert OwnerOk(w.history, o) && Past(w.history[o.generation - 1], w.row.state);
      WriteFair(o, w.row, hash, fate);
      var p := WriteHash(o, w.row, hash, fate);
      FairKeeps(w.(owners := w.owners[i := o.(enabled := true)]), i, p.0.(enabled := true), p.1);
  }

  // ---------------------------------------- what management does to factors

  /** Equal in everything that decides which factors count. */
  predicate SameFactors(a: AuthState, b: AuthState) {
    a.(passwordHash := "", revision := 0, recoveryPending := false) == b.(passwordHash := "", revision := 0,
        recoveryPending := false)
  }

  lemma {:induction false} FactorIsEvent(c: Crypto, policy: Policy, o: Owner, row: Row, code: string,
          recovery: string, now: int,
          fate: Fate)
    ensures VerifyFactor(c, policy, o, row, code, recovery, now, fate).0.auth ==
            Factors.After(c, policy, o.auth, TryFactor(code, recovery, now, Saved(row, o.generation, fate)))
    ensures VerifyFactor(c, policy, o, row, code, recovery, now, fate).2.None? <==>
            Accepts(c, policy, o.auth, TryFactor(code, recovery, now, Saved(row, o.generation, fate)))
  {}

  lemma {:induction false} VerifyIsEvent(c: Crypto, policy: Policy, o: Owner, row: Row, q: Query)
    requires q.operationId in o.ops
    ensures var a := DoVerify(c, policy, o, row, q).owner.auth;
            a == o.auth || a == Factors.After(c, policy, o.auth, SetupMiss(q.now))
  {}

  lemma {:induction false} BeginIsEvent(c: Crypto, policy: Policy, o: Owner, row: Row, action: Action, q: Query)
    ensures var a := DoBegin(c, policy, o, row, action, q).owner.auth;
            a == o.auth || a == Factors.After(c, policy, o.auth, TryFactor(q.code, q.recovery, q.now, true))
  {
    FactorIsEvent(c, policy, o, row, q.code, q.recovery, q.now, q.fate);
    var f := VerifyFactor(c, policy, o, row, q.code, q.recovery, q.now, q.fate);
    AddIsQuiet(c, o, row, action, q);
    AddIsQuiet(c, f.0, f.1, action, q);
    assert AddOp(c, o, row, action, q).owner.auth == o.auth && AddOp(c, f.0, f.1, action, q).owner.auth == f.0.auth;
  }

  /** What a commit of `op` leaves of the factors: a rotation replaces the
      recovery codes, a disabling drops everything but the last step, and an
      enrolment installs the new credential with its own code as spent. */
  predicate CommitsFactors(c: Crypto, policy: Policy, before: AuthState, op: Op, after: AuthState) {
    match op.action
    case Rotate => SameFactors(after, Factors.After(c, policy, before, RotateCodes(op.salt, op.hashes)))
    case Disable =>
      after.secret == "" && after.credentialId == "" && after.recoveryHashes == [] && after.recoverySalt == "" &&
      after.lastStep == before.lastStep && after.lastCodeUntil == before.lastCodeUntil
    case _ =>
      && after.secret == op.secret && after.credentialId == op.credentialId
      && after.recoverySalt == op.salt && after.recoveryHashes == op.hashes
      && after.lastStep == op.step && after.lastCodeUntil == (op.step + 2) * 30
      && (c.code(op.secret, op.step).Some? ==>
            after.lastCodeHash == c.digest(op.credentialId, c.code(op.secret, op.step).value))
      && after.failures == 0 && after.cooldownUntil == 0
  }

  /** One of the factor events that a request can amount to. */
  predicate MovedByEvent(c: Crypto, policy: Policy, before: AuthState, q: Query, after: AuthState) {
    || SameFactors(after, before)
    || (q.request.Begin? && after == Factors.After(c, policy, before, TryFactor(q.code, q.recovery, q.now, true)))
    || (q.request.Verify? && after == Factors.After(c, policy, before, SetupMiss(q.now)))
  }

  lemma {:induction false} CommitIsEvent(c: Crypto, policy: Policy, o: Owner, row: Row, q: Query)
    requires q.operationId in o.ops && OpOk(o.auth, o.ops[q.operationId])
    requires o.ops[q.operationId].revision == o.auth.revision && !o.ops[q.operationId].committed
    ensures var a := DoCommit(c, o, row, q).owner.auth;
            a == o.auth || CommitsFactors(c, policy, o.auth, o.ops[q.operationId], a)
  {}

  lemma {:induction false} OperationIsEvent(c: Crypto, policy: Policy, o: Owner, row: Row, q: Query)
    requires OpsOk(o.auth, o.ops)
    ensures
      var a := DoOperation(c, policy, o, row, q).owner.auth;
      || MovedByEvent(c, policy, o.auth, q, a)
      || (q.request.Commit? && q.operationId in o.ops && CommitsFactors(c, policy, o.auth, o.ops[q.operationId], a))
  {
    if q.operationId in o.ops {
      var op := o.ops[q.operationId];
      assert OpOk(o.auth, op);
      if q.request.Verify? {
        VerifyIsEvent(c, policy, o, row, q);
      } else if q.request.Commit? && op.revision == o.auth.revision && !op.committed {
        CommitIsEvent(c, policy, o, row, q);
      }
    }
  }

  /** Every turn of `Manage` moves the factors by one of the events of
      `Factors`, or by the commit of a pending operation. */
  lemma {:induction false} ManageIsFactorEvent(c: Crypto, policy: Policy, o: Owner, row: Row, q: Query)
    requires OpsOk(o.auth, o.ops)
    ensures
      var a := Manage(c, policy, o, row, q).owner.auth;
      || MovedByEvent(c, policy, o.auth, q, a)
      || (q.request.Commit? && q.operationId in o.ops && CommitsFactors(c, policy, o.auth, o.ops[q.operationId], a))
  {
    var v := o.(ops := Unexpired(o.ops, q.now));
    if row.generation == o.generation {
      ExpireFair(o, row, q.now);
      if q.request.Begin? {
        BeginIsEvent(c, policy, v, row, q.request.action, q);
      } else if q.request.Verify? || q.request.Commit? || q.request.Unknown? {
        OperationIsEvent(c, policy, v, row, q);
      }
    }
  }

  /** After a commit that enrols or rotates, the eight new recovery codes are
      the ones that count: over any factor events up to the next rotation, those
      accepted and those remaining stay at eight. */
  lemma {:induction false} EightCodesPerCommit(c: Crypto, policy: Policy, a: AuthState, op: Op,
          events: seq<FactorEvent>)
    requires PolicyOk(a) && OpOk(a, op) && op.revision == a.revision && !op.committed && op.action != Disable
    requires forall e | e in events :: !e.RotateCodes?
    ensures var b := CommitNext(c, a, op);
            |AcceptedRecoveries(c, policy, b, events)| + |Run(c, policy, b, events).recoveryHashes| == 8
  {
    CommitFollows(c, a, op);
    RecoveryCount(c, policy, CommitNext(c, a, op), events);
  }

  /** Every recovery code shown for an operation counts once it is committed. */
  lemma {:induction false} ShownCodesCount(c: Crypto, a: AuthState, binding: string, action: Action, m: Material,
          now: int, i: nat)
    requires action != Disable && i < |m.codes| && m.codes[i] != "" && c.normalizeRecovery(m.codes[i]) == m.codes[i]
    ensures TakesRecovery(c, CommitNext(c, a, NewOp(c, a, binding, action, m, now)), m.codes[i])
  {
    var op := NewOp(c, a, binding, action, m, now);
    assert op.hashes[i] == c.digest(m.salt, m.codes[i]);
  }

  /** The code that enrolled a credential is spent by the commit: afterwards
      only later steps count, and the same text not before its window ends. */
  lemma {:induction false} EnrolmentCodeIsSpent(c: Crypto, policy: Policy, a: AuthState, op: Op, shown: string,
          events: seq<FactorEvent>)
    requires Enrolls(op.action) && op.secret != "" && c.code(op.secret, op.step) == Some(shown)
    ensures var codes := AcceptedCodes(c, policy, CommitNext(c, a, op), events);
            Increasing(codes, op.step) && (codes != [] && codes[0].text == shown ==>
                codes[0].unix >= (op.step + 2) * 30)
  {
    var b := CommitNext(c, a, op);
    StepsIncrease(c, policy, b, events);
    NextIsNoReplay(c, policy, b, events, UsedCode(shown, op.step, 0));
  }

  ghost predicate AllowedRun(c: Crypto, policy: Policy, w: World, steps: seq<Step>)
    decreases steps
  {
    steps == [] || (Allowed(w, steps[0]) && AllowedRun(c, policy, After(c, policy, w, steps[0]), steps[1..]))
  }

  ghost function RunOf(c: Crypto, policy: Policy, w: World, steps: seq<Step>): World
    requires AllowedRun(c, policy, w, steps)
    decreases steps
  {
    if steps == [] then w else RunOf(c, policy, After(c, policy, w, steps[0]), steps[1..])
  }

  lemma {:induction false} RunKeeps(c: Crypto, policy: Policy, w: World, steps: seq<Step>)
    requires Inv(w) && AllowedRun(c, policy, w, steps)
    ensures Inv(RunOf(c, policy, w, steps))
    decreases steps
  {
    if steps != [] {
      StepKeeps(c, policy, w, steps[0]);
      RunKeeps(c, policy, After(c, policy, w, steps[0]), steps[1..]);
    }
  }

  /** The row as first initialized, holding the migrated verifier or none. */
  function Start(hash: string): World {
    World(Row(1, FirstState(hash)), [FirstState(hash)], map[], [])
  }

  /** What an owner holds in memory is what was stored at its generation, so it
      is the stored state whenever generations agree; every stored state passes
      the check made at open; no revision is the base of two stored commits. */
  ghost predicate Coherent(w: World) {
    && (forall i | i in w.owners ::
          1 <= w.owners[i].generation <= |w.history| && w.owners[i].auth == w.history[w.owners[i].generation - 1])
    && (forall i | i in w.owners && w.owners[i].generation == w.row.generation :: w.owners[i].auth == w.row.state)
    && (forall g | 0 <= g < |w.history| :: PolicyOk(w.history[g]))
    && (forall j, k | 0 <= j < k < |w.commits| :: w.commits[j] != w.commits[k])
  }

  lemma {:induction false} InvIsCoherent(w: World)
    requires Inv(w)
    ensures Coherent(w)
  {
    forall i | i in w.owners
      ensures 1 <= w.owners[i].generation <= |w.history| && w.owners[i].auth == w.history[w.owners[i].generation - 1]
    {
      assert OwnerOk(w.history, w.owners[i]);
    }
    forall g | 0 <= g < |w.history| ensures PolicyOk(w.history[g]) { assert Past(w.history[g], w.row.state); }
  }

  /** Coherent authority, over every run with any number of openers and any
      fate of their saves. */
  lemma {:induction false} AuthorityIsCoherent(c: Crypto, policy: Policy, hash: string, steps: seq<Step>)
    requires AllowedRun(c, policy, Start(hash), steps)
    ensures Coherent(RunOf(c, policy, Start(hash), steps))
  {
    RunKeeps(c, policy, Start(hash), steps);
    InvIsCoherent(RunOf(c, policy, Start(hash), steps));
  }

  /** The owner that takes a step, when one does. */
  predicate ActsAs(s: Step, i: nat) {
    !s.Open? && !s.Close? && s.i == i
  }

  lemma {:induction false} StoredByHolder(c: Crypto, policy: Policy, w: World, s: Step)
    requires Inv(w) && Allowed(w, s) && After(c, policy, w, s).row != w.row
    ensures !s.Open? && !s.Close? && s.i in w.owners && w.owners[s.i].auth == w.row.state
    ensures var row := After(c, policy, w, s).row;
            row.generation == w.row.generation + 1 &&
            w.row.state.revision <= row.state.revision
  {
    if s.Factor? || s.Managed? || s.Write? {
      var o := w.owners[s.i];
      assert OwnerOk(w.history, o) && Past(w.history[o.generation - 1], w.row.state);
      if s.Factor? {
        FactorFair(c, policy, o, w.row, s.code, s.recovery, s.now, s.fate);
      } else if s.Managed? {
        ManageFair(c, policy, o, w.row, s.query);
      } else {
        WriteFair(o, w.row, s.hash, s.fate);
      }
    }
  }

  /** No blind overwrite: whenever the row changes, the owner that stored held
      exactly the state it replaced, and the revision never falls. */
  lemma {:induction false} NoBlindOverwrite(c: Crypto, policy: Policy, hash: string, steps: seq<Step>, s: Step)
    requires AllowedRun(c, policy, Start(hash), steps)
    requires Allowed(RunOf(c, policy, Start(hash), steps), s)
    ensures
      var w := RunOf(c, policy, Start(hash), steps);
      var v := After(c, policy, w, s);
      v.row != w.row ==>
        && (exists i :: i in w.owners && ActsAs(s, i) && w.owners[i].auth == w.row.state)
        && v.row.generation == w.row.generation + 1 && w.row.state.revision <= v.row.state.revision
  {
    assert Inv(Start(hash));
    RunKeeps(c, policy, Start(hash), steps);
    var w := RunOf(c, policy, Start(hash), steps);
    if After(c, policy, w, s).row != w.row {
      StoredByHolder(c, policy, w, s);
      assert ActsAs(s, s.i);
    }
  }
}
