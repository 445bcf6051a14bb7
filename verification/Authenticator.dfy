/** The sections of `Gate` that run under `authMu`, as objects that change in
    place: the store's optimistic row, management, and password sign-in. The
    original keeps both locks' fields in one struct; here `Gate` holds those of
    `mu` and `Authenticator` those of `authMu`. Each method is proved against
    `Authority` and `SignIn`. */
module Authentication {
  import opened Basics
  import opened Credentials
  import opened Throttle
  import opened Factors
  import opened Authority
  import opened AccessGate
  import S = SignIn

  /** The database, shared by every opener. */
  class Cell {
    var row: Row

    constructor (row: Row)
      ensures this.row == row
    {
      this.row := row;
    }
  }

  class Store {
    const cell: Cell
    var generation: int

    constructor (cell: Cell)
      ensures this.cell == cell && generation == cell.row.generation
    {
      this.cell := cell;
      generation := cell.row.generation;
    }

    method Save(next: AuthState, fate: Fate) returns (ok: bool)
      modifies `generation, cell
      ensures cell.row == SaveRow(old(cell.row), old(generation), next, fate)
      ensures ok == Saved(old(cell.row), old(generation), fate)
      ensures generation == old(generation) + if ok then 1 else 0
    {
      if fate == Failed { return false; }
      if cell.row.generation != generation { return false; }
      cell.row := Row(cell.row.generation + 1, next);
      if fate == Lost { return false; }
      generation := generation + 1;
      return true;
    }
  }

  /** One password attempt as the throttle sees it. */
  datatype Typed = Typed(subject: string, correct: bool, read: int, at: int)

  /** Random tokens one call may draw; `None` when the source fails. */
  datatype Tokens = Tokens(token: Option<string>, session: Option<string>, resume: Option<string>)

  datatype Entry<T> = In(grant: T) | SecondFactorRequired(challenge: string)

  /** A reply that agrees with what the run model logs for the call. */
  predicate Agrees<T>(reply: Result<Entry<T>, S.SignInError>, wrap: T -> S.Grant, after: S.Desk) {
    var n := |after.log|;
    && (reply.Ok? && reply.value.In? <==> n > 0 && (after.log[n - 1].Granted? || after.log[n - 1].Returned?))
    && (reply.Ok? && reply.value.In? ==> after.log[n - 1].grant == wrap(reply.value.grant))
    && (reply.Ok? && reply.value.SecondFactorRequired? ==> after.used == {reply.value.challenge})
  }

  class Authenticator {
    const crypto: Crypto
    const gate: Gate
    const store: Store
    var auth: AuthState
    var passwordHash: string
    var challenges: map<string, S.Challenge>
    var management: map<string, Op>

    /** `OpenPersistent` once the store is open. */
    constructor (crypto: Crypto, gate: Gate, store: Store)
      requires gate.Valid() && store.generation == store.cell.row.generation
      modifies gate`enabled
      ensures Valid() && View() == Opened(store.cell.row) && challenges == map[]
      ensures this.crypto == crypto && this.gate == gate && this.store == store
    {
      this.crypto, this.gate, this.store := crypto, gate, store;
      auth := store.cell.row.state;
      passwordHash := store.cell.row.state.passwordHash;
      challenges, management := map[], map[];
      new;
      gate.enabled := auth.passwordHash != "" || auth.recoveryPending;
    }

    ghost predicate Valid()
      reads this, gate
    {
      gate.Valid()
    }

    /** The abstract owner that this object is. */
    function View(): Owner
      reads this, store, gate
    {
      Owner(auth, store.generation, management, gate.enabled, passwordHash)
    }

    ghost function Verdict0(p: Typed): Verdict
      reads this, gate
    {
      if gate.enabled then Judge(gate.failedAttempts, gate.policy, p.subject, p.correct, p.read, p.at).1 else Accepted
    }

    method PersistLocked(next: AuthState, fate: Fate) returns (ok: bool)
      modifies `auth, store`generation, store.cell
      ensures (View(), store.cell.row, ok) == Persist(old(View()), old(store.cell.row), next, fate)
    {
      ok := store.Save(next, fate);
      if ok { auth := next; }
    }

    method RecordMiss(before: nat, now: int, fate: Fate) returns (ok: bool)
      requires Valid()
      modifies `auth, store`generation, store.cell
      ensures (View(), store.cell.row, ok) == Persist(old(View()), old(store.cell.row),
              Miss(gate.policy, old(auth), before, now), fate)
    {
      var next := auth;
      next := next.(failures := before + 1, lastFailure := UnixMilli(now));
      var cooldown := Cooldown(gate.policy, before + 1);
      next := next.(cooldownUntil := UnixMilli(now + cooldown));
      ok := PersistLocked(next, fate);
    }

    /** The state after an accepted factor, or `None`. */
    method SpendFactor(code: string, recovery: string, now: int) returns (next: Option<AuthState>)
      ensures next == if Takes(crypto, auth, code, recovery, now) then Some(Spend(crypto, auth, code, recovery, now))
              else None
    {
      if recovery != "" {
        var rest, found := TakeRecoveryHash(auth.recoveryHashes, RecoveryHash(crypto, auth, recovery));
        return if found then Some(Calm(auth.(recoveryHashes := rest))) else None;
      }
      var matched := MatchingStep(crypto, auth.secret, code, now);
      if matched.None? || matched.value <= auth.lastStep { return None; }
      var hash := CodeHash(crypto, auth, code);
      if (hash != auth.lastCodeHash || Unix(now) >= auth.lastCodeUntil) && StepAt(now) >= auth.lastStep - 1 {
        return Some(Calm(auth.(lastStep := matched.value, lastCodeHash := hash,
            lastCodeUntil := (matched.value + 2) * 30)));
      }
      return None;
    }

    method VerifyFactorLocked(code: string, recovery: string, now: int, fate: Fate) returns (failure: Option<AuthError>)
      requires Valid()
      modifies `auth, store`generation, store.cell
      ensures (View(), store.cell.row, failure) ==
              VerifyFactor(crypto, gate.policy, old(View()), old(store.cell.row), code, recovery, now, fate)
    {
      if auth.secret == "" { return Some(SecondFactor); }
      if UnixMilli(now) < auth.cooldownUntil { return Some(FactorLimitedUntil(auth.cooldownUntil)); }
      var next := SpendFactor(code, recovery, now);
      if next.Some? {
        var stored := PersistLocked(next.value, fate);
        return if stored then None else Some(SaveFailed);
      }
      var before := auth.failures;
      if UnixMilli(now) - auth.lastFailure >= RETENTION / MILLISECOND && UnixMilli(now) >= auth.cooldownUntil {
        before := 0;
      }
      ghost var missed := MissFactor(gate.policy, auth, now);
      var ok := RecordMiss(before, now, fate);
      if !ok { return Some(SaveFailed); }
      assert auth == missed;
      if UnixMilli(now) < auth.cooldownUntil { return Some(FactorLimitedUntil(auth.cooldownUntil)); }
      return Some(SecondFactor);
    }

    /** `verifyPasswordForSubject`, which passes on a disabled gate. */
    method CheckPassword(p: Typed) returns (verdict: Verdict)
      requires Valid()
      modifies gate`channels, gate`resumeTokens, gate`failedAttempts
      ensures verdict == old(Verdict0(p))
      ensures gate.Tables() == if gate.enabled then Credentials.Sweep(old(gate.Tables()), p.read)
              else old(gate.Tables())
    {
      if !gate.enabled { return Accepted; }
      verdict := gate.VerifyPasswordForSubject(p.correct, p.subject, p.read, p.at);
    }

    // ---------------------------------------------------------- management

    method DropExpiredOperations(now: int)
      modifies `management
      ensures management == Unexpired(old(management), now)
    {
      var todo := management.Keys;
      while todo != {}
        invariant todo <= management.Keys <= old(management).Keys
        invariant forall k | k in management :: management[k] == old(management)[k]
        invariant forall k | k in old(management) && k !in todo :: k in management <==> now < old(management)[k].expires
        decreases |todo|
      {
        var k :| k in todo;
        todo := todo - {k};
        if now >= management[k].expires { management := management - {k}; }
      }
    }

    /** `revokeOrdinaryLocked`: the tables of the gate, and the challenges. */
    method RevokeOrdinaryLocked()
      modifies `challenges, gate`channels, gate`resumeTokens, gate`localSessions, gate`delegations, gate`revoked
      ensures gate.Tables() == Credentials.RevokeOrdinary(old(gate.Tables())) && challenges == map[]
    {
      gate.RevokeOrdinaryLocked();
      challenges := map[];
    }

    method DigestCodes(salt: string, codes: seq<string>) returns (hashes: seq<string>)
      ensures hashes == seq(|codes|, i requires 0 <= i < |codes| => crypto.digest(salt, codes[i]))
    {
      hashes := [];
      for i := 0 to |codes|
        invariant |hashes| == i && forall k | 0 <= k < i :: hashes[k] == crypto.digest(salt, codes[k])
      {
        hashes := hashes + [crypto.digest(salt, codes[i])];
      }
    }

    method AddOperation(action: Action, q: Query) returns (reply: Result<Reply, AuthError>)
      modifies `management
      ensures var t := AddOp(crypto, old(View()), store.cell.row, action, q);
              View() == t.owner && reply == t.reply &&
              store.cell.row == t.row
    {
      if NeedsPassword(auth) {
        if action != Setup { return Err(PendingRecovery); }
        if q.password == "" { return Err(PasswordNeeded); }
      }
      if q.material.None? { return Err(RandomSourceFailed); }
      var m := q.material.value;
      var op := Op(q.binding, action, "", "", "", "", [], [], auth.revision, q.now + 5 * MINUTE, false, -1, false);
      if Enrolls(action) {
        op := op.(secret := m.secret, credentialId := m.credentialId);
        if NeedsPassword(auth) {
          if m.hash.None? { return Err(BadPassword); }
          op := op.(passwordHash := m.hash.value);
        }
      } else {
        op := op.(verified := true);
      }
      if action != Disable {
        var hashes := DigestCodes(m.salt, m.codes);
        op := op.(salt := m.salt, codes := m.codes, hashes := hashes);
      }
      assert op.hashes == NewOp(crypto, auth, q.binding, action, m, q.now).hashes;
      management := management[m.id := op];
      return Ok(StatusOf(auth).(operationId := m.id, secret := op.secret, codes := if action == Rotate then op.codes
          else []));
    }

    /** A configured policy is changed only with the password and a factor. */
    method Reauthenticate(q: Query, p: Typed) returns (failure: Option<AuthError>)
      requires Valid()
      modifies `auth, store`generation, store.cell, gate`channels, gate`resumeTokens, gate`failedAttempts
      ensures Valid()
      ensures old(Verdict0(p)).Accepted? ==>
                (View(), store.cell.row, failure) ==
                VerifyFactor(crypto, gate.policy, old(View()), old(store.cell.row), q.code, q.recovery, q.now, q.fate)
      ensures !old(Verdict0(p)).Accepted? ==>
                View() == old(View()) && store.cell.row == old(store.cell.row) &&
                failure == Some(PasswordRefused(old(Verdict0(p))))
      ensures gate.Tables() == old(gate.Tables()) || gate.Tables() == Credentials.Sweep(old(gate.Tables()), p.read)
    {
      var verdict := CheckPassword(p);
      if !verdict.Accepted? { return Some(PasswordRefused(verdict)); }
      failure := VerifyFactorLocked(q.code, q.recovery, q.now, q.fate);
    }

    method ChangeConfirmed(action: Action, q: Query, p: Typed) returns (reply: Result<Reply, AuthError>)
      requires Valid()
      modifies `auth, `management, store`generation, store.cell, gate`channels, gate`resumeTokens, gate`failedAttempts
      ensures Valid()
      ensures var t := Change(crypto, gate.policy, old(View()), old(store.cell.row), action,
              q.(password0 := old(Verdict0(p))));
              View() == t.owner && store.cell.row == t.row && reply == t.reply
      ensures gate.Tables() == old(gate.Tables()) || gate.Tables() == Credentials.Sweep(old(gate.Tables()), p.read)
    {
      ghost var verdict := Verdict0(p);
      var failure := Reauthenticate(q, p);
      if failure.Some? { return Err(failure.value); }
      AddIgnoresPassword(crypto, View(), store.cell.row, action, q, verdict);
      reply := AddOperation(action, q);
    }

    method Begin(action: Action, q: Query, p: Typed) returns (reply: Result<Reply, AuthError>)
      requires Valid()
      modifies `auth, `management, store`generation, store.cell, gate`channels, gate`resumeTokens, gate`failedAttempts
      ensures Valid()
      ensures var t := DoBegin(crypto, gate.policy, old(View()), old(store.cell.row), action,
              q.(password0 := old(Verdict0(p))));
              View() == t.owner && store.cell.row == t.row && reply == t.reply
      ensures gate.Tables() == old(gate.Tables()) || gate.Tables() == Credentials.Sweep(old(gate.Tables()), p.read)
    {
      if |management| >= MAX_OPERATIONS { return Err(TooManyOperations); }
      if action == Setup && auth.secret != "" && !auth.recoveryPending { return Err(AlreadyConfigured); }
      if action != Setup && (auth.secret == "" || auth.recoveryPending) { return Err(SetupUnfinished); }
      if action == Setup {
        reply := AddOperation(action, q);
      } else {
        reply := ChangeConfirmed(action, q, p);
      }
    }

    method VerifyOperation(q: Query) returns (reply: Result<Reply, AuthError>)
      requires Valid() && q.operationId in management
      modifies `auth, `management, store`generation, store.cell
      ensures var t := DoVerify(crypto, gate.policy, old(View()), old(store.cell.row), q);
              View() == t.owner && store.cell.row == t.row && reply == t.reply
    {
      var op := management[q.operationId];
      if !Enrolls(op.action) { return Err(InvalidOperation); }
      if !op.verified {
        if UnixMilli(q.now) < auth.cooldownUntil { return Err(FactorLimitedUntil(auth.cooldownUntil)); }
        var step := MatchingStep(crypto, op.secret, q.code, q.now);
        if step.None? {
          var ok := RecordMiss(auth.failures, q.now, q.fate);
          return Err(if ok then SecondFactor else SaveFailed);
        }
        op := op.(step := step.value, verified := true);
        management := management[q.operationId := op];
      }
      return Ok(StatusOf(auth).(operationId := q.operationId, codes := op.codes));
    }

    /** The policy that a commit of `op` stores. */
    method NextPolicy(op: Op) returns (next: AuthState)
      ensures next == CommitNext(crypto, auth, op)
    {
      next := auth.(revision := auth.revision + 1);
      if op.action == Disable {
        return next.(secret := "", credentialId := "", recoverySalt := "", recoveryHashes := []);
      }
      next := next.(recoverySalt := op.salt, recoveryHashes := op.hashes);
      if op.secret != "" {
        var shown := crypto.code(op.secret, op.step);
        next := next.(secret := op.secret, credentialId := op.credentialId, lastStep := op.step,
                      lastCodeHash := crypto.digest(op.credentialId, if shown.Some? then shown.value else ""),
                      lastCodeUntil := (op.step + 2) * 30);
      }
      if op.passwordHash != "" { next := next.(passwordHash := op.passwordHash); }
      next := next.(recoveryPending := false, failures := 0, lastFailure := 0, cooldownUntil := 0);
    }

    method CommitOperation(q: Query) returns (reply: Result<Reply, AuthError>, revoked: bool)
      requires q.operationId in management
      modifies `auth, `management, `passwordHash, `challenges, store`generation, store.cell, gate
      ensures gate.failedAttempts == old(gate.failedAttempts)
      ensures var t := DoCommit(crypto, old(View()), old(store.cell.row), q);
              View() == t.owner && store.cell.row == t.row && reply == t.reply && revoked == t.revokes
      ensures gate.Tables() == if revoked then Credentials.RevokeOrdinary(old(gate.Tables())) else old(gate.Tables())
      ensures challenges == if revoked then map[] else old(challenges)
    {
      var op := management[q.operationId];
      if !op.verified || (op.action != Disable && !q.saved) { return Err(NotReady), false; }
      var next := NextPolicy(op);
      var ok := PersistLocked(next, q.fate);
      if !ok { return Err(SaveFailed), false; }
      passwordHash := next.passwordHash;
      gate.enabled := next.passwordHash != "";
      RevokeOrdinaryLocked();
      management := management[q.operationId :=
          op.(committed := true, secret := "", codes := [], hashes := [], passwordHash := "")];
      return Ok(StatusOf(auth)), true;
    }

    method Recover(q: Query) returns (reply: Result<Reply, AuthError>, revoked: bool)
      modifies `auth, `challenges, store`generation, store.cell, gate
      ensures gate.failedAttempts == old(gate.failedAttempts)
      ensures var t := DoRecover(old(View()), old(store.cell.row), q.fate);
              View() == t.owner && store.cell.row == t.row && reply == t.reply && revoked == t.revokes
      ensures gate.Tables() == if revoked then Credentials.RevokeOrdinary(old(gate.Tables())) else old(gate.Tables())
      ensures challenges == if revoked then map[] else old(challenges)
    {
      var ok := PersistLocked(auth.(recoveryPending := true, revision := auth.revision + 1), q.fate);
      if !ok { return Err(SaveFailed), false; }
      gate.enabled := true;
      RevokeOrdinaryLocked();
      return Ok(StatusOf(auth)), true;
    }

    /** The requests that address a pending operation. */
    method Operate(q: Query) returns (reply: Result<Reply, AuthError>, revoked: bool)
      requires Valid()
      modifies `auth, `management, `passwordHash, `challenges, store`generation, store.cell, gate
      ensures gate.failedAttempts == old(gate.failedAttempts)
      ensures var t := DoOperation(crypto, gate.policy, old(View()), old(store.cell.row), q);
              View() == t.owner && store.cell.row == t.row && reply == t.reply && revoked == t.revokes
      ensures gate.Tables() == if revoked then Credentials.RevokeOrdinary(old(gate.Tables())) else old(gate.Tables())
      ensures challenges == if revoked then map[] else old(challenges)
    {
      if q.operationId !in management || management[q.operationId].binding != q.binding {
        return Err(SetupExpired), false;
      }
      var op := management[q.operationId];
      if op.committed && q.request.Commit? { return Ok(StatusOf(auth)), false; }
      if op.revision != auth.revision { return Err(SettingsChanged), false; }
      revoked := false;
      if q.request.Verify? {
        reply := VerifyOperation(q);
      } else if q.request.Commit? {
        reply, revoked := CommitOperation(q);
      } else {
        reply := Err(UnknownAction);
      }
    }

    method Handle(q: Query, p: Typed) returns (reply: Result<Reply, AuthError>, revoked: bool)
      requires Valid()
      modifies this, store`generation, store.cell, gate
      ensures var t := Dispatch(crypto, gate.policy, old(View()), old(store.cell.row),
              q.(password0 := old(Verdict0(p))));
              View() == t.owner && store.cell.row == t.row && reply == t.reply && revoked == t.revokes
      ensures revoked ==> gate.Tables() == Credentials.RevokeOrdinary(old(gate.Tables())) && challenges == map[]
      ensures !revoked ==>
              (gate.Tables() == old(gate.Tables()) ||
              gate.Tables() == Credentials.Sweep(old(gate.Tables()), p.read)) && challenges == old(challenges)
    {
      revoked := false;
      if q.request.Status? {
        reply := Ok(StatusOf(auth));
      } else if q.request.Recover? {
        reply, revoked := Recover(q);
      } else if q.request.Cancel? {
        if q.operationId in management && management[q.operationId].binding == q.binding {
          management := management - {q.operationId};
        }
        reply := Ok(StatusOf(auth));
      } else if q.request.Begin? {
        reply := Begin(q.request.action, q, p);
      } else {
        OperationIgnoresPassword(crypto, gate.policy, View(), store.cell.row, q, Verdict0(p));
        reply, revoked := Operate(q);
      }
    }

    method Manage(q: Query, p: Typed) returns (reply: Result<Reply, AuthError>, revoked: bool)
      requires Valid()
      modifies this, store`generation, store.cell, gate
      ensures var t := Authority.Manage(crypto, gate.policy, old(View()), old(store.cell.row),
              q.(password0 := old(Verdict0(p))));
              View() == t.owner && store.cell.row == t.row && reply == t.reply && revoked == t.revokes
      ensures revoked ==> gate.Tables() == Credentials.RevokeOrdinary(old(gate.Tables())) && challenges == map[]
      ensures !revoked ==>
              (gate.Tables() == old(gate.Tables()) ||
              gate.Tables() == Credentials.Sweep(old(gate.Tables()), p.read)) && challenges == old(challenges)
    {
      if store.cell.row.generation != store.generation { return Err(RestartRequired), false; }
      DropExpiredOperations(q.now);
      reply, revoked := Handle(q, p);
    }

    // -------------------------------------------------------------- sign-in

    method DropStaleChallenges(now: int)
      modifies `challenges
      ensures challenges == S.LiveChallenges(old(challenges), now, auth.revision)
    {
      var todo := challenges.Keys;
      while todo != {}
        invariant todo <= challenges.Keys <= old(challenges).Keys
        invariant forall k | k in challenges :: challenges[k] == old(challenges)[k]
        invariant forall k | k in old(challenges) && k !in todo ::
                    k in challenges <==>
                        now < old(challenges)[k].expires &&
                        old(challenges)[k].revision == auth.revision
        decreases |todo|
      {
        var k :| k in todo;
        todo := todo - {k};
        if now >= challenges[k].expires || challenges[k].revision != auth.revision { challenges := challenges - {k}; }
      }
    }

    ghost predicate Tells(v: S.Verdicts, outcome: S.Outcome)
      reads this, store, store.cell, gate
    {
      View() == v.owner && store.cell.row == v.row && challenges == v.challenges && outcome == v.outcome
    }

    method AnswerChallenge(r: S.Asking, binding: string, x: S.Input) returns (outcome: S.Outcome)
      requires Valid()
      modifies `auth, `challenges, store`generation, store.cell
      ensures Tells(S.Answer(crypto, gate.policy, old(challenges), old(View()), old(store.cell.row), r, binding, x),
              outcome)
    {
      var id := r.challengeId;
      if id !in challenges || challenges[id].binding != binding { return S.Denied(S.ChallengeExpired); }
      var c := challenges[id];
      if c.local.Some? || c.channel.Some? || c.verified { return S.Proceed(Some(id)); }
      if c.attempts >= S.MAX_ATTEMPTS {
        challenges := challenges - {id};
        return S.Denied(S.ChallengeExpired);
      }
      if r.password != "" || (r.code != "" && r.recovery != "") { return S.Denied(S.FactorDenied(SecondFactor)); }
      var failure := VerifyFactorLocked(r.code, r.recovery, x.now, x.fate);
      if failure.Some? {
        c := c.(attempts := c.attempts + 1);
        challenges := if c.attempts >= S.MAX_ATTEMPTS then challenges - {id} else challenges[id := c];
        return S.Denied(S.FactorDenied(failure.value));
      }
      challenges := challenges[id := c.(verified := true)];
      return S.Proceed(Some(id));
    }

    /** The credential tables after a sign-in was judged: the check of a password
        sweeps them, and nothing else touches them. */
    ghost function Checked(r: S.Asking, p: Typed): Table
      reads this, gate
    {
      if gate.enabled && !auth.recoveryPending && r.challengeId == "" && r.code == "" && r.recovery == ""
      then Credentials.Sweep(gate.Tables(), p.read) else gate.Tables()
    }

    method AuthenticateLocked(r: S.Asking, binding: string, p: Typed, x: S.Input) returns (outcome: S.Outcome)
      requires Valid()
      modifies `auth, `challenges, store`generation, store.cell, gate`channels, gate`resumeTokens, gate`failedAttempts
      ensures Valid()
      ensures Tells(S.Authenticate(crypto, gate.policy, old(challenges), old(View()), old(store.cell.row), r, binding,
                                   x.(password := old(Verdict0(p)))), outcome)
      ensures gate.Tables() == old(Checked(r, p))
    {
      if auth.recoveryPending { return S.Denied(S.RecoveryInProgress); }
      DropStaleChallenges(x.now);
      if r.challengeId != "" {
        outcome := AnswerChallenge(r, binding, x);
        return;
      }
      if r.code != "" || r.recovery != "" { return S.Denied(S.ChallengeExpired); }
      var verdict := CheckPassword(p);
      if !verdict.Accepted? { return S.Denied(S.PasswordDenied(verdict)); }
      if auth.secret == "" { return S.Proceed(None); }
      if |challenges| >= S.MAX_CHALLENGES { return S.Denied(S.TooManyChallenges); }
      if x.newId.None? { return S.Denied(S.NoRandom); }
      challenges := challenges[x.newId.value :=
          S.Challenge(false, binding, auth.revision, x.now + S.CHALLENGE_TTL, 0, None, None)];
      return S.Challenged(x.newId.value);
    }

    method IssueLocal(scope: string, at: int, tokens: Tokens) returns (login: Result<Login, Credentials.Error>)
      modifies gate`channels, gate`resumeTokens, gate`localSessions, gate`failedAttempts
      ensures gate.enabled ==>
                (gate.Tables(), login) == Credentials.IssueLocal(old(gate.Tables()), gate.env, at, scope,
                    tokens.token, tokens.session, tokens.resume)
      ensures !gate.enabled ==> login == Ok(Login("", "", 0, "", 0)) && gate.Tables() == old(gate.Tables())
    {
      if !gate.enabled { return Ok(Login("", "", 0, "", 0)); }
      login := gate.IssueLocalSessionForScope(scope, at, tokens.token, tokens.session, tokens.resume);
    }

    /** The abstract desk this object is, with an empty log. */
    ghost function AtDesk(used: set<string>, log: seq<S.Event>): S.Desk
      reads this, store, gate
    {
      S.Desk(View(), challenges, used, log)
    }

    /** A repeated login was found in the tables under its own scope, and a new
        one is what the tables issue. */
    ghost predicate LoginFounded(t: Table, granted: Option<Login>, scope: string, at: int, tokens: Tokens,
            login: Result<Login, Credentials.Error>, valid: bool)
      reads this, gate
    {
      if granted.Some? then
        valid == (gate.enabled && Credentials.Resolve(t, gate.env, at, granted.value.sessionToken, scope).Some?)
      else if gate.enabled then
        (gate.Tables(), login) == Credentials.IssueLocal(t, gate.env, at, scope, tokens.token, tokens.session,
            tokens.resume)
      else login == Ok(Login("", "", 0, "", 0)) && gate.Tables() == t
    }

    /** A repeated unlock was found open, and a new one is what the tables issue. */
    ghost predicate UnlockFounded(t: Table, granted: Option<Unlock>, channel: string, at: int, tokens: Tokens,
            unlock: Result<Unlock, Credentials.Error>, valid: bool)
      reads this, gate
    {
      if granted.Some? then valid == StillOpen(t, channel, at) && gate.Tables() == t
      else if gate.enabled then
        (gate.Tables(), unlock) == Credentials.IssueChannel(t, gate.env, at, channel, tokens.session, tokens.resume)
      else unlock == Ok(Unlock("", Never)) && gate.Tables() == t
    }

    method DeliverLocal(via: Option<string>, scope: string, at: int, tokens: Tokens, ghost s: S.Call,
            ghost judged: S.Desk)
      returns (reply: Result<Entry<Login>, S.SignInError>, login: Result<Login, Credentials.Error>, valid: bool)
      requires s.Local? && (via.Some? ==> via.value in challenges) && judged == AtDesk(judged.used, judged.log)
      requires S.Quiet(judged.log)
      modifies `challenges, gate`channels, gate`resumeTokens, gate`localSessions, gate`failedAttempts
      ensures var v := S.Deliver(judged, s.(login := login, valid := valid), via);
              View() == v.owner && challenges == v.challenges && Agrees(reply, g => S.LocalGrant(g), v)
      ensures LoginFounded(old(gate.Tables()), if via.Some? then old(challenges)[via.value].local else None, scope, at,
                           tokens, login, valid)
      ensures reply.Ok? ==> reply.value.In?
      ensures store.cell.row == old(store.cell.row)
    {
      login, valid := Err(MissingArgument), false;
      if via.Some? && challenges[via.value].local.Some? {
        var granted := challenges[via.value].local.value;
        var found := gate.ResolveLocalSessionForScope(granted.sessionToken, scope, at);
        valid := found.Some?;
        return if valid then Ok(In(granted)) else Err(S.ChallengeExpired), login, valid;
      }
      login := IssueLocal(scope, at, tokens);
      if login.Err? { return Err(S.IssueFailed(login.error)), login, valid; }
      if via.Some? { challenges := challenges[via.value := challenges[via.value].(local := Some(login.value))]; }
      return Ok(In(login.value)), login, valid;
    }

    /** A user who signs in by password and factor: `login` is what the tables
        issued when this call issued, and `valid` whether an earlier grant was
        still usable. */
    method SignInLocal(r: S.Asking, binding: string, scope: string, p: Typed, x: S.Input, at: int, tokens: Tokens)
      returns (reply: Result<Entry<Login>, S.SignInError>, login: Result<Login, Credentials.Error>, valid: bool)
      requires Valid() && S.ValidRequest(r) && r.delegation == r.resumeToken == ""
      modifies `auth, `challenges, store`generation, store.cell,
               gate`channels, gate`resumeTokens, gate`localSessions, gate`failedAttempts
      ensures var s := S.Local(r, scope, binding, x.(password := old(Verdict0(p))), old(store.cell.row), login, valid);
              var v := S.After(crypto, gate.policy, old(AtDesk({}, [])), s);
              View() == v.owner && challenges == v.challenges && Agrees(reply, g => S.LocalGrant(g), v)
      ensures var s := S.Local(r, scope, binding, x.(password := old(Verdict0(p))), old(store.cell.row), login, valid);
              var v := S.Asked(crypto, gate.policy, old(AtDesk({}, [])), s);
              v.outcome.Proceed? ==>
                LoginFounded(old(Checked(r, p)), S.LoginOf(v), scope, at, tokens, login, valid)
    {
      login, valid := Err(MissingArgument), false;
      ghost var s := S.Local(r, scope, binding, x.(password := Verdict0(p)), store.cell.row, login, valid);
      ghost var judged := S.Judged(crypto, gate.policy, AtDesk({}, []), s);
      ghost var desk := AtDesk({}, []);
      ghost var v := S.Asked(crypto, gate.policy, desk, s);
      S.JudgedThenDelivered(crypto, gate.policy, desk, s, s);
      var outcome := AuthenticateLocked(r, S.LocalBinding(scope, binding), p, x);
      assert outcome == v.outcome;
      match outcome
      case Denied(error) => reply := Err(error);
      case Challenged(id) => reply := Ok(SecondFactorRequired(id));
      case Proceed(via) => reply, login, valid := DeliverLocal(via, scope, at, tokens, s, judged);
      S.JudgedThenDelivered(crypto, gate.policy, desk, s, s.(login := login, valid := valid));
    }

    method AuthenticateLocalForScope(r: S.Asking, binding: string, scope: string, p: Typed, x: S.Input, at: int,
            tokens: Tokens)
      returns (reply: Result<Entry<Login>, S.SignInError>, login: Result<Login, Credentials.Error>, valid: bool)
      requires Valid()
      modifies `auth, `challenges, store`generation, store.cell,
               gate`channels, gate`resumeTokens, gate`localSessions, gate`failedAttempts
      ensures var s := S.Local(r, scope, binding, x.(password := old(Verdict0(p))), old(store.cell.row), login, valid);
              var v := S.After(crypto, gate.policy, old(AtDesk({}, [])), s);
              View() == v.owner && challenges == v.challenges && Agrees(reply, g => S.LocalGrant(g), v)
      ensures var s := S.Local(r, scope, binding, x.(password := old(Verdict0(p))), old(store.cell.row), login, valid);
              var v := S.Asked(crypto, gate.policy, old(AtDesk({}, [])), s);
              S.Authenticates(s) && v.outcome.Proceed? ==>
                LoginFounded(old(Checked(r, p)), S.LoginOf(v), scope, at, tokens, login, valid)
    {
      login, valid := Err(MissingArgument), false;
      if !S.ValidRequest(r) || r.delegation != "" || r.resumeToken != "" {
        return Err(S.ChallengeExpired), login, valid;
      }
      reply, login, valid := SignInLocal(r, binding, scope, p, x, at, tokens);
    }

    method IssueUnlock(channel: string, at: int, tokens: Tokens) returns (unlock: Result<Unlock, Credentials.Error>)
      modifies gate`channels, gate`resumeTokens, gate`failedAttempts
      ensures gate.enabled ==>
                (gate.Tables(), unlock) == Credentials.IssueChannel(old(gate.Tables()), gate.env, at, channel,
                    tokens.session, tokens.resume)
      ensures !gate.enabled ==> unlock == Ok(Unlock("", Never)) && gate.Tables() == old(gate.Tables())
    {
      if !gate.enabled { return Ok(Unlock("", Never)); }
      unlock := gate.IssueChannel(channel, at, tokens.session, tokens.resume);
    }

    method DeliverChannel(via: Option<string>, channel: string, at: int, tokens: Tokens, ghost s: S.Call,
            ghost judged: S.Desk)
      returns (reply: Result<Entry<Unlock>, S.SignInError>, unlock: Result<Unlock, Credentials.Error>, valid: bool)
      requires s.Channel? && (via.Some? ==> via.value in challenges) && judged == AtDesk(judged.used, judged.log)
      requires S.Quiet(judged.log)
      modifies `challenges, gate`channels, gate`resumeTokens, gate`failedAttempts
      ensures var v := S.Deliver(judged, s.(unlock := unlock, valid := valid), via);
              View() == v.owner && challenges == v.challenges && Agrees(reply, g => S.ChannelGrant(g), v)
      ensures UnlockFounded(old(gate.Tables()), if via.Some? then old(challenges)[via.value].channel else None, channel,
                            at, tokens, unlock, valid)
      ensures reply.Ok? ==> reply.value.In?
      ensures store.cell.row == old(store.cell.row)
    {
      unlock, valid := Err(MissingArgument), false;
      if via.Some? && challenges[via.value].channel.Some? {
        var granted := challenges[via.value].channel.value;
        valid := StillOpen(gate.Tables(), channel, at);
        return if valid then Ok(In(granted)) else Err(S.ChallengeExpired), unlock, valid;
      }
      unlock := IssueUnlock(channel, at, tokens);
      if unlock.Err? { return Err(S.IssueFailed(unlock.error)), unlock, valid; }
      if via.Some? { challenges := challenges[via.value := challenges[via.value].(channel := Some(unlock.value))]; }
      return Ok(In(unlock.value)), unlock, valid;
    }

    /** A channel that signs in by password and factor. */
    method SignInChannel(channel: string, r: S.Asking, p: Typed, x: S.Input, at: int, tokens: Tokens)
      returns (reply: Result<Entry<Unlock>, S.SignInError>, unlock: Result<Unlock, Credentials.Error>, valid: bool)
      requires Valid() && S.ValidRequest(r) && r.delegation == r.resumeToken == ""
      modifies `auth, `challenges, store`generation, store.cell, gate`channels, gate`resumeTokens, gate`failedAttempts
      ensures var s := S.Channel(r, channel, x.(password := old(Verdict0(p))), old(store.cell.row), unlock, valid);
              var v := S.After(crypto, gate.policy, old(AtDesk({}, [])), s);
              View() == v.owner && challenges == v.challenges && Agrees(reply, g => S.ChannelGrant(g), v)
      ensures var s := S.Channel(r, channel, x.(password := old(Verdict0(p))), old(store.cell.row), unlock, valid);
              var v := S.Asked(crypto, gate.policy, old(AtDesk({}, [])), s);
              v.outcome.Proceed? ==>
                UnlockFounded(old(Checked(r, p)), S.UnlockOf(v), channel, at, tokens, unlock, valid)
    {
      unlock, valid := Err(MissingArgument), false;
      ghost var s := S.Channel(r, channel, x.(password := Verdict0(p)), store.cell.row, unlock, valid);
      ghost var judged := S.Judged(crypto, gate.policy, AtDesk({}, []), s);
      ghost var desk := AtDesk({}, []);
      ghost var v := S.Asked(crypto, gate.policy, desk, s);
      S.JudgedThenDelivered(crypto, gate.policy, desk, s, s);
      var outcome := AuthenticateLocked(r, S.ChannelBinding(channel), p, x);
      assert outcome == v.outcome;
      match outcome
      case Denied(error) => reply := Err(error);
      case Challenged(id) => reply := Ok(SecondFactorRequired(id));
      case Proceed(via) => reply, unlock, valid := DeliverChannel(via, channel, at, tokens, s, judged);
      S.JudgedThenDelivered(crypto, gate.policy, desk, s, s.(unlock := unlock, valid := valid));
    }

    /** A delegation or a resume token is handled by the tables alone. */
    method AuthenticateChannel(channel: string, r: S.Asking, p: Typed, x: S.Input, at: int, tokens: Tokens)
      returns (reply: Result<Entry<Unlock>, S.SignInError>, unlock: Result<Unlock, Credentials.Error>, valid: bool)
      requires Valid()
      modifies `auth, `challenges, store`generation, store.cell,
               gate`channels, gate`resumeTokens, gate`delegations, gate`failedAttempts
      ensures var s := S.Channel(r, channel, x.(password := old(Verdict0(p))), old(store.cell.row), unlock, valid);
              var v := S.After(crypto, gate.policy, old(AtDesk({}, [])), s);
              View() == v.owner && challenges == v.challenges &&
                  (S.Authenticates(s) ==> Agrees(reply, g => S.ChannelGrant(g), v))
      ensures var s := S.Channel(r, channel, x.(password := old(Verdict0(p))), old(store.cell.row), unlock, valid);
              var v := S.Asked(crypto, gate.policy, old(AtDesk({}, [])), s);
              S.Authenticates(s) && v.outcome.Proceed? ==>
                UnlockFounded(old(Checked(r, p)), S.UnlockOf(v), channel, at, tokens, unlock, valid)
      ensures S.ValidRequest(r) && r.delegation != "" ==>
                (gate.Tables(), unlock) == Credentials.Consume(old(gate.Tables()), gate.env, at, channel,
                    r.delegation, tokens.resume)
      ensures S.ValidRequest(r) && r.resumeToken != "" && gate.enabled ==>
                gate.Tables() == Credentials.Resume(old(gate.Tables()), gate.env, at, channel, r.resumeToken).0
    {
      unlock, valid := Err(MissingArgument), false;
      if !S.ValidRequest(r) { return Err(S.ChallengeExpired), unlock, valid; }
      if r.delegation != "" {
        unlock := gate.ConsumeCodeSpaceLocked(channel, r.delegation, at, tokens.resume);
        return if unlock.Ok? then Ok(In(unlock.value)) else Err(S.IssueFailed(unlock.error)), unlock, valid;
      }
      if r.resumeToken != "" {
        if !gate.enabled { return Ok(In(Unlock("", Never))), unlock, valid; }
        var failure := gate.ResumeChannel(channel, r.resumeToken, at);
        return if failure.None? then Ok(In(Unlock("", Never))) else Err(S.IssueFailed(failure.value)), unlock, valid;
      }
      reply, unlock, valid := SignInChannel(channel, r, p, x, at, tokens);
    }
  }

  lemma {:induction false} AddIgnoresPassword(c: Crypto, o: Owner, row: Row, action: Action, q: Query, verdict: Verdict)
    ensures AddOp(c, o, row, action, q.(password0 := verdict)) == AddOp(c, o, row, action, q)
  {}

  lemma {:induction false} OperationIgnoresPassword(c: Crypto, policy: Policy, o: Owner, row: Row, q: Query, v: Verdict)
    ensures DoOperation(c, policy, o, row, q) == DoOperation(c, policy, o, row, q.(password0 := v))
  {}
}
