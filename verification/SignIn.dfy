/** Password login with a second factor: challenges, and over whole runs the
    proof that every grant is backed by both factors and issued once. */
module SignIn {
  import opened Basics
  import opened Credentials
  import opened Throttle
  import opened Factors
  import opened Authority

  datatype Challenge = Challenge(verified: bool, binding: string, revision: nat, expires: int, attempts: nat,
                                 local: Option<Login>, channel: Option<Unlock>)

  datatype Asking = Asking(password: string, delegation: string, resumeToken: string, challengeId: string,
                           code: string, recovery: string)

  datatype SignInError =
    | ChallengeExpired | RecoveryInProgress | PasswordDenied(verdict: Verdict) | FactorDenied(error: AuthError)
    | TooManyChallenges | NoRandom | IssueFailed(cause: Credentials.Error)

  const MAX_ATTEMPTS: nat := 5
  const MAX_CHALLENGES: nat := 256
  const CHALLENGE_TTL: int := 5 * MINUTE

  function One(present: bool): nat { if present then 1 else 0 }

  /** `AuthenticationRequest.valid`: bounded fields, one mechanism, and a code
      only to answer a challenge. */
  predicate ValidRequest(r: Asking) {
    && |r.password| <= 1024 && |r.challengeId| <= 128 && |r.code| <= 32 && |r.recovery| <= 128
    && |r.delegation| <= 128 && |r.resumeToken| <= 128
    && One(r.password != "") + One(r.challengeId != "") + One(r.delegation != "") + One(r.resumeToken != "") <= 1
    && (r.code == "" || r.recovery == "") && ((r.code == "" && r.recovery == "") || r.challengeId != "")
  }

  /** A valid request uses at most one of the four mechanisms, and gives a time code
      or a recovery code, never both, only together with a challenge. */
  lemma {:induction false} ValidExactly(r: Asking)
    ensures ValidRequest(r) <==>
              && |r.password| <= 1024 && |r.challengeId| <= 128 && |r.code| <= 32 && |r.recovery| <= 128
              && |r.delegation| <= 128 && |r.resumeToken| <= 128
              && !(r.password != "" && r.challengeId != "") && !(r.password != "" && r.delegation != "")
              && !(r.password != "" && r.resumeToken != "") && !(r.challengeId != "" && r.delegation != "")
              && !(r.challengeId != "" && r.resumeToken != "") && !(r.delegation != "" && r.resumeToken != "")
              && !(r.code != "" && r.recovery != "") && (r.challengeId == "" ==> r.code == "" && r.recovery == "")
  {}

  datatype Outcome = Proceed(challenge: Option<string>) | Challenged(id: string) | Denied(error: SignInError)

  datatype Verdicts = Verdicts(challenges: map<string, Challenge>, owner: Owner, row: Row, outcome: Outcome)

  /** What one call sees from outside: the clock, the password verdict, a fresh
      challenge id and the fate of a factor save. */
  datatype Input = Input(now: int, password: Verdict, newId: Option<string>, fate: Fate)

  function LiveChallenges(cs: map<string, Challenge>, now: int, revision: nat): map<string, Challenge> {
    map id | id in cs && now < cs[id].expires && cs[id].revision == revision :: cs[id]
  }

  function Answer(c: Crypto, policy: Policy, cs: map<string, Challenge>, o: Owner, row: Row, r: Asking,
          binding: string, x: Input): Verdicts {
    var id := r.challengeId;
    if id !in cs || cs[id].binding != binding then Verdicts(cs, o, row, Denied(ChallengeExpired))
    else
      var ch := cs[id];
      if ch.local.Some? || ch.channel.Some? || ch.verified then Verdicts(cs, o, row, Proceed(Some(id)))
      else if ch.attempts >= MAX_ATTEMPTS then Verdicts(cs - {id}, o, row, Denied(ChallengeExpired))
      else if r.password != "" || (r.code != "" && r.recovery != "")
          then Verdicts(cs, o, row, Denied(FactorDenied(SecondFactor)))
      else
        var f := VerifyFactor(c, policy, o, row, r.code, r.recovery, x.now, x.fate);
        if f.2.None? then Verdicts(cs[id := ch.(verified := true)], f.0, f.1, Proceed(Some(id)))
        else
          var left := if ch.attempts + 1 >= MAX_ATTEMPTS then cs - {id} else cs[id := ch.(attempts := ch.attempts + 1)];
          Verdicts(left, f.0, f.1, Denied(FactorDenied(f.2.value)))
  }

  /** `authenticateLocked`. */
  function Authenticate(c: Crypto, policy: Policy, all: map<string, Challenge>, o: Owner, row: Row, r: Asking,
          binding: string, x: Input): Verdicts {
    if o.auth.recoveryPending then Verdicts(all, o, row, Denied(RecoveryInProgress))
    else
      var cs := LiveChallenges(all, x.now, o.auth.revision);
      if r.challengeId != "" then Answer(c, policy, cs, o, row, r, binding, x)
      else if r.code != "" || r.recovery != "" then Verdicts(cs, o, row, Denied(ChallengeExpired))
      else if o.enabled && !x.password.Accepted? then Verdicts(cs, o, row, Denied(PasswordDenied(x.password)))
      else if o.auth.secret == "" then Verdicts(cs, o, row, Proceed(None))
      else if |cs| >= MAX_CHALLENGES then Verdicts(cs, o, row, Denied(TooManyChallenges))
      else if x.newId.None? then Verdicts(cs, o, row, Denied(NoRandom))
      else
        var ch := Challenge(false, binding, o.auth.revision, x.now + CHALLENGE_TTL, 0, None, None);
        Verdicts(cs[x.newId.value := ch], o, row, Challenged(x.newId.value))
  }

  function LocalBinding(scope: string, binding: string): string {
    "local:" + scope + ":" + binding
  }

  function ChannelBinding(channel: string): string {
    "channel:" + channel
  }

  // ------------------------------------------------------------------- runs

  datatype Grant = LocalGrant(login: Login) | ChannelGrant(unlock: Unlock)

  datatype Event =
    | PasswordPassed(id: string, binding: string, revision: nat, at: int)
    | FactorPassed(id: string, binding: string, revision: nat, at: int)
    | FactorFailed(id: string, at: int)
    | Granted(via: Option<string>, binding: string, revision: nat, grant: Grant, guarded: bool, at: int)
    | Returned(id: string, grant: Grant, at: int)

  /** The authenticating side of the gate, with the log that explains it. */
  datatype Desk = Desk(owner: Owner, challenges: map<string, Challenge>, used: set<string>, log: seq<Event>)

  /** One section under `authMu`. `row` is the stored row as the section meets
      it, `issued` what the credential tables make of an issue, and `valid`
      whether an earlier grant of the challenge can still be used. */
  datatype Call =
    | Local(request: Asking, scope: string, binding: string, input: Input, row: Row, login: Result<Login,
    Credentials.Error>, valid: bool)
    | Channel(request: Asking, channel: string, input: Input, row: Row, unlock: Result<Unlock, Credentials.Error>,
    valid: bool)
    | Managing(query: Query, row: Row)

  /** Challenge ids are new, and management draws real random material. */
  predicate Admissible(w: Desk, s: Call) {
    match s
    case Managing(q, _) => RealMaterial(q)
    case _ => s.input.newId.Some? ==> s.input.newId.value !in w.used && s.input.newId.value != ""
  }

  function BindingOf(s: Call): string
    requires !s.Managing?
  {
    if s.Local? then LocalBinding(s.scope, s.binding) else ChannelBinding(s.channel)
  }

  /** The grant an earlier call stored in the challenge, for this kind of call. */
  function StoredGrant(s: Call, ch: Challenge): Option<Grant> {
    if s.Local? && ch.local.Some? then Some(LocalGrant(ch.local.value))
    else if s.Channel? && ch.channel.Some? then Some(ChannelGrant(ch.channel.value)) else None
  }

  function IssuedGrant(s: Call): Option<Grant> {
    if s.Local? && s.login.Ok? then Some(LocalGrant(s.login.value))
    else if s.Channel? && s.unlock.Ok? then Some(ChannelGrant(s.unlock.value)) else None
  }

  function WithGrant(ch: Challenge, g: Grant): Challenge {
    match g
    case LocalGrant(login) => ch.(local := Some(login))
    case ChannelGrant(unlock) => ch.(channel := Some(unlock))
  }

  function Asked(c: Crypto, policy: Policy, w: Desk, s: Call): Verdicts
    requires !s.Managing?
  {
    Authenticate(c, policy, w.challenges, w.owner, s.row, s.request, BindingOf(s), s.input)
  }

  /** A call after authentication: hand out the stored grant while it is
      usable, or issue one and remember it. */
  function Deliver(x: Desk, s: Call, via: Option<string>): Desk
    requires !s.Managing? && (via.Some? ==> via.value in x.challenges)
  {
    var revision, guarded, at := x.owner.auth.revision, x.owner.auth.secret != "", s.input.now;
    match via
    case None =>
      if IssuedGrant(s).Some? then x.(log := x.log +
          [Granted(None, BindingOf(s), revision, IssuedGrant(s).value, guarded, at)]) else x
    case Some(id) =>
      var ch := x.challenges[id];
      if StoredGrant(s, ch).Some? then
        if s.valid then x.(log := x.log + [Returned(id, StoredGrant(s, ch).value, at)]) else x
      else if IssuedGrant(s).Some? then
        var g := IssuedGrant(s).value;
        x.(challenges := x.challenges[id := WithGrant(ch, g)],
           log := x.log + [Granted(Some(id), BindingOf(s), revision, g, guarded, at)] + [Returned(id, g, at)])
      else x
  }

  /** The factor attempt that a call amounts to, as it meets the stored row. */
  function TriedFactor(w: Desk, s: Call): FactorEvent
    requires !s.Managing?
  {
    TryFactor(s.request.code, s.request.recovery, s.input.now, Saved(s.row, w.owner.generation, s.input.fate))
  }

  /** A call that puts a factor to a challenge of its binding and of the policy
      in force, inside the challenge's life and before it is verified. */
  predicate Tries(w: Desk, s: Call)
    requires !s.Managing?
  {
    var id := s.request.challengeId;
    && id != "" && id in w.challenges && !w.owner.auth.recoveryPending
    && var ch := w.challenges[id];
       && ch.binding == BindingOf(s) && ch.revision == w.owner.auth.revision && s.input.now < ch.expires
       && !ch.verified && ch.local.None? && ch.channel.None?
  }

  /** What a call proves, judged by its inputs and by `Factors` alone: a correct
      password under the challenge it is issued, a factor that counts for the
      unverified challenge it answers, or one that does not. */
  function Noted(c: Crypto, policy: Policy, w: Desk, s: Call, outcome: Outcome): seq<Event>
    requires !s.Managing?
  {
    var revision, id := w.owner.auth.revision, s.request.challengeId;
    if outcome.Challenged? && w.owner.enabled && s.input.password.Accepted?
    then [PasswordPassed(outcome.id, BindingOf(s), revision, s.input.now)]
    else if outcome == Proceed(Some(id)) && id in w.challenges && !w.challenges[id].verified &&
            Accepts(c, policy, w.owner.auth, TriedFactor(w, s))
    then [FactorPassed(id, BindingOf(s), revision, s.input.now)]
    else if Tries(w, s) && !Accepts(c, policy, w.owner.auth, TriedFactor(w, s)) then [FactorFailed(id, s.input.now)]
    else []
  }

  /** Only requests that name no other mechanism reach authentication. */
  predicate Authenticates(s: Call) {
    !s.Managing? && ValidRequest(s.request) && s.request.delegation == "" && s.request.resumeToken == ""
  }

  function Judged(c: Crypto, policy: Policy, w: Desk, s: Call): Desk
    requires !s.Managing?
  {
    var v := Asked(c, policy, w, s);
    Desk(v.owner, v.challenges, w.used + (if v.outcome.Challenged? then {v.outcome.id} else {}),
         w.log + Noted(c, policy, w, s, v.outcome))
  }

  function After(c: Crypto, policy: Policy, w: Desk, s: Call): Desk {
    if s.Managing? then
      var t := Manage(c, policy, w.owner, s.row, s.query);
      w.(owner := t.owner, challenges := if t.revokes then map[] else w.challenges)
    else if !Authenticates(s) then w
    else
      var v := Asked(c, policy, w, s);
      if v.outcome.Proceed? && (v.outcome.challenge.Some? ==> v.outcome.challenge.value in v.challenges)
      then Deliver(Judged(c, policy, w, s), s, v.outcome.challenge)
      else Judged(c, policy, w, s)
  }

  // -------------------------------------------------------------- invariant

  /** The password passed under this challenge, at `since`, before position `n`. */
  ghost predicate Knew(log: seq<Event>, n: nat, id: string, binding: string, revision: nat, since: int) {
    exists i | 0 <= i < n && i < |log| :: log[i] == PasswordPassed(id, binding, revision, since)
  }

  /** The password and then, within the challenge's life, the factor passed
      before position `n`. */
  ghost predicate Proved(log: seq<Event>, n: nat, id: string, binding: string, revision: nat, since: int) {
    exists j | 0 <= j < n && j < |log| ::
      log[j].FactorPassed? && log[j] == FactorPassed(id, binding, revision, log[j].at) &&
      log[j].at < since + CHALLENGE_TTL && Knew(log, j, id, binding, revision, since)
  }

  /** The failed factors entered under a challenge. */
  function Failures(log: seq<Event>, id: string): nat {
    if log == [] then 0
    else
      var e := log[|log| - 1];
      Failures(log[..|log| - 1], id) + (if e.FactorFailed? && e.id == id then 1 else 0)
  }

  predicate KindFits(ch: Challenge) {
    (ch.local.Some? ==> HasPrefix(ch.binding, "local:")) && (ch.channel.Some? ==> HasPrefix(ch.binding, "channel:"))
  }

  ghost predicate ChallengeOk(w: Desk, id: string) {
    && Failures(w.log, id) <= MAX_ATTEMPTS && (id !in w.used ==> Failures(w.log, id) == 0)
    && (id in w.challenges ==>
      var ch := w.challenges[id];
      && id in w.used && Knew(w.log, |w.log|, id, ch.binding, ch.revision, ch.expires - CHALLENGE_TTL) && KindFits(ch)
      && ch.attempts == Failures(w.log, id) < MAX_ATTEMPTS
      && (ch.local.Some? || ch.channel.Some? ==> ch.verified)
      && (ch.verified ==> Proved(w.log, |w.log|, id, ch.binding, ch.revision, ch.expires - CHALLENGE_TTL)))
  }

  predicate Holds(ch: Challenge, g: Grant) {
    match g
    case LocalGrant(login) => ch.local == Some(login)
    case ChannelGrant(unlock) => ch.channel == Some(unlock)
  }

  /** The challenge whose grant this entry issues or repeats. */
  function Concerns(e: Event): Option<string> {
    match e
    case Granted(via, _, _, _, _, _) => via
    case Returned(id, _, _) => Some(id)
    case _ => None
  }

  /** The challenge that this entry answers: tries, verifies, grants or repeats. */
  function Answers(e: Event): Option<string> {
    match e
    case FactorPassed(id, _, _, _) => Some(id)
    case FactorFailed(id, _) => Some(id)
    case _ => Concerns(e)
  }

  /** The challenge was issued before position `n` and is still alive at `at`. */
  ghost predicate InLife(log: seq<Event>, n: nat, id: string, at: int) {
    exists i | 0 <= i < n && i < |log| ::
      log[i].PasswordPassed? && log[i].id == id && at < log[i].at + CHALLENGE_TTL
  }

  /** The entry at `k` is justified by what came before it, and a grant given
      through a challenge stays stored in it. */
  ghost predicate EntryOk(w: Desk, k: nat) {
    k < |w.log| ==>
      var e := w.log[k];
      && (e.Granted? && e.via.None? ==> !e.guarded)
      && (e.Granted? && e.via.Some? ==>
          (exists since ::
            Proved(w.log, k, e.via.value, e.binding, e.revision, since) && e.at < since + CHALLENGE_TTL))
      && (Answers(e).Some? ==>
          var id := Answers(e).value;
          id in w.used && InLife(w.log, k, id, e.at) && Failures(w.log[..k], id) < MAX_ATTEMPTS)
      && (Concerns(e).Some? && Concerns(e).value in w.challenges ==> Holds(w.challenges[Concerns(e).value], e.grant))
      && (e.PasswordPassed? ==> e.id in w.used)
  }

  /** Two entries about one challenge agree, it is granted only once, and no two
      passwords open the same challenge. */
  predicate PairOk(log: seq<Event>, j: nat, k: nat) {
    j < k < |log| ==>
      && (Concerns(log[j]).Some? && Concerns(log[j]) == Concerns(log[k]) ==>
          log[j].grant == log[k].grant && log[k].Returned?)
      && (log[j].PasswordPassed? && log[k].PasswordPassed? ==> log[j].id != log[k].id)
  }

  /** The policy held in memory is one an opener accepts. */
  ghost predicate OwnerSound(o: Owner) {
    PolicyOk(o.auth) && OpsOk(o.auth, o.ops) && (o.auth.passwordHash != "" ==> o.enabled)
  }

  ghost predicate Inv(w: Desk) {
    OwnerSound(w.owner) && (forall id :: ChallengeOk(w, id)) && (forall k :: EntryOk(w, k)) &&
        (forall j, k :: PairOk(w.log, j, k))
  }

  // ------------------------------------------------------------------ proofs

  lemma {:induction false} FairIsSound(o: Owner, row: Row, p: Owner, next: Row)
    requires OwnerSound(o) && Fair(o, row, p, next)
    ensures OwnerSound(p)
  {}

  lemma {:induction false} LongerLog(log: seq<Event>, more: seq<Event>, n: nat, id: string, binding: string,
          revision: nat, since: int)
    ensures n <= |log| && Knew(log, n, id, binding, revision, since) ==>
            Knew(log + more, n, id, binding, revision, since) &&
            Knew(log + more, |log + more|, id, binding, revision, since)
    ensures n <= |log| && Proved(log, n, id, binding, revision, since) ==>
            Proved(log + more, n, id, binding, revision, since) &&
            Proved(log + more, |log + more|, id, binding, revision, since)
  {
    if n <= |log| && Knew(log, n, id, binding, revision, since) {
      var i :| 0 <= i < n && log[i] == PasswordPassed(id, binding, revision, since);
      assert (log + more)[i] == log[i];
    }
    if n <= |log| && Proved(log, n, id, binding, revision, since) {
      var j :| 0 <= j < n && log[j].FactorPassed? && log[j] == FactorPassed(id, binding, revision, log[j].at) &&
               log[j].at < since + CHALLENGE_TTL && Knew(log, j, id, binding, revision, since);
      var i :| 0 <= i < j && log[i] == PasswordPassed(id, binding, revision, since);
      assert (log + more)[j] == log[j] && (log + more)[i] == log[i];
      assert Knew(log + more, j, id, binding, revision, since);
    }
  }

  lemma {:induction false} LongerFailures(log: seq<Event>, e: Event, id: string)
    ensures Failures(log + [e], id) == Failures(log, id) + (if e.FactorFailed? && e.id == id then 1 else 0)
  {
    assert (log + [e])[..|log|] == log;
  }

  /** An entry stays justified as the log grows, while its grant stays stored. */
  lemma {:induction false} EntryStays(x: Desk, y: Desk, more: seq<Event>, k: nat)
    requires k < |x.log| && EntryOk(x, k) && y.log == x.log + more && x.used <= y.used
    requires var of := Concerns(x.log[k]);
             of.Some? && of.value in y.challenges ==> Holds(y.challenges[of.value], x.log[k].grant)
    ensures EntryOk(y, k)
  {
    var e := x.log[k];
    assert y.log[k] == e && y.log[..k] == x.log[..k];
    if e.Granted? && e.via.Some? {
      var since :| Proved(x.log, k, e.via.value, e.binding, e.revision, since) && e.at < since + CHALLENGE_TTL;
      LongerLog(x.log, more, k, e.via.value, e.binding, e.revision, since);
    }
    if Answers(e).Some? {
      var i :| 0 <= i < k && x.log[i].PasswordPassed? && x.log[i].id == Answers(e).value &&
               e.at < x.log[i].at + CHALLENGE_TTL;
      assert y.log[i] == x.log[i];
    }
  }

  /** One entry moves a challenge by what it says: a failure counts in it, a
      passed factor verifies it, and anything else leaves both as they are. */
  predicate MovesBy(was: Challenge, ch: Challenge, e: Event, id: string) {
    && ch == was.(verified := ch.verified, attempts := ch.attempts, local := ch.local, channel := ch.channel)
    && KindFits(ch) && (ch.local.Some? || ch.channel.Some? ==> ch.verified) && ch.attempts < MAX_ATTEMPTS
    && ch.attempts == was.attempts + (if e.FactorFailed? && e.id == id then 1 else 0)
    && (ch.verified && !was.verified ==>
        e.FactorPassed? && e == FactorPassed(id, ch.binding, ch.revision, e.at) && e.at < ch.expires)
  }

  /** A challenge stays explained as the log grows by one entry. */
  lemma {:induction false} ChallengeStays(x: Desk, y: Desk, e: Event, id: string)
    requires ChallengeOk(x, id) && y.log == x.log + [e] && x.used <= y.used
    requires e.FactorFailed? && e.id == id ==> id in x.challenges
    requires id in y.challenges ==> id in x.challenges && MovesBy(x.challenges[id], y.challenges[id], e, id)
    ensures ChallengeOk(y, id)
  {
    LongerFailures(x.log, e, id);
    if id in y.challenges {
      var ch := y.challenges[id];
      var since := ch.expires - CHALLENGE_TTL;
      LongerLog(x.log, [e], |x.log|, id, ch.binding, ch.revision, since);
      if ch.verified && !x.challenges[id].verified {
        var j := |x.log|;
        assert y.log[j] == e;
        assert Knew(y.log, j, id, ch.binding, ch.revision, since);
      }
    }
  }

  /** A new challenge is explained by the password that opens it. */
  lemma {:induction false} ChallengeOpens(x: Desk, y: Desk, e: Event, id: string)
    requires ChallengeOk(x, id) && id !in x.used && e.PasswordPassed? && e.id == id && y.log == x.log + [e]
    requires id in y.used
    requires id in y.challenges ==>
               y.challenges[id] == Challenge(false, e.binding, e.revision, e.at + CHALLENGE_TTL, 0, None, None)
    ensures ChallengeOk(y, id)
  {
    LongerFailures(x.log, e, id);
    assert y.log[|x.log|] == e;
  }

  /** The challenge is in its life and of the policy in force. */
  predicate Alive(w: Desk, id: string, now: int) {
    id in w.challenges && now < w.challenges[id].expires && w.challenges[id].revision == w.owner.auth.revision
  }

  predicate Settled(ch: Challenge) { ch.verified || ch.local.Some? || ch.channel.Some? }

  /** An answer goes through exactly for a challenge of this binding and policy,
      inside its life, that is settled or has a try left for a factor that
      counts and is stored. */
  lemma {:induction false} AnswerProceedsExactly(c: Crypto, policy: Policy, w: Desk, s: Call)
    requires Authenticates(s) && s.request.challengeId != ""
    ensures
      var v, id := Asked(c, policy, w, s), s.request.challengeId;
      && !v.outcome.Challenged? && v.owner.auth.revision == w.owner.auth.revision
      && (v.outcome.Proceed? ==> v.outcome == Proceed(Some(id)))
      && (v.outcome.Proceed? <==>
          && !w.owner.auth.recoveryPending && id in w.challenges && w.challenges[id].binding == BindingOf(s)
          && w.challenges[id].revision == w.owner.auth.revision && s.input.now < w.challenges[id].expires
          && (Settled(w.challenges[id]) ||
              (w.challenges[id].attempts < 5 && Accepts(c, policy, w.owner.auth, TriedFactor(w, s)))))
  {
    FactorIsEvent(c, policy, w.owner, s.row, s.request.code, s.request.recovery, s.input.now, s.input.fate);
  }

  lemma {:induction false} AnsweredExactly(c: Crypto, policy: Policy, w: Desk, s: Call, cs: map<string, Challenge>,
          id: string)
    requires Authenticates(s) && s.request.challengeId != "" && id in cs
    ensures
      var after := Answer(c, policy, cs, w.owner, s.row, s.request, BindingOf(s), s.input).challenges;
      if id != s.request.challengeId || cs[id].binding != BindingOf(s) || Settled(cs[id]) then
        id in after && after[id] == cs[id]
      else if cs[id].attempts < 5 && Accepts(c, policy, w.owner.auth, TriedFactor(w, s)) then
        id in after && after[id] == cs[id].(verified := true)
      else if cs[id].attempts < 4 then id in after && after[id] == cs[id].(attempts := cs[id].attempts + 1)
      else id !in after
  {
    FactorIsEvent(c, policy, w.owner, s.row, s.request.code, s.request.recovery, s.input.now, s.input.fate);
  }

  /** What an answer makes of each challenge: those past their life or of another
      policy go, the one tried turns verified or counts the failure and goes
      with its fifth, and the others stay as they are. */
  lemma {:induction false} AnswerMovesExactly(c: Crypto, policy: Policy, w: Desk, s: Call, id: string)
    requires Authenticates(s) && s.request.challengeId != "" && !w.owner.auth.recoveryPending
    ensures
      var cs, was := Asked(c, policy, w, s).challenges, w.challenges;
      var tried := id == s.request.challengeId && Tries(w, s);
      if !Alive(w, id, s.input.now) then id !in cs
      else if !tried then id in cs && cs[id] == was[id]
      else if was[id].attempts < 5 && Accepts(c, policy, w.owner.auth, TriedFactor(w, s)) then
        id in cs && cs[id] == was[id].(verified := true)
      else if was[id].attempts < 4 then id in cs && cs[id] == was[id].(attempts := was[id].attempts + 1)
      else id !in cs
  {
    var cs := LiveChallenges(w.challenges, s.input.now, w.owner.auth.revision);
    if id in cs { AnsweredExactly(c, policy, w, s, cs, id); }
  }

  /** A request without a challenge id is challenged exactly when its password is
      right, a secret is set, fewer than 256 challenges are alive and an id
      could be drawn; it goes through exactly when the password is right and
      no secret is set. */
  lemma {:induction false} PasswordProceedsExactly(c: Crypto, policy: Policy, w: Desk, s: Call)
    requires Authenticates(s) && s.request.challengeId == ""
    ensures
      var v, now := Asked(c, policy, w, s), s.input.now;
      var passed := !w.owner.auth.recoveryPending && (w.owner.enabled ==> s.input.password.Accepted?);
      && v.owner == w.owner
      && (v.outcome.Proceed? <==> passed && w.owner.auth.secret == "")
      && (v.outcome.Proceed? ==> v.outcome == Proceed(None))
      && (v.outcome.Challenged? <==>
          passed && w.owner.auth.secret != "" && s.input.newId.Some? &&
          |set id | id in w.challenges && Alive(w, id, now)| < 256)
      && (v.outcome.Challenged? ==>
          s.input.newId == Some(v.outcome.id) && v.outcome.id in v.challenges &&
          v.challenges[v.outcome.id] ==
              Challenge(false, BindingOf(s), w.owner.auth.revision, now + 5 * MINUTE, 0, None, None))
      && (forall id | v.outcome != Challenged(id) ::
          (id in v.challenges ==> id in w.challenges && v.challenges[id] == w.challenges[id]) &&
          (!w.owner.auth.recoveryPending ==> (id in v.challenges <==> Alive(w, id, now))))
  {
    assert ValidRequest(s.request) && s.request.code == "" && s.request.recovery == "";
    var live := LiveChallenges(w.challenges, s.input.now, w.owner.auth.revision);
    assert live.Keys == set id | id in w.challenges && Alive(w, id, s.input.now);
    assert |live| == |live.Keys|;
  }

  /** A challenge is issued, and a login goes on without one, only under the
      correct password of an enabled gate, and without one only where no second
      factor is set. */
  lemma {:induction false} PasswordWasAsked(c: Crypto, policy: Policy, w: Desk, s: Call)
    requires Authenticates(s)
    ensures
      var v := Asked(c, policy, w, s);
      && (v.outcome.Challenged? ==> w.owner.auth.secret != "" && s.input.newId == Some(v.outcome.id))
      && (v.outcome == Proceed(None) ==> v.owner == w.owner && w.owner.auth.secret == "")
      && (v.outcome.Challenged? || v.outcome == Proceed(None) ==> w.owner.enabled ==> s.input.password.Accepted?)
  {}

  /** A challenge turns verified only for a factor that counts, and the factor
      is spent by it. */
  lemma {:induction false} FactorWasAsked(c: Crypto, policy: Policy, w: Desk, s: Call, id: string)
    requires Authenticates(s) && id in w.challenges && !w.challenges[id].verified
    ensures
      var v := Asked(c, policy, w, s);
      id in v.challenges && v.challenges[id].verified && v.outcome != Challenged(id) ==>
        && id == s.request.challengeId && v.outcome == Proceed(Some(id))
        && Accepts(c, policy, w.owner.auth, TriedFactor(w, s))
        && v.owner.auth == Factors.After(c, policy, w.owner.auth, TriedFactor(w, s))
  {
    FactorIsEvent(c, policy, w.owner, s.row, s.request.code, s.request.recovery, s.input.now, s.input.fate);
  }

  lemma {:induction false} AskedIsSound(c: Crypto, policy: Policy, w: Desk, s: Call)
    requires Authenticates(s) && OwnerSound(w.owner)
    ensures OwnerSound(Asked(c, policy, w, s).owner)
  {
    FactorFair(c, policy, w.owner, s.row, s.request.code, s.request.recovery, s.input.now, s.input.fate);
  }

  /** Authentication proceeds through a challenge only if it is one of this
      binding and revision that is verified or has already granted. */
  predicate ThroughChallenge(w: Desk, s: Call, v: Verdicts)
    requires !s.Managing?
  {
    v.outcome.Proceed? && v.outcome.challenge.Some? ==>
      var id := v.outcome.challenge.value;
      && id in w.challenges && id in v.challenges && v.challenges[id].binding == BindingOf(s)
      && v.challenges[id].revision == v.owner.auth.revision && s.input.now < v.challenges[id].expires
      && (v.challenges[id].verified || v.challenges[id].local.Some? || v.challenges[id].channel.Some?)
  }

  lemma {:induction false} AskedThrough(c: Crypto, policy: Policy, w: Desk, s: Call)
    requires Authenticates(s)
    ensures ThroughChallenge(w, s, Asked(c, policy, w, s))
  {
    FactorIsQuiet(c, policy, w.owner, s.row, s.request.code, s.request.recovery, s.input.now, s.input.fate);
  }

  /** The login or unlock already stored in the challenge a call goes through. */
  function LoginOf(v: Verdicts): Option<Login> {
    if v.outcome.Proceed? && v.outcome.challenge.Some? && v.outcome.challenge.value in v.challenges
    then v.challenges[v.outcome.challenge.value].local else None
  }

  function UnlockOf(v: Verdicts): Option<Unlock> {
    if v.outcome.Proceed? && v.outcome.challenge.Some? && v.outcome.challenge.value in v.challenges
    then v.challenges[v.outcome.challenge.value].channel else None
  }

  /** Nothing is granted yet where a call is only judged. */
  predicate Quiet(log: seq<Event>) { log != [] ==> !log[|log| - 1].Granted? && !log[|log| - 1].Returned? }

  lemma {:induction false} NotedIsQuiet(c: Crypto, policy: Policy, w: Desk, s: Call, outcome: Outcome)
    requires !s.Managing?
    ensures Quiet(Noted(c, policy, w, s, outcome))
  {}

  /** A call is judged before it is known what it will be issued, and goes on
      only through a stored challenge. */
  lemma {:induction false} JudgedThenDelivered(c: Crypto, policy: Policy, w: Desk, s: Call, t: Call)
    requires Authenticates(s) && w.log == []
    requires s.Local? ==> t.Local? && t == s.(login := t.login, valid := t.valid)
    requires s.Channel? ==> t.Channel? && t == s.(unlock := t.unlock, valid := t.valid)
    ensures Asked(c, policy, w, t) == Asked(c, policy, w, s) && Quiet(Judged(c, policy, w, s).log)
    ensures var v := Asked(c, policy, w, s);
            var via := if v.outcome.Proceed? then v.outcome.challenge else None;
            && (via.Some? ==> via.value in v.challenges)
            && After(c, policy, w, t) ==
                   if v.outcome.Proceed? then Deliver(Judged(c, policy, w, s), t, via) else Judged(c, policy, w, s)
  {
    AskedThrough(c, policy, w, s);
    NotedIsQuiet(c, policy, w, s, Asked(c, policy, w, s).outcome);
    assert TriedFactor(w, s) == TriedFactor(w, t) && BindingOf(s) == BindingOf(t);
  }

  /** All that authentication promises of its outcome. */
  lemma {:induction false} AskedOutcome(c: Crypto, policy: Policy, w: Desk, s: Call)
    requires Authenticates(s) && OwnerSound(w.owner)
    ensures
      var v := Asked(c, policy, w, s);
      && OwnerSound(v.owner) && ThroughChallenge(w, s, v)
      && (v.outcome.Challenged? ==>
          w.owner.enabled && s.input.password.Accepted? &&
          s.input.newId == Some(v.outcome.id))
      && (v.outcome == Proceed(None) ==> v.owner.auth.secret == "" && (w.owner.enabled ==> s.input.password.Accepted?))
      && (forall id | id in w.challenges && !w.challenges[id].verified && id in v.challenges &&
          v.challenges[id].verified &&
                      v.outcome != Challenged(id) ::
            Accepts(c, policy, w.owner.auth, TriedFactor(w, s)))
  {
    var v := Asked(c, policy, w, s);
    AskedIsSound(c, policy, w, s);
    AskedThrough(c, policy, w, s);
    PasswordWasAsked(c, policy, w, s);
    forall id | id in w.challenges && !w.challenges[id].verified && id in v.challenges && v.challenges[id].verified &&
                v.outcome != Challenged(id)
      ensures Accepts(c, policy, w.owner.auth, TriedFactor(w, s))
    {
      FactorWasAsked(c, policy, w, s, id);
    }
  }

  lemma {:induction false} NotedMoves(c: Crypto, policy: Policy, w: Desk, s: Call, id: string)
    requires Inv(w) && Authenticates(s) && s.request.challengeId != "" && !w.owner.auth.recoveryPending
    ensures
      var v := Asked(c, policy, w, s);
      var note := Noted(c, policy, w, s, v.outcome);
      && (note == [] ==> id in v.challenges ==> id in w.challenges && v.challenges[id] == w.challenges[id])
      && (note != [] ==>
          && note == [note[0]] && (note[0].FactorFailed? && note[0].id == id ==> id in w.challenges)
          && (id in v.challenges ==>
              id in w.challenges && MovesBy(w.challenges[id], v.challenges[id], note[0], id)))
  {
    AnswerProceedsExactly(c, policy, w, s);
    AnswerMovesExactly(c, policy, w, s, id);
    AnswerMovesExactly(c, policy, w, s, s.request.challengeId);
    assert ChallengeOk(w, id) && ChallengeOk(w, s.request.challengeId);
  }

  lemma {:induction false} AnsweredChallenge(c: Crypto, policy: Policy, w: Desk, s: Call, id: string)
    requires Inv(w) && Authenticates(s) && s.request.challengeId != "" && !w.owner.auth.recoveryPending
    ensures ChallengeOk(Judged(c, policy, w, s), id)
  {
    var x := Judged(c, policy, w, s);
    var note := Noted(c, policy, w, s, Asked(c, policy, w, s).outcome);
    assert ChallengeOk(w, id);
    NotedMoves(c, policy, w, s, id);
    if note == [] { assert x.log == w.log; } else { ChallengeStays(w, x, note[0], id); }
  }

  /** A password that opens the challenge `made`, if any, keeps the account. */
  lemma {:induction false} OpeningKeeps(w: Desk, x: Desk, e: Event, made: Option<string>, id: string)
    requires ChallengeOk(w, id) && e.PasswordPassed? && w.used <= x.used
    requires made.None? ==> x.log == w.log && x.used == w.used
    requires made.Some? ==> e.id == made.value && made.value !in w.used && made.value in x.used &&
                              x.log == w.log + [e]
    requires id in x.challenges ==>
      if made == Some(id) then
        x.challenges[id] == Challenge(false, e.binding, e.revision, e.at + CHALLENGE_TTL, 0, None, None)
      else id in w.challenges && x.challenges[id] == w.challenges[id]
    ensures ChallengeOk(x, id)
  {
    if made == Some(id) { ChallengeOpens(w, x, e, id); } else if made.Some? { ChallengeStays(w, x, e, id); }
  }

  lemma {:induction false} PassedChallenge(c: Crypto, policy: Policy, w: Desk, s: Call, id: string)
    requires Inv(w) && Admissible(w, s) && Authenticates(s) && s.request.challengeId == ""
    ensures ChallengeOk(Judged(c, policy, w, s), id)
  {
    var v := Asked(c, policy, w, s);
    var x := Judged(c, policy, w, s);
    var made := if v.outcome.Challenged? then Some(v.outcome.id) else None;
    var e := PasswordPassed(if made.Some? then made.value else "", BindingOf(s), w.owner.auth.revision,
        s.input.now);
    PasswordProceedsExactly(c, policy, w, s);
    PasswordWasAsked(c, policy, w, s);
    assert OwnerSound(w.owner) && ChallengeOk(w, id);
    assert x.log == w.log + (if made.Some? then [e] else []);
    OpeningKeeps(w, x, e, made, id);
  }

  lemma {:induction false} JudgedChallenge(c: Crypto, policy: Policy, w: Desk, s: Call, id: string)
    requires Inv(w) && Admissible(w, s) && Authenticates(s)
    ensures ChallengeOk(Judged(c, policy, w, s), id)
  {
    if w.owner.auth.recoveryPending {
      assert ChallengeOk(w, id);
      assert Judged(c, policy, w, s).log == w.log;
    } else if s.request.challengeId != "" {
      AnsweredChallenge(c, policy, w, s, id);
    } else {
      PassedChallenge(c, policy, w, s, id);
    }
  }

  lemma {:induction false} NotedInLife(c: Crypto, policy: Policy, w: Desk, s: Call)
    requires Inv(w) && Authenticates(s)
    ensures var note := Noted(c, policy, w, s, Asked(c, policy, w, s).outcome);
            && |note| <= 1
            && (note != [] && Answers(note[0]).Some? ==>
                var id := Answers(note[0]).value;
                && Concerns(note[0]).None? && id in w.used && InLife(w.log, |w.log|, id, note[0].at)
                && Failures(w.log, id) < MAX_ATTEMPTS)
            && (note != [] ==> note[0].PasswordPassed? || Answers(note[0]).Some?)
            && (note != [] && note[0].PasswordPassed? ==> Asked(c, policy, w, s).outcome == Challenged(note[0].id))
  {
    var note := Noted(c, policy, w, s, Asked(c, policy, w, s).outcome);
    if note != [] && Answers(note[0]).Some? {
      var id := Answers(note[0]).value;
      if s.request.challengeId == "" { PasswordProceedsExactly(c, policy, w, s); }
      else { AnswerProceedsExactly(c, policy, w, s); }
      assert ChallengeOk(w, id);
      var ch := w.challenges[id];
      var i :| 0 <= i < |w.log| && w.log[i] == PasswordPassed(id, ch.binding, ch.revision, ch.expires - CHALLENGE_TTL);
      assert w.log[i].PasswordPassed? && w.log[i].id == id && note[0].at < w.log[i].at + CHALLENGE_TTL;
    }
  }

  lemma {:induction false} JudgedGrants(c: Crypto, policy: Policy, w: Desk, s: Call, id: string)
    requires Authenticates(s)
    ensures var v := Asked(c, policy, w, s);
            id in v.challenges && v.outcome != Challenged(id) ==>
            id in w.challenges && v.challenges[id].local == w.challenges[id].local &&
            v.challenges[id].channel == w.challenges[id].channel
  {
    if w.owner.auth.recoveryPending {
    } else if s.request.challengeId == "" {
      PasswordProceedsExactly(c, policy, w, s);
    } else {
      AnswerMovesExactly(c, policy, w, s, id);
    }
  }

  lemma {:induction false} JudgedEntry(c: Crypto, policy: Policy, w: Desk, s: Call, k: nat)
    requires Inv(w) && Admissible(w, s) && Authenticates(s)
    ensures EntryOk(Judged(c, policy, w, s), k)
  {
    var v := Asked(c, policy, w, s);
    var x := Judged(c, policy, w, s);
    var note := Noted(c, policy, w, s, v.outcome);
    AskedOutcome(c, policy, w, s);
    NotedInLife(c, policy, w, s);
    assert EntryOk(w, k);
    if k < |w.log| {
      if Concerns(w.log[k]).Some? { JudgedGrants(c, policy, w, s, Concerns(w.log[k]).value); }
      EntryStays(w, x, note, k);
    } else if k < |x.log| {
      assert x.log[k] == note[0] && x.log[..k] == w.log;
      if Answers(note[0]).Some? {
        var id := Answers(note[0]).value;
        var i :| 0 <= i < |w.log| && w.log[i].PasswordPassed? && w.log[i].id == id &&
                 note[0].at < w.log[i].at + CHALLENGE_TTL;
        assert x.log[i] == w.log[i];
      }
    }
  }

  lemma {:induction false} JudgedKeeps(c: Crypto, policy: Policy, w: Desk, s: Call)
    requires Inv(w) && Admissible(w, s) && Authenticates(s)
    ensures Inv(Judged(c, policy, w, s))
  {
    var x := Judged(c, policy, w, s);
    AskedOutcome(c, policy, w, s);
    NotedInLife(c, policy, w, s);
    forall id ensures ChallengeOk(x, id) { JudgedChallenge(c, policy, w, s, id); }
    forall k ensures EntryOk(x, k) { JudgedEntry(c, policy, w, s, k); }
    forall j: nat, k: nat ensures PairOk(x.log, j, k) { assert PairOk(w.log, j, k) && EntryOk(w, j); }
  }

  lemma {:induction false} OneKind(ch: Challenge)
    requires KindFits(ch)
    ensures ch.local.None? || ch.channel.None?
  {
    if ch.local.Some? { assert ch.binding[0] == 'l'; }
    if ch.channel.Some? { assert ch.binding[0] == 'c'; }
  }

  /** The call comes inside the life of the challenge, which has a try left. */
  ghost predicate Timely(x: Desk, id: string, at: int) {
    id in x.challenges && at < x.challenges[id].expires
  }

  lemma {:induction false} TimelyInLife(x: Desk, id: string, at: int, e: Event)
    requires Inv(x) && Timely(x, id, at)
    ensures id in x.used && InLife(x.log + [e], |x.log|, id, at) && Failures(x.log, id) < MAX_ATTEMPTS
  {
    assert ChallengeOk(x, id);
    var ch := x.challenges[id];
    var i :| 0 <= i < |x.log| && x.log[i] == PasswordPassed(id, ch.binding, ch.revision, ch.expires - CHALLENGE_TTL);
    assert (x.log + [e])[i] == x.log[i];
  }

  /** A repeat adds one entry about a challenge that already holds the grant. */
  lemma {:induction false} RepeatKeeps(x: Desk, id: string, g: Grant, at: int)
    requires Inv(x) && Timely(x, id, at) && Holds(x.challenges[id], g)
    ensures Inv(x.(log := x.log + [Returned(id, g, at)]))
  {
    var e := Returned(id, g, at);
    var y := x.(log := x.log + [e]);
    forall i ensures ChallengeOk(y, i) { assert ChallengeOk(x, i); ChallengeStays(x, y, e, i); }
    TimelyInLife(x, id, at, e);
    forall k: nat ensures EntryOk(y, k) {
      assert EntryOk(x, k);
      if k < |x.log| { EntryStays(x, y, [e], k); } else if k == |x.log| { assert y.log[..k] == x.log; }
    }
    forall j: nat, k: nat ensures PairOk(y.log, j, k) {
      assert PairOk(x.log, j, k) && EntryOk(x, j);
      assert ChallengeOk(x, id);
      OneKind(x.challenges[id]);
    }
  }

  /** The first grant of a verified challenge: it is stored, and logged once. */
  function Issue(x: Desk, id: string, e: Event): Desk
    requires id in x.challenges && e.Granted?
  {
    x.(challenges := x.challenges[id := WithGrant(x.challenges[id], e.grant)], log := x.log + [e])
  }

  predicate FirstGrant(x: Desk, id: string, e: Event) {
    && e.Granted? && e.via == Some(id) && id in x.challenges && e.at < x.challenges[id].expires
    && var ch := x.challenges[id];
       && ch.verified && ch.binding == e.binding && ch.revision == e.revision && ch.local.None? && ch.channel.None?
       && (if e.grant.LocalGrant? then HasPrefix(ch.binding, "local:") else HasPrefix(ch.binding, "channel:"))
  }

  lemma {:induction false} IssueKeeps(x: Desk, id: string, e: Event)
    requires Inv(x) && FirstGrant(x, id, e)
    ensures Inv(Issue(x, id, e)) && Holds(Issue(x, id, e).challenges[id], e.grant)
  {
    var y := Issue(x, id, e);
    var ch := x.challenges[id];
    assert ChallengeOk(x, id);
    forall i ensures ChallengeOk(y, i) { assert ChallengeOk(x, i); ChallengeStays(x, y, e, i); }
    IssueEntries(x, id, e);
    forall j: nat, k: nat ensures PairOk(y.log, j, k) { assert PairOk(x.log, j, k) && EntryOk(x, j); }
  }

  lemma {:induction false} IssueEntries(x: Desk, id: string, e: Event)
    requires Inv(x) && FirstGrant(x, id, e)
    ensures forall k :: EntryOk(Issue(x, id, e), k)
  {
    var y := Issue(x, id, e);
    var ch := x.challenges[id];
    assert ChallengeOk(x, id);
    TimelyInLife(x, id, e.at, e);
    forall k: nat ensures EntryOk(y, k) {
      assert EntryOk(x, k);
      if k < |x.log| {
        EntryStays(x, y, [e], k);
      } else if k == |x.log| {
        assert y.log[..k] == x.log;
        LongerLog(x.log, [e], k, id, e.binding, e.revision, ch.expires - CHALLENGE_TTL);
      }
    }
  }

  lemma {:induction false} OpenGrantKeeps(x: Desk, e: Event)
    requires Inv(x) && e.Granted? && e.via.None? && !e.guarded
    ensures Inv(x.(log := x.log + [e]))
  {
    var y := x.(log := x.log + [e]);
    forall i ensures ChallengeOk(y, i) { assert ChallengeOk(x, i); ChallengeStays(x, y, e, i); }
    forall k: nat ensures EntryOk(y, k) {
      assert EntryOk(x, k);
      if k < |x.log| { EntryStays(x, y, [e], k); }
    }
    forall j: nat, k: nat ensures PairOk(y.log, j, k) { assert PairOk(x.log, j, k); }
  }

  lemma {:induction false} DeliverKeeps(x: Desk, s: Call, via: Option<string>)
    requires Inv(x) && !s.Managing? && (via.None? ==> x.owner.auth.secret == "")
    requires via.Some? ==> via.value in x.challenges && x.challenges[via.value].binding == BindingOf(s) &&
                           x.challenges[via.value].revision == x.owner.auth.revision &&
                           Timely(x, via.value, s.input.now)
    requires via.Some? ==> var ch := x.challenges[via.value]; ch.verified || ch.local.Some? || ch.channel.Some?
    ensures Inv(Deliver(x, s, via))
  {
    if via.None? {
      if IssuedGrant(s).Some? {
        OpenGrantKeeps(x, Granted(None, BindingOf(s), x.owner.auth.revision, IssuedGrant(s).value, false,
            s.input.now));
      }
    } else {
      var id := via.value;
      var ch := x.challenges[id];
      assert ChallengeOk(x, id);
      KindOfCall(s, ch);
      if StoredGrant(s, ch).Some? {
        RepeatKeeps(x, id, StoredGrant(s, ch).value, s.input.now);
      } else if IssuedGrant(s).Some? {
        var g := IssuedGrant(s).value;
        var e := Granted(Some(id), BindingOf(s), x.owner.auth.revision, g, x.owner.auth.secret != "",
            s.input.now);
        IssueKeeps(x, id, e);
        RepeatKeeps(Issue(x, id, e), id, g, s.input.now);
      }
    }
  }

  /** A challenge bound to this call's kind stores only grants of that kind. */
  lemma {:induction false} KindOfCall(s: Call, ch: Challenge)
    requires !s.Managing? && ch.binding == BindingOf(s) && KindFits(ch)
    ensures s.Local? ==> HasPrefix(ch.binding, "local:") && ch.channel.None?
    ensures s.Channel? ==> HasPrefix(ch.binding, "channel:") && ch.local.None?
  {
    if s.Local? { assert ch.binding[0] == 'l'; } else { assert ch.binding[0] == 'c'; }
    if ch.channel.Some? { assert ch.binding[0] == "channel:"[0]; }
    if ch.local.Some? { assert ch.binding[0] == "local:"[0]; }
  }

  lemma {:induction false} ManagingKeeps(c: Crypto, policy: Policy, w: Desk, s: Call)
    requires Inv(w) && s.Managing? && Admissible(w, s)
    ensures Inv(After(c, policy, w, s))
  {
    ManageFair(c, policy, w.owner, s.row, s.query);
    var v := After(c, policy, w, s);
    FairIsSound(w.owner, s.row, v.owner, Manage(c, policy, w.owner, s.row, s.query).row);
    forall id ensures ChallengeOk(v, id) { assert ChallengeOk(w, id); }
    forall k ensures EntryOk(v, k) { assert EntryOk(w, k); }
  }

  lemma {:induction false} StepKeeps(c: Crypto, policy: Policy, w: Desk, s: Call)
    requires Inv(w) && Admissible(w, s)
    ensures Inv(After(c, policy, w, s))
  {
    if s.Managing? {
      ManagingKeeps(c, policy, w, s);
    } else if Authenticates(s) {
      JudgedKeeps(c, policy, w, s);
      AskedOutcome(c, policy, w, s);
      var v := Asked(c, policy, w, s);
      if v.outcome.Proceed? { DeliverKeeps(Judged(c, policy, w, s), s, v.outcome.challenge); }
    }
  }

  ghost predicate AllowedRun(c: Crypto, policy: Policy, w: Desk, calls: seq<Call>)
    decreases calls
  {
    calls == [] || (Admissible(w, calls[0]) && AllowedRun(c, policy, After(c, policy, w, calls[0]), calls[1..]))
  }

  ghost function RunOf(c: Crypto, policy: Policy, w: Desk, calls: seq<Call>): Desk
    decreases calls
  {
    if calls == [] then w else RunOf(c, policy, After(c, policy, w, calls[0]), calls[1..])
  }

  lemma {:induction false} RunKeeps(c: Crypto, policy: Policy, w: Desk, calls: seq<Call>)
    requires Inv(w) && AllowedRun(c, policy, w, calls)
    ensures Inv(RunOf(c, policy, w, calls))
    decreases calls
  {
    if calls != [] {
      StepKeeps(c, policy, w, calls[0]);
      RunKeeps(c, policy, After(c, policy, w, calls[0]), calls[1..]);
    }
  }

  /** A gate that has just opened a sound row. */
  predicate JustOpened(w: Desk, row: Row) {
    PolicyOk(row.state) && w == Desk(Opened(row), map[], {}, [])
  }

  /** Two factors: over every run from an opened authority, a credential granted
      by password login while a secret is set was preceded by a correct
      password and then a verified factor, both under the same challenge,
      binding and revision, and both the factor and the grant came less than
      five minutes after the password by the gate's own clock. */
  lemma {:induction false} TwoFactorsBeforeGrant(c: Crypto, policy: Policy, row: Row, w: Desk, calls: seq<Call>, k: nat)
    requires JustOpened(w, row) && AllowedRun(c, policy, w, calls)
    requires k < |RunOf(c, policy, w, calls).log| && RunOf(c, policy, w, calls).log[k].Granted? &&
             RunOf(c, policy, w, calls).log[k].guarded
    ensures
      var log := RunOf(c, policy, w, calls).log;
      log[k].via.Some? &&
      exists i, j :: 0 <= i < j < k && log[i].PasswordPassed? && log[j].FactorPassed? &&
                     log[i] == PasswordPassed(log[k].via.value, log[k].binding, log[k].revision, log[i].at) &&
                     log[j] == FactorPassed(log[k].via.value, log[k].binding, log[k].revision, log[j].at) &&
                     log[j].at < log[i].at + 5 * MINUTE && log[k].at < log[i].at + 5 * MINUTE
  {
    RunKeeps(c, policy, w, calls);
    var log := RunOf(c, policy, w, calls).log;
    var e := log[k];
    assert EntryOk(RunOf(c, policy, w, calls), k);
    var since :| Proved(log, k, e.via.value, e.binding, e.revision, since) && e.at < since + CHALLENGE_TTL;
    var j :| 0 <= j < k && log[j].FactorPassed? && log[j] == FactorPassed(e.via.value, e.binding, e.revision, log[j].at)
             && log[j].at < since + CHALLENGE_TTL && Knew(log, j, e.via.value, e.binding, e.revision, since);
    var i :| 0 <= i < j && log[i] == PasswordPassed(e.via.value, e.binding, e.revision, since);
    assert log[i].at == since;
  }

  /** A challenge lives five minutes: over every run, whatever tries, verifies,
      grants or repeats a challenge comes after the one password that opened it
      and at a clock less than five minutes past it. */
  lemma {:induction false} ChallengeLivesFiveMinutes(c: Crypto, policy: Policy, row: Row, w: Desk, calls: seq<Call>,
          k: nat)
    requires JustOpened(w, row) && AllowedRun(c, policy, w, calls)
    requires k < |RunOf(c, policy, w, calls).log| && Answers(RunOf(c, policy, w, calls).log[k]).Some?
    ensures
      var log := RunOf(c, policy, w, calls).log;
      var id := Answers(log[k]).value;
      && (exists i | 0 <= i < |log| :: log[i].PasswordPassed? && log[i].id == id)
      && (forall i | 0 <= i < |log| && log[i].PasswordPassed? && log[i].id == id ::
            i < k && log[k].at < log[i].at + 5 * MINUTE)
  {
    RunKeeps(c, policy, w, calls);
    var log := RunOf(c, policy, w, calls).log;
    assert EntryOk(RunOf(c, policy, w, calls), k);
    var id := Answers(log[k]).value;
    var n :| 0 <= n < k && log[n].PasswordPassed? && log[n].id == id && log[k].at < log[n].at + CHALLENGE_TTL;
    forall i | 0 <= i < |log| && log[i].PasswordPassed? && log[i].id == id ensures i == n {
      assert PairOk(log, i, n) && PairOk(log, n, i);
    }
  }

  /** Five attempts: over every run a challenge takes at most five failed
      factors, and nothing answers it after the fifth. */
  lemma {:induction false} FiveAttempts(c: Crypto, policy: Policy, row: Row, w: Desk, calls: seq<Call>, id: string,
          k: nat)
    requires JustOpened(w, row) && AllowedRun(c, policy, w, calls)
    ensures Failures(RunOf(c, policy, w, calls).log, id) <= 5
    ensures
      var log := RunOf(c, policy, w, calls).log;
      k < |log| && Answers(log[k]) == Some(id) ==> Failures(log[..k], id) < 5
  {
    RunKeeps(c, policy, w, calls);
    assert ChallengeOk(RunOf(c, policy, w, calls), id) && EntryOk(RunOf(c, policy, w, calls), k);
  }

  /** The request of a user who answers the challenge of an accepted password in
      time with a factor that counts. */
  predicate Completes(c: Crypto, policy: Policy, w: Desk, first: Call, second: Call) {
    && Authenticates(first) && Authenticates(second)
    && first.request.challengeId == "" && first.input.password.Accepted? && first.input.newId.Some?
    && !w.owner.auth.recoveryPending && w.owner.auth.secret != ""
    && |set id | id in w.challenges && Alive(w, id, first.input.now)| < 256
    && second.request.challengeId == first.input.newId.value && second.request.challengeId != ""
    && BindingOf(second) == BindingOf(first) && second.input.now < first.input.now + 5 * MINUTE
    && Accepts(c, policy, w.owner.auth, TriedFactor(w, second)) && IssuedGrant(second).Some?
  }

  /** What the two calls of a completed sign-in leave behind. */
  lemma {:induction false} SignInLeaves(c: Crypto, policy: Policy, w: Desk, first: Call, second: Call)
    requires Completes(c, policy, w, first, second)
    ensures
      var x := After(c, policy, w, first);
      var y, id, g := After(c, policy, x, second), second.request.challengeId, IssuedGrant(second).value;
      && y.log == Judged(c, policy, x, second).log +
             [Granted(Some(id), BindingOf(second), w.owner.auth.revision, g, true, second.input.now)] +
             [Returned(id, g, second.input.now)]
      && id in y.challenges && y.owner.auth.revision == w.owner.auth.revision
      && y.challenges[id] == WithGrant(Challenge(true, BindingOf(first), w.owner.auth.revision,
             first.input.now + 5 * MINUTE, 0, None, None), g)
  {
    var x := After(c, policy, w, first);
    PasswordProceedsExactly(c, policy, w, first);
    assert x.owner == w.owner;
    AnswerProceedsExactly(c, policy, x, second);
    AnswerMovesExactly(c, policy, x, second, second.request.challengeId);
    FactorIsEvent(c, policy, x.owner, second.row, second.request.code, second.request.recovery, second.input.now,
        second.input.fate);
  }

  /** A verified challenge gives its grant again to a call of its binding that
      comes inside its life. */
  lemma {:induction false} RepeatReturns(c: Crypto, policy: Policy, y: Desk, s: Call, g: Grant)
    requires Authenticates(s) && s.request.challengeId != "" && s.request.challengeId in y.challenges && s.valid
    requires var ch := y.challenges[s.request.challengeId];
             ch.verified && ch.binding == BindingOf(s) && ch.revision == y.owner.auth.revision &&
             s.input.now < ch.expires && StoredGrant(s, ch) == Some(g) && !y.owner.auth.recoveryPending
    ensures After(c, policy, y, s).log == y.log + [Returned(s.request.challengeId, g, s.input.now)]
  {
    var id := s.request.challengeId;
    AnswerProceedsExactly(c, policy, y, s);
    AnswerMovesExactly(c, policy, y, s, id);
    assert Noted(c, policy, y, s, Asked(c, policy, y, s).outcome) == [];
    assert Judged(c, policy, y, s).log == y.log;
  }

  /** Signing in works: from any state, an accepted password followed within five
      minutes by a factor that counts gives the credential issued for it, and
      asking again while it is usable gives the same one. */
  lemma {:induction false} SignInSucceeds(c: Crypto, policy: Policy, w: Desk, first: Call, second: Call, again: Call)
    requires Completes(c, policy, w, first, second)
    ensures
      var y := After(c, policy, After(c, policy, w, first), second);
      var id, n, g := second.request.challengeId, |y.log|, IssuedGrant(second).value;
      && n >= 2 && y.log[n - 1] == Returned(id, g, second.input.now)
      && y.log[n - 2] == Granted(Some(id), BindingOf(second), w.owner.auth.revision, g, true, second.input.now)
      && (Authenticates(again) && again.request.challengeId == id && BindingOf(again) == BindingOf(second) &&
          again.Local? == second.Local? && again.input.now < first.input.now + 5 * MINUTE && again.valid &&
          !y.owner.auth.recoveryPending ==>
            After(c, policy, y, again).log == y.log + [Returned(id, g, again.input.now)])
  {
    SignInLeaves(c, policy, w, first, second);
    var y, id := After(c, policy, After(c, policy, w, first), second), second.request.challengeId;
    if Authenticates(again) && again.request.challengeId == id && BindingOf(again) == BindingOf(second) &&
       again.Local? == second.Local? && again.input.now < first.input.now + 5 * MINUTE && again.valid &&
       !y.owner.auth.recoveryPending
    {
      RepeatReturns(c, policy, y, again, IssuedGrant(second).value);
    }
  }

  /** Issued once: a challenge grants at most one lineage in a whole run, and
      every successful retry of it returns that lineage. */
  lemma {:induction false} OneLineagePerChallenge(c: Crypto, policy: Policy, row: Row, w: Desk, calls: seq<Call>,
          j: nat, k: nat)
    requires JustOpened(w, row) && AllowedRun(c, policy, w, calls)
    requires j < k < |RunOf(c, policy, w, calls).log|
    requires Concerns(RunOf(c, policy, w, calls).log[j]).Some?
    requires Concerns(RunOf(c, policy, w, calls).log[j]) == Concerns(RunOf(c, policy, w, calls).log[k])
    ensures RunOf(c, policy, w, calls).log[k].Returned?
    ensures RunOf(c, policy, w, calls).log[j].grant == RunOf(c, policy, w, calls).log[k].grant
  {
    RunKeeps(c, policy, w, calls);
    assert PairOk(RunOf(c, policy, w, calls).log, j, k);
  }

  // ------------------------------------------------- scopes of a challenge

  lemma {:induction false} LastColon(b: string) returns (i: nat)
    requires ':' in b
    ensures i < |b| && b[i] == ':' && ':' !in b[i + 1..]
  {
    i := |b| - 1;
    while b[i] != ':'
      invariant i < |b| && ':' !in b[i + 1..]
      invariant exists k | 0 <= k <= i :: b[k] == ':'
      decreases i
    {
      assert b[i..] == [b[i]] + b[i + 1..];
      i := i - 1;
    }
  }

  lemma {:induction false} LongerTail(s: string, b: string, t: string, d: string)
    requires LocalBinding(s, b) == LocalBinding(t, d) && |b| < |d|
    ensures ':' in d
  {
    var x, y := LocalBinding(s, b), LocalBinding(t, d);
    assert x[|x| - |b| - 1] == ':' && y[|y| - |b| - 1] == d[|d| - |b| - 1];
  }

  lemma {:induction false} SameTail(s: string, b: string, t: string, d: string)
    requires LocalBinding(s, b) == LocalBinding(t, d) && ':' !in b && ':' !in d
    ensures s == t && b == d
  {
    var x, y := LocalBinding(s, b), LocalBinding(t, d);
    if |b| < |d| { LongerTail(s, b, t, d); }
    if |d| < |b| { LongerTail(t, d, s, b); }
    assert s == x[6..6 + |s|] && t == y[6..6 + |t|];
    assert b == x[|x| - |b|..] && d == y[|y| - |d|..];
  }

  /** The text that binds a local challenge names its entry scope, against
      every colon-free caller binding, exactly when the caller's own binding
      has no colon. */
  lemma {:induction false} BindingNamesScope(b: string)
    ensures ':' !in b <==> forall s, t, d | ':' !in d && LocalBinding(s, b) == LocalBinding(t, d) :: s == t
  {
    if ':' !in b {
      forall s, t, d | ':' !in d && LocalBinding(s, b) == LocalBinding(t, d) ensures s == t { SameTail(s, b, t, d); }
    } else {
      var i := LastColon(b);
      var t, d := "" + ":" + b[..i], b[i + 1..];
      assert b == b[..i] + ":" + d;
      assert LocalBinding("", b) == LocalBinding(t, d);
    }
  }
}
