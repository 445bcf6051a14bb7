/** The credential tables of `Gate` as values, and what each critical section
    under `mu` does to them. `Gate.dfy` proves its methods against these. */
module Credentials {
  import opened Basics

  const AGENT_APP := "com.floegence.redeven.agent"
  const CODE_APP := "com.floegence.redeven.code"
  const FORWARD_APP := "com.floegence.redeven.portforward"

  datatype Meta = Meta(channelId: string, endpointId: string, floeApp: string, codeSpaceId: string,
                       sessionKind: string, userPublicId: string, canRead: bool, canWrite: bool, canExecute: bool)

  datatype Channel = Channel(scope: string, trusted: bool, expiresAt: Deadline, timer: Deadline,
                             accessSession: string, meta: Meta, unlocked: bool)

  /** What a resume token is bound to. */
  datatype Binding = Binding(userPublicId: string, endpointId: string, floeApp: string, codeSpaceId: string,
                             sessionKind: string)

  datatype ResumeToken = ResumeToken(scope: string, accessSession: string, binding: Binding, expiresAt: int)

  datatype LocalSession = LocalSession(scope: string, accessSession: string, expiresAt: int)

  datatype Unlock = Unlock(resumeToken: string, resumeExpires: Deadline)

  datatype Delegation = Delegation(scope: string, accessSession: string, userPublicId: string, endpointId: string,
                                   parentExpires: Deadline, codeSpaceId: string, expires: int,
                                   consumedChannel: string, result: Option<Unlock>)

  datatype Table = Table(channels: map<string, Channel>, resumes: map<string, ResumeToken>,
                         locals: map<string, LocalSession>, delegations: map<string, Delegation>)

  /** The gate's constants. `trim` stands for Go's `strings.TrimSpace`; nothing
      is assumed of it. */
  datatype Env = Env(resumeTTL: int, localTTL: int, trim: string -> string)

  datatype Login = Login(sessionToken: string, accessSession: string, sessionExpires: int, resumeToken: string,
                         resumeExpires: int)

  datatype Error =
    | MissingArgument | ChannelNotFound | RandomFailed | InvalidResumeToken | BindingMismatch | ScopeMismatch
    | Unavailable | AccessRequired | InvalidCodeSpace | TooManyPending | DelegationExpired | DelegationUsed

  // ---------------------------------------------------------------- cleanup

  function ExpireChannel(c: Channel, now: int): Channel {
    if c.unlocked && c.expiresAt.At? && now >= c.expiresAt.instant then c.(unlocked := false) else c
  }

  function Sweep(t: Table, now: int): Table {
    t.(channels := map k | k in t.channels :: ExpireChannel(t.channels[k], now),
       resumes := map k | k in t.resumes && now <= t.resumes[k].expiresAt :: t.resumes[k])
  }

  /** `scheduleChannelExpiryLocked`: a trusted channel is never timed out. */
  function Scheduled(c: Channel): Channel {
    c.(timer := if c.expiresAt.Never? || c.trusted then Never else c.expiresAt)
  }

  function SetChannel(t: Table, id: string, c: Channel): Table {
    t.(channels := t.channels[id := Scheduled(c)])
  }

  // ----------------------------------------------------------- registration

  /** A registration inherits from any one live local session with its id. */
  predicate IsSource(t: Table, now: int, accessSession: string, source: string) {
    source in t.locals && t.locals[source].accessSession == accessSession && now < t.locals[source].expiresAt
  }

  predicate Inherits(enabled: bool, trusted: bool, accessSession: string) {
    enabled && !trusted && accessSession != ""
  }

  /** Map order is unspecified, so any live session may be the one found. */
  predicate ValidSource(t: Table, now: int, inherits: bool, accessSession: string, source: Option<string>) {
    match source
    case Some(token) => inherits && IsSource(t, now, accessSession, token)
    case None => inherits ==> forall k | k in t.locals :: !IsSource(t, now, accessSession, k)
  }

  function Registered(t: Table, enabled: bool, meta: Meta, trusted: bool, accessSession: string,
          source: Option<string>): Channel
    requires source.Some? ==> source.value in t.locals
  {
    var locked := Channel("", trusted, Never, Never, accessSession, meta, trusted || !enabled);
    if source.Some? then
      locked.(scope := t.locals[source.value].scope, unlocked := true,
          expiresAt := At(t.locals[source.value].expiresAt))
    else locked
  }

  function Register(t: Table, e: Env, enabled: bool, now: int, meta: Meta, trusted: bool, accessSession: string,
          source: Option<string>): Table
    requires source.Some? ==> source.value in t.locals
  {
    if e.trim(meta.channelId) == "" then t
    else SetChannel(Sweep(t, now), e.trim(meta.channelId), Registered(t, enabled, meta, trusted, accessSession, source))
  }

  function Unregister(t: Table, e: Env, channel: string): Table {
    if e.trim(channel) == "" then t else t.(channels := t.channels - {e.trim(channel)})
  }

  /** The body of an expiry timer that was armed for `deadline`. */
  function TimerFired(t: Table, channel: string, deadline: int): Table {
    if channel in t.channels && t.channels[channel].expiresAt == At(deadline)
    then t.(channels := t.channels[channel := t.channels[channel].(unlocked := false)])
    else t
  }

  // ---------------------------------------------------------------- issuing

  function NormalizeKind(e: Env, kind: string): string {
    var k := e.trim(kind);
    if k == "" || k == "envapp_proxy" then "envapp_rpc" else k
  }

  predicate MintsResume(e: Env, meta: Meta) {
    var app, space := e.trim(meta.floeApp), e.trim(meta.codeSpaceId);
    if app == AGENT_APP then space == "env-ui"
    else (app == CODE_APP || app == FORWARD_APP) && space != ""
  }

  function BindingOf(e: Env, meta: Meta): Binding {
    Binding(e.trim(meta.userPublicId), e.trim(meta.endpointId), e.trim(meta.floeApp), e.trim(meta.codeSpaceId),
        NormalizeKind(e, meta.sessionKind))
  }

  function ResumeFor(e: Env, meta: Meta, scope: string, accessSession: string, expiresAt: int): ResumeToken {
    ResumeToken(scope, e.trim(accessSession), BindingOf(e, meta), expiresAt)
  }

  /** The binding of the fixed local channel metadata. */
  const LOCAL_BINDING: Binding := Binding("user_local", "env_local", AGENT_APP, "env-ui", "envapp_rpc")

  /** `issueChannel` on an enabled gate; `session` and `resume` are the random
      tokens drawn, `None` when the draw fails. */
  function IssueChannel(t: Table, e: Env, now: int, channel: string, session: Option<string>, resume: Option<string>)
    : (Table, Result<Unlock, Error>)
  {
    var id := e.trim(channel);
    var s := Sweep(t, now);
    if id == "" then (t, Err(MissingArgument))
    else if id !in s.channels then (s, Err(ChannelNotFound))
    else if session.None? then (s, Err(RandomFailed))
    else
      var st := s.channels[id];
      var open := st.(unlocked := true, expiresAt := At(now + e.resumeTTL), accessSession := session.value);
      if !MintsResume(e, st.meta) then (SetChannel(s, id, open), Ok(Unlock("", Never)))
      else if resume.None? then (s, Err(RandomFailed))
      else
        var minted := s.(resumes := s.resumes[resume.value :=
            ResumeFor(e, st.meta, st.scope, session.value, now + e.resumeTTL)]);
        (SetChannel(minted, id, open), Ok(Unlock(resume.value, At(now + e.resumeTTL))))
  }

  /** `issueLocalSessionForScope` on an enabled gate. A failed draw of the
      resume token leaves the local session behind, unreturned. */
  function IssueLocal(t: Table, e: Env, now: int, scope: string, token: Option<string>, session: Option<string>,
          resume: Option<string>)
    : (Table, Result<Login, Error>)
  {
    var s := Sweep(t, now);
    if token.None? || session.None? then (s, Err(RandomFailed))
    else
      var expires := Min(now + e.localTTL, now + e.resumeTTL);
      var withLocal := s.(locals := s.locals[token.value := LocalSession(scope, session.value, expires)]);
      if resume.None? then (withLocal, Err(RandomFailed))
      else
        (withLocal.(resumes := s.resumes[resume.value :=
            ResumeToken(scope, e.trim(session.value), LOCAL_BINDING, now + e.resumeTTL)]),
         Ok(Login(token.value, session.value, expires, resume.value, now + e.resumeTTL)))
  }

  function CheckResume(t: Table, e: Env, now: int, token: string, meta: Meta): Option<Error> {
    if token !in t.resumes || now > t.resumes[token].expiresAt then Some(InvalidResumeToken)
    else if t.resumes[token].binding != BindingOf(e, meta) then Some(BindingMismatch)
    else None
  }

  /** `MintLocalSessionFromResumeTokenForScope` on an enabled gate. */
  function MintFromResume(t: Table, e: Env, now: int, resume: string, meta: Meta, scope: string, token: Option<string>)
    : (Table, Result<Login, Error>)
  {
    var id := e.trim(resume);
    var s := Sweep(t, now);
    if id == "" then (t, Err(MissingArgument))
    else if CheckResume(s, e, now, id, meta).Some? then (s, Err(CheckResume(s, e, now, id, meta).value))
    else
      var r := s.resumes[id];
      if r.scope != scope || e.trim(r.accessSession) == "" then (s, Err(Unavailable))
      else if token.None? then (s, Err(RandomFailed))
      else
        var expires := Min(now + e.localTTL, r.expiresAt);
        (s.(locals := s.locals[token.value := LocalSession(scope, e.trim(r.accessSession), expires)]),
         Ok(Login(token.value, e.trim(r.accessSession), expires, "", 0)))
  }

  /** `ResumeChannel` on an enabled gate. */
  function Resume(t: Table, e: Env, now: int, channel: string, resume: string): (Table, Option<Error>) {
    var id, token := e.trim(channel), e.trim(resume);
    var s := Sweep(t, now);
    if id == "" || token == "" then (t, Some(MissingArgument))
    else if id !in s.channels then (s, Some(ChannelNotFound))
    else
      var st := s.channels[id];
      if CheckResume(s, e, now, token, st.meta).Some? then (s, CheckResume(s, e, now, token, st.meta))
      else if s.resumes[token].scope != st.scope then (s, Some(ScopeMismatch))
      else
        (SetChannel(s, id, st.(unlocked := true, expiresAt := At(s.resumes[token].expiresAt),
                               accessSession := s.resumes[token].accessSession)), None)
  }

  /** `ResolveLocalSessionForScope` on an enabled gate. */
  function Resolve(t: Table, e: Env, now: int, token: string, scope: string): Option<LocalSession> {
    var id := e.trim(token);
    if id == "" || id !in t.locals || t.locals[id].scope != scope || now > t.locals[id].expiresAt then None
        else Some(t.locals[id])
  }

  /** The check a retry makes before it repeats a channel's unlock. */
  predicate StillOpen(t: Table, channel: string, now: int) {
    channel in t.channels && t.channels[channel].unlocked && t.channels[channel].expiresAt.At? &&
        now < t.channels[channel].expiresAt.instant
  }

  // ------------------------------------------------------------- delegation

  predicate MayDelegate(st: Channel) {
    st.unlocked && st.meta.floeApp == AGENT_APP && st.meta.codeSpaceId == "env-ui" &&
    st.meta.canRead && st.meta.canWrite && st.meta.canExecute
  }

  const MAX_DELEGATIONS: nat := 256

  function PendingDelegations(t: Table, now: int): Table {
    t.(delegations := map k | k in t.delegations && now < t.delegations[k].expires :: t.delegations[k])
  }

  function DelegationFrom(st: Channel, e: Env, now: int, codeSpace: string): Delegation {
    var parent := if st.expiresAt.Never? && st.trusted then At(now + e.resumeTTL) else st.expiresAt;
    Delegation(st.scope, st.accessSession, st.meta.userPublicId, st.meta.endpointId, parent, codeSpace, now +
        30 * SECOND, "", None)
  }

  /** `DelegateCodeSpace` on an enabled gate. */
  function Delegate(t: Table, e: Env, now: int, channel: string, codeSpace: string, token: Option<string>)
    : (Table, Result<string, Error>)
  {
    var s := Sweep(t, now);
    var space := e.trim(codeSpace);
    if channel !in s.channels || !MayDelegate(s.channels[channel]) then (s, Err(AccessRequired))
    else if space == "" || |space| > 64 then (s, Err(InvalidCodeSpace))
    else
      var p := PendingDelegations(s, now);
      if |p.delegations| >= MAX_DELEGATIONS then (p, Err(TooManyPending))
      else if token.None? then (p, Err(RandomFailed))
      else (p.(delegations := p.delegations[token.value := DelegationFrom(s.channels[channel], e, now, space)]),
          Ok(token.value))
  }

  predicate Redeemable(st: Channel, d: Delegation, now: int) {
    now < d.expires && d.parentExpires.At? && now < d.parentExpires.instant &&
    st.meta.floeApp == CODE_APP && st.meta.codeSpaceId == d.codeSpaceId && st.meta.userPublicId == d.userPublicId &&
    st.meta.endpointId == d.endpointId && st.scope == d.scope
  }

  /** `consumeCodeSpaceLocked`. */
  function Consume(t: Table, e: Env, now: int, channel: string, token: string, resume: Option<string>): (Table,
          Result<Unlock, Error>) {
    var s := Sweep(t, now);
    if channel !in s.channels || token !in s.delegations || !Redeemable(s.channels[channel], s.delegations[token], now)
    then (s, Err(DelegationExpired))
    else
      var st, d := s.channels[channel], s.delegations[token];
      if d.consumedChannel != "" then
        (s, if d.consumedChannel == channel && d.result.Some? then Ok(d.result.value) else Err(DelegationUsed))
      else if resume.None? then (s, Err(RandomFailed))
      else
        var out := Unlock(resume.value, d.parentExpires);
        var minted := s.(resumes := s.resumes[resume.value :=
            ResumeFor(e, st.meta, d.scope, d.accessSession, d.parentExpires.instant)],
                         delegations := s.delegations[token := d.(consumedChannel := channel, result := Some(out))]);
        (SetChannel(minted, channel, st.(unlocked := true, expiresAt := d.parentExpires,
            accessSession := d.accessSession)), Ok(out))
  }

  // ------------------------------------------------------------- revocation

  function LockIf(c: Channel, condition: bool): Channel {
    if condition then c.(unlocked := false) else c
  }

  /** `revokeAccessSessionLocked`, for every id of a set at once. */
  function RevokeSessions(t: Table, ids: set<string>): Table {
    Table(map k | k in t.channels :: LockIf(t.channels[k], t.channels[k].accessSession in ids),
          map k | k in t.resumes && t.resumes[k].accessSession !in ids :: t.resumes[k],
          map k | k in t.locals && t.locals[k].accessSession !in ids :: t.locals[k],
          map k | k in t.delegations && t.delegations[k].accessSession !in ids :: t.delegations[k])
  }

  /** `TakeLocalSession` on an enabled gate. */
  function TakeLocal(t: Table, e: Env, token: string): (Table, Option<string>) {
    var id := e.trim(token);
    if id == "" || id !in t.locals || e.trim(t.locals[id].accessSession) == "" then (t, None)
    else (RevokeSessions(t, {t.locals[id].accessSession}), Some(t.locals[id].accessSession))
  }

  /** `TakeAccessSessionByResumeToken` on an enabled gate. */
  function TakeByResume(t: Table, e: Env, now: int, resume: string): (Table, Option<string>) {
    var id := e.trim(resume);
    var s := Sweep(t, now);
    if id == "" then (t, None)
    else if id !in s.resumes || e.trim(s.resumes[id].accessSession) == "" || now >= s.resumes[id].expiresAt
        then (s, None)
    else (RevokeSessions(s, {s.resumes[id].accessSession}), Some(s.resumes[id].accessSession))
  }

  function ExpiredLocals(t: Table, now: int): set<string> {
    set k | k in t.locals && now > t.locals[k].expiresAt
  }

  /** Access sessions whose last local session has expired. */
  function ExpiredSessions(t: Table, e: Env, now: int): set<string> {
    (set k | k in ExpiredLocals(t, now) && e.trim(t.locals[k].accessSession) != "" :: t.locals[k].accessSession) -
    (set k | k in t.locals && k !in ExpiredLocals(t, now) :: t.locals[k].accessSession)
  }

  /** `TakeExpiredLocalSessions` on an enabled gate. */
  function TakeExpired(t: Table, e: Env, now: int): Table {
    var gone := ExpiredSessions(t, e, now);
    t.(locals := t.locals - ExpiredLocals(t, now),
       resumes := map k | k in t.resumes && t.resumes[k].accessSession !in gone :: t.resumes[k])
  }

  function RevokeResume(t: Table, e: Env, resume: string): Table {
    if e.trim(resume) == "" then t else t.(resumes := t.resumes - {e.trim(resume)})
  }

  predicate InFamily(value: string, scope: string, family: bool) {
    value == scope || (family && HasPrefix(value, scope + ":"))
  }

  function ScopeSessions(t: Table, scope: string, family: bool): set<string> {
    (set k | k in t.locals && InFamily(t.locals[k].scope, scope, family) :: t.locals[k].accessSession) +
    (set k | k in t.resumes && InFamily(t.resumes[k].scope, scope, family) :: t.resumes[k].accessSession) +
    (set k | k in t.channels && InFamily(t.channels[k].scope, scope, family) :: t.channels[k].accessSession)
  }

  /** `revokeEntryScopes`; the empty scope is the direct entry and is refused. */
  function RevokeScopes(t: Table, scope: string, family: bool): Table {
    if scope == "" then t else RevokeSessions(t, ScopeSessions(t, scope, family))
  }

  /** `revokeOrdinaryLocked`: only trusted channels keep their access. */
  function RevokeOrdinary(t: Table): Table {
    Table(map k | k in t.channels :: LockIf(t.channels[k], !t.channels[k].trusted), map[], map[], map[])
  }
}
