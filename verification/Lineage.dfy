/** Whole runs of the access gate: what every credential descends from, how
    long it can live, what revocation removes for good, and which entry scope
    it belongs to. A step is one critical section under `mu`; sections that run
    under `authMu` cannot fall between a policy change and the revocation that
    follows it, while all other sections can. */
module Lineage {
  import opened Basics
  import opened Credentials

  datatype RootKind = SignedIn | HostGrant

  /** A successful authentication, or a delegation made on a trusted channel. */
  datatype Root = Root(kind: RootKind, time: int, revision: nat)

  /** The root a credential descends from; `viaHost` records that the
      derivation went through a trusted channel. */
  datatype Origin = Origin(root: Root, viaHost: bool)

  datatype Origins = Origins(channels: map<string, Origin>, resumes: map<string, Origin>,
                             locals: map<string, Origin>, delegations: map<string, Origin>)

  /** The gate's tables with the history that explains them: the roots that
      occurred, every identifier seen so far, and the scope each minted access
      session was created in. */
  datatype World = World(table: Table, env: Env, enabled: bool, revision: nat, revoking: bool, origins: Origins,
                         log: set<Root>, used: set<string>, minted: map<string, string>)

  datatype Step =
    | DoRegister(now: int, meta: Meta, trusted: bool, accessSession: string, source: Option<string>)
    | DoUnregister(channel: string)
    | DoSweep(now: int)
    | DoTimer(channel: string, deadline: int)
    | DoIssueChannel(now: int, channel: string, newSession: Option<string>, newResume: Option<string>)
    | DoIssueLocal(now: int, scope: string, newToken: Option<string>, newSession: Option<string>,
    newResume: Option<string>)
    | DoMint(now: int, resume: string, meta: Meta, scope: string, newToken: Option<string>)
    | DoResume(now: int, channel: string, resume: string)
    | DoDelegate(now: int, channel: string, codeSpace: string, newToken: Option<string>)
    | DoConsume(now: int, channel: string, token: string, newResume: Option<string>)
    | DoTakeLocal(token: string)
    | DoTakeByResume(now: int, resume: string)
    | DoTakeExpired(now: int)
    | DoRevokeResume(resume: string)
    | DoRevokeScopes(scope: string, family: bool)
    | PolicyChange
    | DoRevokeOrdinary

  // ----------------------------------------------------------- what is live

  datatype Credential = ChannelCred(channel: string) | ResumeCred(resume: string) | LocalCred(local: string)
      | DelegationCred(delegation: string)

  /** Credentials that grant access. Those of trusted channels are the host's own. */
  predicate Live(t: Table, c: Credential) {
    match c
    case ChannelCred(k) => k in t.channels && t.channels[k].unlocked
    case ResumeCred(k) => k in t.resumes
    case LocalCred(k) => k in t.locals
    case DelegationCred(k) => k in t.delegations
  }

  predicate Ordinary(t: Table, c: Credential) {
    Live(t, c) && (c.ChannelCred? ==> !t.channels[c.channel].trusted)
  }

  function SessionOf(t: Table, c: Credential): string
    requires Live(t, c)
  {
    match c
    case ChannelCred(k) => t.channels[k].accessSession
    case ResumeCred(k) => t.resumes[k].accessSession
    case LocalCred(k) => t.locals[k].accessSession
    case DelegationCred(k) => t.delegations[k].accessSession
  }

  function ScopeOf(t: Table, c: Credential): string
    requires Live(t, c)
  {
    match c
    case ChannelCred(k) => t.channels[k].scope
    case ResumeCred(k) => t.resumes[k].scope
    case LocalCred(k) => t.locals[k].scope
    case DelegationCred(k) => t.delegations[k].scope
  }

  function DeadlineOf(t: Table, c: Credential): Deadline
    requires Live(t, c)
  {
    match c
    case ChannelCred(k) => t.channels[k].expiresAt
    case ResumeCred(k) => At(t.resumes[k].expiresAt)
    case LocalCred(k) => At(t.locals[k].expiresAt)
    case DelegationCred(k) => t.delegations[k].parentExpires
  }

  function OriginOf(o: Origins, c: Credential): Option<Origin> {
    match c
    case ChannelCred(k) => if k in o.channels then Some(o.channels[k]) else None
    case ResumeCred(k) => if k in o.resumes then Some(o.resumes[k]) else None
    case LocalCred(k) => if k in o.locals then Some(o.locals[k]) else None
    case DelegationCred(k) => if k in o.delegations then Some(o.delegations[k]) else None
  }

  // ------------------------------------------------------------------ steps

  predicate FreshToken(w: World, t: Option<string>) {
    t.Some? ==> t.value !in w.used && t.value != "" && w.env.trim(t.value) == t.value
  }

  predicate Distinct(a: Option<string>, b: Option<string>) {
    a.Some? && b.Some? ==> a.value != b.value
  }

  /** Random tokens are new, and a registration inherits from a real session. */
  predicate Allowed(w: World, s: Step) {
    match s
    case DoRegister(now, meta, trusted, id, source) =>
      w.env.trim(id) == id && ValidSource(Credentials.Sweep(w.table, now), now, Inherits(w.enabled, trusted, id), id,
          source)
    case DoIssueChannel(_, _, session, resume) => !w.revoking && FreshToken(w, session) && FreshToken(w, resume) &&
        Distinct(session, resume)
    case DoIssueLocal(_, _, token, session, resume) =>
      !w.revoking && FreshToken(w, token) && FreshToken(w, session) && FreshToken(w, resume) &&
      Distinct(token, session) && Distinct(token, resume) && Distinct(session, resume)
    case DoMint(_, _, _, _, token) => FreshToken(w, token)
    case DoDelegate(_, _, _, token) => !w.revoking && FreshToken(w, token)
    case DoConsume(_, _, _, resume) => !w.revoking && FreshToken(w, resume)
    case PolicyChange => !w.revoking
    case DoRevokeOrdinary => w.revoking
    case _ => true
  }

  /** The host registers its trusted channels under an id that is never a
      minted access session (`trusted-desktop` in `internal/localui/localui.go`). */
  predicate HostIdsApart(w: World, s: Step) {
    s.DoRegister? && s.trusted ==> s.accessSession !in w.minted
  }

  function Drawn(t: Option<string>): set<string> {
    if t.Some? then {t.value} else {}
  }

  function Put(m: map<string, Origin>, key: string, o: Option<Origin>): map<string, Origin> {
    if o.Some? then m[key := o.value] else m - {key}
  }

  function WithResume(w: World, key: string, r: ResumeToken, o: Option<Origin>): World {
    w.(table := w.table.(resumes := w.table.resumes[key := r]),
        origins := w.origins.(resumes := Put(w.origins.resumes, key, o)))
  }

  function WithLocal(w: World, key: string, l: LocalSession, o: Option<Origin>): World {
    w.(table := w.table.(locals := w.table.locals[key := l]),
        origins := w.origins.(locals := Put(w.origins.locals, key, o)))
  }

  function WithDelegation(w: World, key: string, d: Delegation, o: Option<Origin>): World {
    w.(table := w.table.(delegations := w.table.delegations[key := d]),
       origins := w.origins.(delegations := Put(w.origins.delegations, key, o)))
  }

  function WithChannel(w: World, key: string, c: Channel, o: Option<Origin>): World {
    w.(table := Credentials.SetChannel(w.table, key, c),
        origins := w.origins.(channels := Put(w.origins.channels, key, o)))
  }

  function Noted(w: World, roots: set<Root>, ids: set<string>): World {
    w.(log := w.log + roots, used := w.used + ids)
  }

  function Minted(w: World, session: string, scope: string): World {
    w.(minted := w.minted[session := scope])
  }

  function Swept(w: World, now: int): World {
    w.(table := Credentials.Sweep(w.table, now))
  }

  function SignIn(w: World, now: int): Root {
    Root(SignedIn, now, w.revision)
  }

  /** The origin handed to a delegation: that of the channel, or a new grant
      when the trusted channel has no deadline of its own. */
  function GrantOrigin(w: World, now: int, channel: string): Option<Origin> {
    if channel !in w.table.channels then None
    else if w.table.channels[channel].expiresAt.Never? then Some(Origin(Root(HostGrant, now, w.revision), true))
    else match OriginOf(w.origins, ChannelCred(channel))
         case Some(o) => Some(Origin(o.root, o.viaHost || w.table.channels[channel].trusted))
         case None => None
  }

  function AfterRegister(w: World, s: Step): World
    requires s.DoRegister? && Allowed(w, s)
  {
    var inherited := if s.source.Some? then OriginOf(w.origins, LocalCred(s.source.value)) else None;
    if w.env.trim(s.meta.channelId) == "" then w
    else WithChannel(Noted(Swept(w, s.now), {}, {s.accessSession}), w.env.trim(s.meta.channelId),
                     Registered(w.table, w.enabled, s.meta, s.trusted, s.accessSession, s.source), inherited)
  }

  /** A channel unlocked under a new access session, with a resume token where
      it may have one. */
  function OpenedChannel(w: World, key: string, st: Channel, session: string, resume: Option<string>, o: Origin,
          deadline: int): World {
    var m := Minted(w, session, st.scope);
    var x := if resume.Some? then WithResume(m, resume.value, ResumeFor(w.env, st.meta, st.scope, session, deadline),
        Some(o)) else m;
    WithChannel(x, key, st.(unlocked := true, expiresAt := At(deadline), accessSession := session), Some(o))
  }

  /** A channel unlocked by an authentication. */
  function IssuedChannel(w: World, s: Step): World
    requires s.DoIssueChannel? && s.newSession.Some? && w.env.trim(s.channel) in Swept(w, s.now).table.channels
  {
    var v := Noted(Swept(w, s.now), {SignIn(w, s.now)}, Drawn(s.newSession) + Drawn(s.newResume));
    var st := v.table.channels[w.env.trim(s.channel)];
    OpenedChannel(v, w.env.trim(s.channel), st, s.newSession.value, if MintsResume(w.env, st.meta) then s.newResume
        else None,
                  Origin(SignIn(w, s.now), false), s.now + w.env.resumeTTL)
  }

  function AfterIssueChannel(w: World, s: Step): World
    requires s.DoIssueChannel?
  {
    var r := Credentials.IssueChannel(w.table, w.env, s.now, s.channel, s.newSession, s.newResume);
    if r.1.Err? then Noted(w.(table := r.0), {SignIn(w, s.now)}, Drawn(s.newSession) + Drawn(s.newResume))
        else IssuedChannel(w, s)
  }

  /** A local session under a new access session, with a resume token if one
      could be drawn. */
  function OpenedLocal(w: World, token: string, local: LocalSession, resume: Option<string>, o: Origin,
          deadline: int): World {
    var x := WithLocal(Minted(w, local.accessSession, local.scope), token, local, Some(o));
    if resume.None? then x
    else WithResume(x, resume.value,
        ResumeToken(local.scope, w.env.trim(local.accessSession), LOCAL_BINDING, deadline), Some(o))
  }

  function AfterIssueLocal(w: World, s: Step): World
    requires s.DoIssueLocal?
  {
    var v := Noted(Swept(w, s.now), {SignIn(w, s.now)}, Drawn(s.newToken) + Drawn(s.newSession) + Drawn(s.newResume));
    if s.newToken.None? || s.newSession.None? then v
    else
      var deadline := s.now + w.env.resumeTTL;
      OpenedLocal(v, s.newToken.value, LocalSession(s.scope, s.newSession.value, Min(s.now + w.env.localTTL, deadline)),
                  s.newResume, Origin(SignIn(w, s.now), false), deadline)
  }

  /** A local session minted within a live resume token. */
  function MintedLocal(w: World, s: Step): World
    requires s.DoMint? && s.newToken.Some? && w.env.trim(s.resume) in Swept(w, s.now).table.resumes
  {
    var v := Noted(Swept(w, s.now), {}, Drawn(s.newToken));
    var parent := v.table.resumes[w.env.trim(s.resume)];
    WithLocal(v, s.newToken.value,
              LocalSession(s.scope, w.env.trim(parent.accessSession), Min(s.now + w.env.localTTL, parent.expiresAt)),
              OriginOf(w.origins, ResumeCred(w.env.trim(s.resume))))
  }

  function AfterMint(w: World, s: Step): World
    requires s.DoMint?
  {
    var r := Credentials.MintFromResume(w.table, w.env, s.now, s.resume, s.meta, s.scope, s.newToken);
    if r.1.Err? then Noted(w.(table := r.0), {}, Drawn(s.newToken)) else MintedLocal(w, s)
  }

  /** A channel unlocked by a live resume token. */
  function ResumedChannel(w: World, s: Step): World
    requires s.DoResume?
    requires w.env.trim(s.resume) in Swept(w, s.now).table.resumes &&
             w.env.trim(s.channel) in Swept(w, s.now).table.channels
  {
    var v := Swept(w, s.now);
    var parent := v.table.resumes[w.env.trim(s.resume)];
    WithChannel(v, w.env.trim(s.channel),
                v.table.channels[w.env.trim(s.channel)]
                .(unlocked := true, expiresAt := At(parent.expiresAt), accessSession := parent.accessSession),
                OriginOf(w.origins, ResumeCred(w.env.trim(s.resume))))
  }

  function AfterResume(w: World, s: Step): World
    requires s.DoResume?
  {
    var r := Credentials.Resume(w.table, w.env, s.now, s.channel, s.resume);
    if r.1.Some? then w.(table := r.0) else ResumedChannel(w, s)
  }

  /** A delegation pending on an open channel. */
  function Delegated(w: World, s: Step): World
    requires s.DoDelegate? && s.newToken.Some? && s.channel in Swept(w, s.now).table.channels
  {
    var o, st := GrantOrigin(w, s.now, s.channel), Swept(w, s.now).table.channels[s.channel];
    var v := Noted(w.(table := PendingDelegations(Swept(w, s.now).table, s.now)),
                   if o.Some? then {o.value.root} else {}, Drawn(s.newToken));
    WithDelegation(v, s.newToken.value, DelegationFrom(st, w.env, s.now, w.env.trim(s.codeSpace)), o)
  }

  function AfterDelegate(w: World, s: Step): World
    requires s.DoDelegate?
  {
    var r := Credentials.Delegate(w.table, w.env, s.now, s.channel, s.codeSpace, s.newToken);
    if r.1.Err? then Noted(w.(table := r.0), {}, Drawn(s.newToken)) else Delegated(w, s)
  }

  /** A pending delegation redeemed on a channel. */
  function Consumed(w: World, s: Step): World
    requires s.DoConsume? && s.newResume.Some? && s.token in w.table.delegations
    requires s.channel in Swept(w, s.now).table.channels && w.table.delegations[s.token].parentExpires.At?
  {
    var v := Noted(Swept(w, s.now), {}, Drawn(s.newResume));
    var d, st := v.table.delegations[s.token], v.table.channels[s.channel];
    var o := OriginOf(w.origins, DelegationCred(s.token));
    var x := WithResume(v, s.newResume.value,
        ResumeFor(w.env, st.meta, d.scope, d.accessSession, d.parentExpires.instant), o);
    var y := WithDelegation(x, s.token,
        d.(consumedChannel := s.channel, result := Some(Unlock(s.newResume.value, d.parentExpires))), o);
    WithChannel(y, s.channel, st.(unlocked := true, expiresAt := d.parentExpires, accessSession := d.accessSession), o)
  }

  function AfterConsume(w: World, s: Step): World
    requires s.DoConsume?
  {
    var r := Credentials.Consume(w.table, w.env, s.now, s.channel, s.token, s.newResume);
    if r.1.Err? || w.table.delegations[s.token].consumedChannel != ""
        then Noted(w.(table := r.0), {}, Drawn(s.newResume))
    else Consumed(w, s)
  }

  /** What the gate's own critical section makes of the tables. */
  function TableAfter(w: World, s: Step): Table
    requires Allowed(w, s)
  {
    var t, e := w.table, w.env;
    match s
    case DoRegister(now, meta, trusted, id, source) => Credentials.Register(t, e, w.enabled, now, meta, trusted, id,
        source)
    case DoUnregister(channel) => Credentials.Unregister(t, e, channel)
    case DoSweep(now) => Credentials.Sweep(t, now)
    case DoTimer(channel, deadline) => Credentials.TimerFired(t, channel, deadline)
    case DoConsume(now, channel, token, resume) => Credentials.Consume(t, e, now, channel, token, resume).0
    case DoRevokeScopes(scope, family) => Credentials.RevokeScopes(t, scope, family)
    case PolicyChange => t
    case DoRevokeOrdinary => Credentials.RevokeOrdinary(t)
    case _ =>
      if !w.enabled then t
      else match s
      case DoIssueChannel(now, channel, session, resume) => Credentials.IssueChannel(t, e, now, channel, session,
          resume).0
      case DoIssueLocal(now, scope, token, session, resume) => Credentials.IssueLocal(t, e, now, scope, token,
          session, resume).0
      case DoMint(now, resume, meta, scope, token) => Credentials.MintFromResume(t, e, now, resume, meta, scope,
          token).0
      case DoResume(now, channel, resume) => Credentials.Resume(t, e, now, channel, resume).0
      case DoDelegate(now, channel, space, token) => Credentials.Delegate(t, e, now, channel, space, token).0
      case DoTakeLocal(token) => Credentials.TakeLocal(t, e, token).0
      case DoTakeByResume(now, resume) => Credentials.TakeByResume(t, e, now, resume).0
      case DoTakeExpired(now) => Credentials.TakeExpired(t, e, now)
      case DoRevokeResume(resume) => Credentials.RevokeResume(t, e, resume)
  }

  /** The tables move as `TableAfter` says (`AfterFollowsGate`), and the
      history moves with them. */
  function After(w: World, s: Step): World
    requires Allowed(w, s)
  {
    match s
    case DoRegister(_, _, _, _, _) => AfterRegister(w, s)
    case DoIssueChannel(_, _, _, _) => if w.enabled then AfterIssueChannel(w, s) else w
    case DoIssueLocal(_, _, _, _, _) => if w.enabled then AfterIssueLocal(w, s) else w
    case DoMint(_, _, _, _, _) => if w.enabled then AfterMint(w, s) else w
    case DoResume(_, _, _) => if w.enabled then AfterResume(w, s) else w
    case DoDelegate(_, _, _, _) => if w.enabled then AfterDelegate(w, s) else w
    case DoConsume(_, _, _, _) => AfterConsume(w, s)
    case PolicyChange => w.(enabled := true, revision := w.revision + 1, revoking := true)
    case DoRevokeOrdinary => w.(table := TableAfter(w, s), revoking := false)
    case _ => w.(table := TableAfter(w, s))
  }

  lemma {:induction false} OpenedChannelTable(w: World, key: string, st: Channel, session: string,
          resume: Option<string>, o: Origin,
          deadline: int)
    ensures
      var open := st.(unlocked := true, expiresAt := At(deadline), accessSession := session);
      var t := if resume.None? then w.table
               else w.table.(resumes := w.table.resumes[resume.value :=
                   ResumeFor(w.env, st.meta, st.scope, session, deadline)]);
      OpenedChannel(w, key, st, session, resume, o, deadline).table == Credentials.SetChannel(t, key, open)
  {}

  lemma {:induction false} IssueChannelFollowsGate(w: World, s: Step)
    requires s.DoIssueChannel?
    ensures AfterIssueChannel(w, s).table == Credentials.IssueChannel(w.table, w.env, s.now, s.channel, s.newSession,
            s.newResume).0
  {
    if Credentials.IssueChannel(w.table, w.env, s.now, s.channel, s.newSession, s.newResume).1.Ok? {
      var v := Noted(Swept(w, s.now), {SignIn(w, s.now)}, Drawn(s.newSession) + Drawn(s.newResume));
      var st := v.table.channels[w.env.trim(s.channel)];
      OpenedChannelTable(v, w.env.trim(s.channel), st, s.newSession.value, if MintsResume(w.env, st.meta)
          then s.newResume else None,
                         Origin(SignIn(w, s.now), false), s.now + w.env.resumeTTL);
    }
  }

  lemma {:induction false} OpenedLocalTable(w: World, token: string, local: LocalSession, resume: Option<string>,
          o: Origin, deadline: int)
    ensures
      var t := w.table.(locals := w.table.locals[token := local]);
      OpenedLocal(w, token, local, resume, o, deadline).table ==
      if resume.None? then t
      else t.(resumes := t.resumes[resume.value :=
          ResumeToken(local.scope, w.env.trim(local.accessSession), LOCAL_BINDING, deadline)])
  {}

  lemma {:induction false} IssueLocalFollowsGate(w: World, s: Step)
    requires s.DoIssueLocal?
    ensures AfterIssueLocal(w, s).table ==
            Credentials.IssueLocal(w.table, w.env, s.now, s.scope, s.newToken, s.newSession, s.newResume).0
  {
    if s.newToken.Some? && s.newSession.Some? {
      var deadline := s.now + w.env.resumeTTL;
      OpenedLocalTable(Noted(Swept(w, s.now), {SignIn(w, s.now)}, Drawn(s.newToken) + Drawn(s.newSession) +
          Drawn(s.newResume)),
                       s.newToken.value, LocalSession(s.scope, s.newSession.value,
                       Min(s.now + w.env.localTTL, deadline)),
                       s.newResume, Origin(SignIn(w, s.now), false), deadline);
    }
  }

  lemma {:induction false} MintFollowsGate(w: World, s: Step)
    requires s.DoMint?
    ensures AfterMint(w, s).table == Credentials.MintFromResume(w.table, w.env, s.now, s.resume, s.meta, s.scope,
            s.newToken).0
  {}

  lemma {:induction false} ResumeFollowsGate(w: World, s: Step)
    requires s.DoResume?
    ensures AfterResume(w, s).table == Credentials.Resume(w.table, w.env, s.now, s.channel, s.resume).0
  {}

  lemma {:induction false} DelegateFollowsGate(w: World, s: Step)
    requires s.DoDelegate?
    ensures AfterDelegate(w, s).table == Credentials.Delegate(w.table, w.env, s.now, s.channel, s.codeSpace,
            s.newToken).0
  {}

  lemma {:induction false} ConsumeFollowsGate(w: World, s: Step)
    requires s.DoConsume?
    ensures AfterConsume(w, s).table == Credentials.Consume(w.table, w.env, s.now, s.channel, s.token, s.newResume).0
  {}

  lemma {:induction false} AfterFollowsGate(w: World, s: Step)
    requires Allowed(w, s)
    ensures After(w, s).table == TableAfter(w, s)
  {
    match s
    case DoIssueChannel(_, _, _, _) => IssueChannelFollowsGate(w, s);
    case DoIssueLocal(_, _, _, _, _) => IssueLocalFollowsGate(w, s);
    case DoMint(_, _, _, _, _) => MintFollowsGate(w, s);
    case DoResume(_, _, _) => ResumeFollowsGate(w, s);
    case DoDelegate(_, _, _, _) => DelegateFollowsGate(w, s);
    case DoConsume(_, _, _, _) => ConsumeFollowsGate(w, s);
    case _ =>
  }

  // -------------------------------------------------------------- invariant

  /** A deadline backed by a root that occurred. */
  predicate Bounded(w: World, o: Option<Origin>, deadline: Deadline) {
    o.Some? && o.value.root in w.log && deadline.At? && deadline.instant <= o.value.root.time + w.env.resumeTTL
  }

  /** Outside a pending revocation the root belongs to the policy in force. */
  predicate Current(w: World, o: Option<Origin>) {
    o.Some? && (o.value.viaHost || o.value.root.revision == w.revision)
  }

  predicate Settled(w: World) {
    w.enabled && !w.revoking
  }

  predicate Good(w: World, o: Option<Origin>, deadline: Deadline) {
    Bounded(w, o, deadline) && (Settled(w) ==> Current(w, o))
  }

  predicate GoodId(w: World, id: string) {
    id in w.used && w.env.trim(id) == id
  }

  predicate GoodChannel(w: World, c: Channel, o: Option<Origin>) {
    GoodId(w, c.accessSession) && (c.expiresAt.At? ==> Bounded(w, o, c.expiresAt)) &&
    (Settled(w) && c.unlocked && !c.trusted ==> Good(w, o, c.expiresAt))
  }

  predicate Sound(w: World, c: Credential) {
    var t, o := w.table, OriginOf(w.origins, c);
    match c
    case ChannelCred(k) => k in t.channels ==> GoodChannel(w, t.channels[k], o)
    case ResumeCred(k) => k in t.resumes ==>
        k in w.used && GoodId(w, t.resumes[k].accessSession) &&
        Good(w, o, At(t.resumes[k].expiresAt))
    case LocalCred(k) => k in t.locals ==>
        k in w.used && GoodId(w, t.locals[k].accessSession) &&
        Good(w, o, At(t.locals[k].expiresAt))
    case DelegationCred(k) => k in t.delegations ==>
        k in w.used && GoodId(w, t.delegations[k].accessSession) &&
        Good(w, o, t.delegations[k].parentExpires)
  }

  /** Minted ids are known ids, and nothing is minted without a policy. */
  predicate Orderly(w: World) {
    && "" in w.used && "" !in w.minted && w.minted.Keys <= w.used
    && (!w.enabled ==>
        !w.revoking && w.minted == map[] && w.table.resumes == map[] && w.table.locals == map[] &&
        w.table.delegations == map[])
  }

  ghost predicate Inv(w: World) {
    Orderly(w) && forall c :: Sound(w, c)
  }

  // --------------------------------------------------------- building blocks

  /** `u` keeps some of `t`: nothing new, nothing reopened, nothing extended. */
  predicate KeepsSome(t: Table, u: Table, c: Credential) {
    match c
    case ChannelCred(k) => k in u.channels ==>
        k in t.channels && (u.channels[k] == t.channels[k] || u.channels[k] == t.channels[k].(unlocked := false))
    case ResumeCred(k) => k in u.resumes ==> k in t.resumes && u.resumes[k] == t.resumes[k]
    case LocalCred(k) => k in u.locals ==> k in t.locals && u.locals[k] == t.locals[k]
    case DelegationCred(k) => k in u.delegations ==> k in t.delegations && u.delegations[k] == t.delegations[k]
  }

  ghost predicate Shrinks(t: Table, u: Table) {
    forall c :: KeepsSome(t, u, c)
  }

  lemma {:induction false} ShrinkKeeps(w: World, u: Table)
    requires Inv(w) && Shrinks(w.table, u)
    ensures Inv(w.(table := u))
  {
    forall c ensures Sound(w.(table := u), c) { assert Sound(w, c) && KeepsSome(w.table, u, c); }
    if !w.enabled {
      assert forall k :: k in u.resumes ==> !KeepsSome(w.table, u, ResumeCred(k));
      assert forall k :: k in u.locals ==> !KeepsSome(w.table, u, LocalCred(k));
      assert forall k :: k in u.delegations ==> !KeepsSome(w.table, u, DelegationCred(k));
    }
  }

  /** History may grow: new roots, new identifiers. */
  lemma {:induction false} NotingKeeps(w: World, roots: set<Root>, ids: set<string>)
    requires Inv(w)
    ensures Inv(Noted(w, roots, ids))
  {
    forall c ensures Sound(Noted(w, roots, ids), c) { assert Sound(w, c); }
  }

  lemma {:induction false} MintingKeeps(w: World, session: string, scope: string)
    requires Inv(w) && w.enabled && session != "" && session in w.used
    ensures Inv(Minted(w, session, scope))
  {
    forall c ensures Sound(Minted(w, session, scope), c) { assert Sound(w, c); }
  }

  lemma {:induction false} ResumeKeeps(w: World, key: string, r: ResumeToken, o: Option<Origin>)
    requires Inv(w) && w.enabled && key in w.used && GoodId(w, r.accessSession) && Good(w, o, At(r.expiresAt))
    ensures Inv(WithResume(w, key, r, o))
  {
    forall c ensures Sound(WithResume(w, key, r, o), c) { assert Sound(w, c); }
  }

  lemma {:induction false} LocalKeeps(w: World, key: string, l: LocalSession, o: Option<Origin>)
    requires Inv(w) && w.enabled && key in w.used && GoodId(w, l.accessSession) && Good(w, o, At(l.expiresAt))
    ensures Inv(WithLocal(w, key, l, o))
  {
    forall c ensures Sound(WithLocal(w, key, l, o), c) { assert Sound(w, c); }
  }

  lemma {:induction false} DelegationKeeps(w: World, key: string, d: Delegation, o: Option<Origin>)
    requires Inv(w) && w.enabled && key in w.used && GoodId(w, d.accessSession) && Good(w, o, d.parentExpires)
    ensures Inv(WithDelegation(w, key, d, o))
  {
    forall c ensures Sound(WithDelegation(w, key, d, o), c) { assert Sound(w, c); }
  }

  lemma {:induction false} ChannelKeeps(w: World, key: string, c: Channel, o: Option<Origin>)
    requires Inv(w) && GoodChannel(w, c, o)
    ensures Inv(WithChannel(w, key, c, o))
  {
    forall d ensures Sound(WithChannel(w, key, c, o), d) { assert Sound(w, d); }
  }

  // ------------------------------------------------------- every step keeps

  lemma {:induction false} SweepShrinks(t: Table, now: int)
    ensures Shrinks(t, Credentials.Sweep(t, now))
  {}

  lemma {:induction false} SweepKeeps(w: World, now: int)
    requires Inv(w)
    ensures Inv(Swept(w, now))
  {
    SweepShrinks(w.table, now);
    ShrinkKeeps(w, Swept(w, now).table);
  }

  lemma {:induction false} RegisterKeeps(w: World, s: Step)
    requires Inv(w) && s.DoRegister? && Allowed(w, s)
    ensures Inv(AfterRegister(w, s))
  {
    if w.env.trim(s.meta.channelId) != "" {
      var v := Noted(Swept(w, s.now), {}, {s.accessSession});
      SweepKeeps(w, s.now);
      NotingKeeps(Swept(w, s.now), {}, {s.accessSession});
      var inherited := if s.source.Some? then OriginOf(w.origins, LocalCred(s.source.value)) else None;
      if s.source.Some? { assert Sound(v, LocalCred(s.source.value)); }
      ChannelKeeps(v, w.env.trim(s.meta.channelId),
          Registered(w.table, w.enabled, s.meta, s.trusted, s.accessSession, s.source), inherited);
    }
  }

  lemma {:induction false} OpenedChannelKeeps(w: World, key: string, st: Channel, session: string,
          resume: Option<string>, o: Origin,
          deadline: int)
    requires Inv(w) && w.enabled && session != "" && GoodId(w, session) && (resume.Some? ==> resume.value in w.used)
    requires Good(w, Some(o), At(deadline))
    ensures Inv(OpenedChannel(w, key, st, session, resume, o, deadline))
  {
    MintingKeeps(w, session, st.scope);
    var m := Minted(w, session, st.scope);
    if resume.Some? {
      ResumeKeeps(m, resume.value, ResumeFor(w.env, st.meta, st.scope, session, deadline), Some(o));
      m := WithResume(m, resume.value, ResumeFor(w.env, st.meta, st.scope, session, deadline), Some(o));
    }
    ChannelKeeps(m, key, st.(unlocked := true, expiresAt := At(deadline), accessSession := session), Some(o));
  }

  lemma {:induction false} IssuedChannelKeeps(w: World, s: Step)
    requires Inv(w) && w.enabled && s.DoIssueChannel? && Allowed(w, s)
    requires s.newSession.Some? && w.env.trim(s.channel) in Swept(w, s.now).table.channels
    ensures Inv(IssuedChannel(w, s))
  {
    var root, ids := SignIn(w, s.now), Drawn(s.newSession) + Drawn(s.newResume);
    SweepKeeps(w, s.now);
    NotingKeeps(Swept(w, s.now), {root}, ids);
    var v := Noted(Swept(w, s.now), {root}, ids);
    var st := v.table.channels[w.env.trim(s.channel)];
    OpenedChannelKeeps(v, w.env.trim(s.channel), st, s.newSession.value, if MintsResume(w.env, st.meta)
        then s.newResume else None,
                       Origin(root, false), s.now + w.env.resumeTTL);
  }

  /** A step that is refused at most sweeps. */
  lemma {:induction false} RefusedKeeps(w: World, t: Table, now: int, roots: set<Root>, ids: set<string>)
    requires Inv(w) && (t == w.table || t == Credentials.Sweep(w.table, now))
    ensures Inv(Noted(w.(table := t), roots, ids)) && Inv(w.(table := t))
  {
    SweepKeeps(w, now);
    assert w.(table := w.table) == w && w.(table := Credentials.Sweep(w.table, now)) == Swept(w, now);
    NotingKeeps(w.(table := t), roots, ids);
  }

  lemma {:induction false} IssueChannelKeeps(w: World, s: Step)
    requires Inv(w) && w.enabled && s.DoIssueChannel? && Allowed(w, s)
    ensures Inv(AfterIssueChannel(w, s))
  {
    var r := Credentials.IssueChannel(w.table, w.env, s.now, s.channel, s.newSession, s.newResume);
    if r.1.Ok? {
      IssuedChannelKeeps(w, s);
    } else {
      RefusedKeeps(w, r.0, s.now, {SignIn(w, s.now)}, Drawn(s.newSession) + Drawn(s.newResume));
    }
  }

  lemma {:induction false} OpenedLocalKeeps(w: World, token: string, local: LocalSession, resume: Option<string>,
          o: Origin, deadline: int)
    requires Inv(w) && w.enabled && local.accessSession != "" && GoodId(w, local.accessSession) && token in w.used
    requires (resume.Some? ==> resume.value in w.used) && Good(w, Some(o), At(deadline)) &&
             Good(w, Some(o), At(local.expiresAt))
    ensures Inv(OpenedLocal(w, token, local, resume, o, deadline))
  {
    var m := Minted(w, local.accessSession, local.scope);
    MintingKeeps(w, local.accessSession, local.scope);
    LocalKeeps(m, token, local, Some(o));
    if resume.Some? {
      ResumeKeeps(WithLocal(m, token, local, Some(o)), resume.value,
                  ResumeToken(local.scope, w.env.trim(local.accessSession), LOCAL_BINDING, deadline), Some(o));
    }
  }

  lemma {:induction false} IssueLocalKeeps(w: World, s: Step)
    requires Inv(w) && w.enabled && s.DoIssueLocal? && Allowed(w, s)
    ensures Inv(AfterIssueLocal(w, s))
  {
    var root, ids := SignIn(w, s.now), Drawn(s.newToken) + Drawn(s.newSession) + Drawn(s.newResume);
    SweepKeeps(w, s.now);
    NotingKeeps(Swept(w, s.now), {root}, ids);
    if s.newToken.Some? && s.newSession.Some? {
      var deadline := s.now + w.env.resumeTTL;
      OpenedLocalKeeps(Noted(Swept(w, s.now), {root}, ids), s.newToken.value,
                       LocalSession(s.scope, s.newSession.value, Min(s.now + w.env.localTTL, deadline)),
                       s.newResume, Origin(root, false), deadline);
    }
  }

  lemma {:induction false} DerivedLocalKeeps(w: World, key: string, resume: string, scope: string, now: int)
    requires Inv(w) && w.enabled && key in w.used && resume in w.table.resumes
    ensures
      var parent := w.table.resumes[resume];
      Inv(WithLocal(w, key, LocalSession(scope, w.env.trim(parent.accessSession),
          Min(now + w.env.localTTL, parent.expiresAt)),
                    OriginOf(w.origins, ResumeCred(resume))))
  {
    var parent := w.table.resumes[resume];
    assert Sound(w, ResumeCred(resume));
    LocalKeeps(w, key, LocalSession(scope, w.env.trim(parent.accessSession),
        Min(now + w.env.localTTL, parent.expiresAt)),
               OriginOf(w.origins, ResumeCred(resume)));
  }

  lemma {:induction false} MintKeeps(w: World, s: Step)
    requires Inv(w) && w.enabled && s.DoMint? && Allowed(w, s)
    ensures Inv(AfterMint(w, s))
  {
    var r := Credentials.MintFromResume(w.table, w.env, s.now, s.resume, s.meta, s.scope, s.newToken);
    if r.1.Ok? {
      SweepKeeps(w, s.now);
      NotingKeeps(Swept(w, s.now), {}, Drawn(s.newToken));
      DerivedLocalKeeps(Noted(Swept(w, s.now), {}, Drawn(s.newToken)), s.newToken.value, w.env.trim(s.resume),
          s.scope, s.now);
    } else {
      RefusedKeeps(w, r.0, s.now, {}, Drawn(s.newToken));
    }
  }

  lemma {:induction false} ResumedChannelKeeps(w: World, s: Step)
    requires Inv(w) && w.enabled && s.DoResume?
    requires w.env.trim(s.resume) in Swept(w, s.now).table.resumes &&
             w.env.trim(s.channel) in Swept(w, s.now).table.channels
    ensures Inv(ResumedChannel(w, s))
  {
    SweepKeeps(w, s.now);
    var v := Swept(w, s.now);
    var parent := v.table.resumes[w.env.trim(s.resume)];
    assert Sound(v, ResumeCred(w.env.trim(s.resume)));
    ChannelKeeps(v, w.env.trim(s.channel),
                 v.table.channels[w.env.trim(s.channel)]
                 .(unlocked := true, expiresAt := At(parent.expiresAt), accessSession := parent.accessSession),
                 OriginOf(w.origins, ResumeCred(w.env.trim(s.resume))));
  }

  lemma {:induction false} ResumeChannelKeeps(w: World, s: Step)
    requires Inv(w) && w.enabled && s.DoResume? && Allowed(w, s)
    ensures Inv(AfterResume(w, s))
  {
    var r := Credentials.Resume(w.table, w.env, s.now, s.channel, s.resume);
    if r.1.None? { ResumedChannelKeeps(w, s); } else { RefusedKeeps(w, r.0, s.now, {}, {}); }
  }

  lemma {:induction false} PendingKeeps(w: World, now: int)
    requires Inv(w)
    ensures Inv(w.(table := PendingDelegations(w.table, now)))
  {
    assert Shrinks(w.table, PendingDelegations(w.table, now));
    ShrinkKeeps(w, PendingDelegations(w.table, now));
  }

  lemma {:induction false} GrantKeeps(w: World, now: int, channel: string, space: string, token: string)
    requires Inv(w) && Settled(w) && channel in w.table.channels && w.table.channels[channel].unlocked
    ensures
      var o := GrantOrigin(w, now, channel);
      o.Some? && Inv(WithDelegation(Noted(w, {o.value.root}, {token}), token,
          DelegationFrom(w.table.channels[channel], w.env, now, space), o))
  {
    assert Sound(w, ChannelCred(channel));
    var o := GrantOrigin(w, now, channel);
    NotingKeeps(w, {o.value.root}, {token});
    DelegationKeeps(Noted(w, {o.value.root}, {token}), token,
        DelegationFrom(w.table.channels[channel], w.env, now, space), o);
  }

  lemma {:induction false} DelegatedKeeps(w: World, s: Step)
    requires Inv(w) && Settled(w) && s.DoDelegate? && s.newToken.Some?
    requires s.channel in Swept(w, s.now).table.channels && Swept(w, s.now).table.channels[s.channel].unlocked
    ensures Inv(Delegated(w, s))
  {
    SweepKeeps(w, s.now);
    PendingKeeps(Swept(w, s.now), s.now);
    var p := w.(table := PendingDelegations(Swept(w, s.now).table, s.now));
    GrantKeeps(p, s.now, s.channel, w.env.trim(s.codeSpace), s.newToken.value);
    assert GrantOrigin(w, s.now, s.channel) == GrantOrigin(p, s.now, s.channel);
  }

  lemma {:induction false} DelegateKeeps(w: World, s: Step)
    requires Inv(w) && w.enabled && s.DoDelegate? && Allowed(w, s)
    ensures Inv(AfterDelegate(w, s))
  {
    var r := Credentials.Delegate(w.table, w.env, s.now, s.channel, s.codeSpace, s.newToken);
    if r.1.Ok? {
      DelegatedKeeps(w, s);
    } else if r.0 == w.table || r.0 == Credentials.Sweep(w.table, s.now) {
      RefusedKeeps(w, r.0, s.now, {}, Drawn(s.newToken));
    } else {
      SweepKeeps(w, s.now);
      PendingKeeps(Swept(w, s.now), s.now);
      NotingKeeps(w.(table := r.0), {}, Drawn(s.newToken));
    }
  }

  lemma {:induction false} ConsumedKeeps(w: World, s: Step)
    requires Inv(w) && w.enabled && s.DoConsume? && s.newResume.Some? && s.token in w.table.delegations
    requires s.channel in Swept(w, s.now).table.channels && w.table.delegations[s.token].parentExpires.At?
    ensures Inv(Consumed(w, s))
  {
    SweepKeeps(w, s.now);
    NotingKeeps(Swept(w, s.now), {}, Drawn(s.newResume));
    var v := Noted(Swept(w, s.now), {}, Drawn(s.newResume));
    var d, st := v.table.delegations[s.token], v.table.channels[s.channel];
    var o := OriginOf(w.origins, DelegationCred(s.token));
    assert Sound(v, DelegationCred(s.token));
    ResumeKeeps(v, s.newResume.value, ResumeFor(w.env, st.meta, d.scope, d.accessSession, d.parentExpires.instant), o);
    var x := WithResume(v, s.newResume.value,
        ResumeFor(w.env, st.meta, d.scope, d.accessSession, d.parentExpires.instant), o);
    var e := d.(consumedChannel := s.channel, result := Some(Unlock(s.newResume.value, d.parentExpires)));
    DelegationKeeps(x, s.token, e, o);
    ChannelKeeps(WithDelegation(x, s.token, e, o), s.channel,
                 st.(unlocked := true, expiresAt := d.parentExpires, accessSession := d.accessSession), o);
  }

  lemma {:induction false} ConsumeKeeps(w: World, s: Step)
    requires Inv(w) && s.DoConsume? && Allowed(w, s)
    ensures Inv(AfterConsume(w, s))
  {
    var r := Credentials.Consume(w.table, w.env, s.now, s.channel, s.token, s.newResume);
    if r.1.Ok? && w.table.delegations[s.token].consumedChannel == "" {
      ConsumedKeeps(w, s);
    } else {
      RefusedKeeps(w, r.0, s.now, {}, Drawn(s.newResume));
    }
  }

  lemma {:induction false} RevocationShrinks(t: Table, ids: set<string>)
    ensures Shrinks(t, RevokeSessions(t, ids))
  {}

  lemma {:induction false} ShrinkChains(t: Table, u: Table, v: Table)
    requires Shrinks(t, u) && Shrinks(u, v)
    ensures Shrinks(t, v)
  {
    forall c ensures KeepsSome(t, v, c) { assert KeepsSome(t, u, c) && KeepsSome(u, v, c); }
  }

  /** The steps that only take away. */
  predicate Removes(s: Step) {
    s.DoUnregister? || s.DoSweep? || s.DoTimer? || s.DoTakeLocal? || s.DoTakeByResume? || s.DoTakeExpired? ||
    s.DoRevokeResume? || s.DoRevokeScopes?
  }

  /** Every step that is neither an issue nor a derivation only takes away. */
  lemma {:induction false} RemovalShrinks(w: World, s: Step)
    requires Allowed(w, s)
    requires Removes(s) || s.DoRevokeOrdinary? || s.PolicyChange?
    ensures Shrinks(w.table, TableAfter(w, s))
  {
    match s
    case DoTakeLocal(token) =>
      if w.env.trim(token) in w.table.locals {
        RevocationShrinks(w.table, {w.table.locals[w.env.trim(token)].accessSession});
      }
    case DoTakeByResume(now, resume) =>
      var t := Credentials.Sweep(w.table, now);
      SweepShrinks(w.table, now);
      if w.env.trim(resume) in t.resumes {
        RevocationShrinks(t, {t.resumes[w.env.trim(resume)].accessSession});
        ShrinkChains(w.table, t, RevokeSessions(t, {t.resumes[w.env.trim(resume)].accessSession}));
      }
    case DoRevokeScopes(scope, family) => RevocationShrinks(w.table, ScopeSessions(w.table, scope, family));
    case DoSweep(now) => SweepShrinks(w.table, now);
    case _ =>
  }

  lemma {:induction false} PolicyKeeps(w: World, s: Step)
    requires Inv(w) && (s.PolicyChange? || s.DoRevokeOrdinary?) && Allowed(w, s)
    ensures Inv(After(w, s))
  {
    forall c ensures Sound(After(w, s), c) { assert Sound(w, c); }
  }

  lemma {:induction false} DerivationKeeps(w: World, s: Step)
    requires Inv(w) && Allowed(w, s) && !Removes(s) && !s.PolicyChange? && !s.DoRevokeOrdinary?
    ensures Inv(After(w, s))
  {
    match s
    case DoRegister(_, _, _, _, _) => RegisterKeeps(w, s);
    case DoIssueChannel(_, _, _, _) => if w.enabled { IssueChannelKeeps(w, s); }
    case DoIssueLocal(_, _, _, _, _) => if w.enabled { IssueLocalKeeps(w, s); }
    case DoMint(_, _, _, _, _) => if w.enabled { MintKeeps(w, s); }
    case DoResume(_, _, _) => if w.enabled { ResumeChannelKeeps(w, s); }
    case DoDelegate(_, _, _, _) => if w.enabled { DelegateKeeps(w, s); }
    case DoConsume(_, _, _, _) => ConsumeKeeps(w, s);
  }

  lemma {:induction false} StepKeeps(w: World, s: Step)
    requires Inv(w) && Allowed(w, s)
    ensures Inv(After(w, s))
  {
    if s.PolicyChange? || s.DoRevokeOrdinary? {
      PolicyKeeps(w, s);
    } else if Removes(s) {
      RemovalShrinks(w, s);
      ShrinkKeeps(w, TableAfter(w, s));
    } else {
      DerivationKeeps(w, s);
    }
  }

  // ------------------------------------------------------------------- runs

  ghost predicate AllowedRun(w: World, steps: seq<Step>)
    decreases steps
  {
    steps == [] || (Allowed(w, steps[0]) && AllowedRun(After(w, steps[0]), steps[1..]))
  }

  ghost function RunOf(w: World, steps: seq<Step>): World
    requires AllowedRun(w, steps)
    decreases steps
  {
    if steps == [] then w else RunOf(After(w, steps[0]), steps[1..])
  }

  function Start(env: Env, enabled: bool): World {
    World(Table(map[], map[], map[], map[]), env, enabled, 1, false, Origins(map[], map[], map[], map[]), {}, {""},
        map[])
  }

  lemma {:induction false} StartKeeps(env: Env, enabled: bool)
    ensures Inv(Start(env, enabled))
  {}

  lemma {:induction false} RunKeeps(w: World, steps: seq<Step>)
    requires Inv(w) && AllowedRun(w, steps)
    ensures Inv(RunOf(w, steps)) && RunOf(w, steps).env == w.env
    decreases steps
  {
    if steps != [] {
      StepKeeps(w, steps[0]);
      RunKeeps(After(w, steps[0]), steps[1..]);
    }
  }

  /** The step at which a root came into being. */
  predicate Roots(s: Step, r: Root) {
    match r.kind
    case SignedIn => (s.DoIssueChannel? || s.DoIssueLocal?) && s.now == r.time
    case HostGrant => s.DoDelegate? && s.now == r.time
  }

  lemma {:induction false} DelegateRoots(w: World, s: Step, r: Root)
    requires Inv(w) && s.DoDelegate? && Allowed(w, s) && r in AfterDelegate(w, s).log
    ensures r in w.log || Roots(s, r)
  {
    assert Sound(w, ChannelCred(s.channel));
  }

  lemma {:induction false} DerivationRootsNothing(w: World, s: Step)
    requires Allowed(w, s) && (s.DoMint? || s.DoResume? || s.DoConsume? || s.DoRegister?)
    ensures After(w, s).log == w.log
  {}

  lemma {:induction false} StepRoots(w: World, s: Step, r: Root)
    requires Inv(w) && Allowed(w, s) && r in After(w, s).log
    ensures r in w.log || Roots(s, r)
  {
    if s.DoDelegate? && w.enabled {
      DelegateRoots(w, s, r);
    } else if s.DoMint? || s.DoResume? || s.DoConsume? || s.DoRegister? {
      DerivationRootsNothing(w, s);
    }
  }

  lemma {:induction false} LogIsHistory(w: World, steps: seq<Step>, r: Root)
    requires Inv(w) && AllowedRun(w, steps) && r in RunOf(w, steps).log
    ensures r in w.log || exists i | 0 <= i < |steps| :: Roots(steps[i], r)
    decreases steps
  {
    if steps != [] {
      StepKeeps(w, steps[0]);
      LogIsHistory(After(w, steps[0]), steps[1..], r);
      if r in After(w, steps[0]).log {
        StepRoots(w, steps[0], r);
      } else {
        var i :| 0 <= i < |steps[1..]| && Roots(steps[1..][i], r);
        assert Roots(steps[i + 1], r);
      }
    }
  }

  /** Every open untrusted channel has a deadline. */
  predicate Bounding(t: Table) {
    forall k | k in t.channels && t.channels[k].unlocked && !t.channels[k].trusted :: t.channels[k].expiresAt.At?
  }

  lemma {:induction false} ShrinkBounds(t: Table, u: Table)
    requires Bounding(t) && Shrinks(t, u)
    ensures Bounding(u)
  {
    forall k | k in u.channels && u.channels[k].unlocked && !u.channels[k].trusted ensures u.channels[k].expiresAt.At? {
      assert KeepsSome(t, u, ChannelCred(k));
    }
  }

  lemma {:induction false} SweepBounds(t: Table, now: int)
    requires Bounding(t)
    ensures Bounding(Credentials.Sweep(t, now))
  {
    SweepShrinks(t, now);
    ShrinkBounds(t, Credentials.Sweep(t, now));
  }

  lemma {:induction false} IssueBounds(w: World, s: Step)
    requires Bounding(w.table) && s.DoIssueChannel?
    ensures Bounding(AfterIssueChannel(w, s).table)
  {
    SweepBounds(w.table, s.now);
  }

  lemma {:induction false} ResumeBounds(w: World, s: Step)
    requires Bounding(w.table) && s.DoResume?
    ensures Bounding(AfterResume(w, s).table)
  {
    SweepBounds(w.table, s.now);
  }

  lemma {:induction false} ConsumeBounds(w: World, s: Step)
    requires Bounding(w.table) && s.DoConsume?
    ensures Bounding(AfterConsume(w, s).table)
  {
    SweepBounds(w.table, s.now);
  }

  lemma {:induction false} RegisterBounds(w: World, s: Step)
    requires w.enabled && Bounding(w.table) && s.DoRegister? && Allowed(w, s)
    ensures Bounding(AfterRegister(w, s).table)
  {
    SweepBounds(w.table, s.now);
  }

  lemma {:induction false} DelegateBounds(w: World, s: Step)
    requires Bounding(w.table) && s.DoDelegate?
    ensures Bounding(AfterDelegate(w, s).table)
  {
    SweepBounds(w.table, s.now);
  }

  lemma {:induction false} IssueLocalBounds(w: World, s: Step)
    requires Bounding(w.table) && s.DoIssueLocal?
    ensures Bounding(AfterIssueLocal(w, s).table)
  {
    SweepBounds(w.table, s.now);
  }

  lemma {:induction false} MintBounds(w: World, s: Step)
    requires Bounding(w.table) && s.DoMint?
    ensures Bounding(AfterMint(w, s).table)
  {
    SweepBounds(w.table, s.now);
  }

  lemma {:induction false} DerivationBounds(w: World, s: Step)
    requires w.enabled && Bounding(w.table) && Allowed(w, s) && !Removes(s) && !s.PolicyChange? && !s.DoRevokeOrdinary?
    ensures Bounding(After(w, s).table)
  {
    match s
    case DoRegister(_, _, _, _, _) => RegisterBounds(w, s);
    case DoIssueChannel(_, _, _, _) => IssueBounds(w, s);
    case DoIssueLocal(_, _, _, _, _) => IssueLocalBounds(w, s);
    case DoMint(_, _, _, _, _) => MintBounds(w, s);
    case DoResume(_, _, _) => ResumeBounds(w, s);
    case DoDelegate(_, _, _, _) => DelegateBounds(w, s);
    case DoConsume(_, _, _, _) => ConsumeBounds(w, s);
  }

  lemma {:induction false} StepBounds(w: World, s: Step)
    requires Allowed(w, s) && (s.DoRevokeOrdinary? || (w.enabled && Bounding(w.table)))
    requires Orderly(w)
    ensures After(w, s).enabled && Bounding(After(w, s).table)
  {
    AfterFollowsGate(w, s);
    if Removes(s) || s.PolicyChange? {
      RemovalShrinks(w, s);
      ShrinkBounds(w.table, TableAfter(w, s));
    } else if !s.DoRevokeOrdinary? {
      DerivationBounds(w, s);
    }
  }

  /** From an enabled gate, and after a completed revocation, no open untrusted
      channel is without a deadline. */
  lemma {:induction false} RunBounds(w: World, steps: seq<Step>)
    requires Inv(w) && AllowedRun(w, steps) && ((w.enabled && Bounding(w.table)) || DoRevokeOrdinary in steps)
    ensures RunOf(w, steps).enabled && Bounding(RunOf(w, steps).table)
    decreases steps
  {
    if steps != [] {
      StepKeeps(w, steps[0]);
      if steps[0].DoRevokeOrdinary? || (w.enabled && Bounding(w.table)) { StepBounds(w, steps[0]); }
      RunBounds(After(w, steps[0]), steps[1..]);
    }
  }

  /** Lineage deadlines: in every reachable state each live local session,
      resume token, delegation and open untrusted channel descends from an
      authentication or host grant of this run and dies no later than
      `resumeTTL` after it. The one exception are channels that the gate opened
      without a deadline while it was disabled, up to the first revocation. */
  lemma {:induction false} LineageDeadlines(env: Env, enabled: bool, steps: seq<Step>, c: Credential)
    requires AllowedRun(Start(env, enabled), steps) && Ordinary(RunOf(Start(env, enabled), steps).table, c)
    ensures
      var w := RunOf(Start(env, enabled), steps);
      var o := OriginOf(w.origins, c);
      if DeadlineOf(w.table, c).Never? then c.ChannelCred? && !enabled && DoRevokeOrdinary !in steps
      else
        && o.Some? && (exists i | 0 <= i < |steps| :: Roots(steps[i], o.value.root))
        && DeadlineOf(w.table, c).instant <= o.value.root.time + env.resumeTTL
  {
    var w := RunOf(Start(env, enabled), steps);
    StartKeeps(env, enabled);
    RunKeeps(Start(env, enabled), steps);
    assert Sound(w, c);
    if DeadlineOf(w.table, c).At? {
      LogIsHistory(Start(env, enabled), steps, OriginOf(w.origins, c).value.root);
    } else if enabled || DoRevokeOrdinary in steps {
      RunBounds(Start(env, enabled), steps);
    }
  }

  /** A successful use at `now`: a local session resolved, a token resumed, an
      editor delegation redeemed, or a channel still open after the sweep. */
  predicate UsableAt(t: Table, c: Credential, now: int) {
    Live(t, c) && match c
    case ChannelCred(k) => t.channels[k].expiresAt.At? ==> now < t.channels[k].expiresAt.instant
    case ResumeCred(k) => now <= t.resumes[k].expiresAt
    case LocalCred(k) => now <= t.locals[k].expiresAt
    case DelegationCred(k) => t.delegations[k].parentExpires.At? && now < t.delegations[k].parentExpires.instant
  }

  /** No ordinary credential can be used later than `resumeTTL` after its root,
      but for a channel of a gate that started disabled and was never revoked. */
  lemma {:induction false} NoUseAfterDeadline(env: Env, enabled: bool, steps: seq<Step>, c: Credential, now: int)
    requires AllowedRun(Start(env, enabled), steps)
    requires
      var w := RunOf(Start(env, enabled), steps);
      Ordinary(w.table, c) && UsableAt(w.table, c, now) && (c.ChannelCred? ==> enabled || DoRevokeOrdinary in steps)
    ensures
      var w := RunOf(Start(env, enabled), steps);
      OriginOf(w.origins, c).Some? && now <= OriginOf(w.origins, c).value.root.time + env.resumeTTL
  {
    LineageDeadlines(env, enabled, steps, c);
  }

  // ------------------------------------------------------- policy revocation

  /** The revocation that ends a policy change leaves nothing ordinary alive. */
  lemma {:induction false} RevocationIsTotal(w: World, c: Credential)
    requires Allowed(w, DoRevokeOrdinary)
    ensures !Ordinary(After(w, DoRevokeOrdinary).table, c)
    ensures c.ChannelCred? && Live(w.table, c) && w.table.channels[c.channel].trusted ==>
              Live(After(w, DoRevokeOrdinary).table, c)
  {}

  /** From then on, until the next policy change, every live ordinary
      credential is rooted in an authentication at the current revision or was
      derived through a trusted channel, whatever runs in between. */
  lemma {:induction false} OnlyCurrentPolicy(env: Env, enabled: bool, steps: seq<Step>, c: Credential)
    requires AllowedRun(Start(env, enabled), steps)
    requires
      var w := RunOf(Start(env, enabled), steps);
      Settled(w) && Ordinary(w.table, c)
    ensures
      var w := RunOf(Start(env, enabled), steps);
      var o := OriginOf(w.origins, c);
      o.Some? && (o.value.viaHost || o.value.root.revision == w.revision)
  {
    StartKeeps(env, enabled);
    RunKeeps(Start(env, enabled), steps);
    assert Sound(RunOf(Start(env, enabled), steps), c);
  }
}
