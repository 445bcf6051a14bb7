/** What the credentials of the gate are good for: when an operation accepts
    one, stated by the table entries and the clock alone, how long an issued
    one is accepted over whole runs, and never after its deadline. */
module Usage {
  import opened Basics
  import opened Credentials
  import opened Lineage

  // ----------------------------------------------------- one operation each

  /** A local session resolves under its own scope, up to its expiry, and
      nothing else resolves. */
  lemma {:induction false} ResolvesExactly(t: Table, e: Env, now: int, token: string, scope: string, l: LocalSession)
    ensures Resolve(t, e, now, token, scope) == Some(l) <==>
            e.trim(token) != "" && e.trim(token) in t.locals && t.locals[e.trim(token)] == l &&
            l.scope == scope && now <= l.expiresAt
  {}

  /** Two requests have one binding exactly when they agree in user, endpoint,
      application, code space and session kind, up to surrounding blanks and the
      names of the default kind. */
  lemma {:induction false} BindingsAgree(e: Env, m: Meta, n: Meta)
    ensures BindingOf(e, m) == BindingOf(e, n) <==>
            && e.trim(m.userPublicId) == e.trim(n.userPublicId) && e.trim(m.endpointId) == e.trim(n.endpointId)
            && e.trim(m.floeApp) == e.trim(n.floeApp) && e.trim(m.codeSpaceId) == e.trim(n.codeSpaceId)
            && (e.trim(m.sessionKind) == e.trim(n.sessionKind) ||
                (e.trim(m.sessionKind) in {"", "envapp_proxy", "envapp_rpc"} &&
                 e.trim(n.sessionKind) in {"", "envapp_proxy", "envapp_rpc"}))
  {}

  /** A resume token is honoured up to its expiry, for the binding and the scope
      it was issued with. */
  predicate Honoured(t: Table, e: Env, now: int, resume: string, meta: Meta, scope: string) {
    && e.trim(resume) != "" && e.trim(resume) in t.resumes
    && var r := t.resumes[e.trim(resume)];
       now <= r.expiresAt && r.binding == BindingOf(e, meta) && r.scope == scope
  }

  lemma {:induction false} MintsExactly(t: Table, e: Env, now: int, resume: string, meta: Meta, scope: string,
          token: Option<string>)
    ensures MintFromResume(t, e, now, resume, meta, scope, token).1.Ok? <==>
            Honoured(t, e, now, resume, meta, scope) && e.trim(t.resumes[e.trim(resume)].accessSession) != "" &&
                token.Some?
    ensures MintFromResume(t, e, now, resume, meta, scope, token).1.Ok? ==>
              var r, u := t.resumes[e.trim(resume)], MintFromResume(t, e, now, resume, meta, scope, token).0;
              token.value in u.locals && u.locals[token.value].scope == scope &&
              u.locals[token.value].accessSession == e.trim(r.accessSession) &&
              u.locals[token.value].expiresAt ==
                  if r.expiresAt <= now + e.localTTL then r.expiresAt else now + e.localTTL
  {}

  lemma {:induction false} ResumesExactly(t: Table, e: Env, now: int, channel: string, resume: string)
    ensures Resume(t, e, now, channel, resume).1.None? <==>
            e.trim(channel) != "" && e.trim(channel) in t.channels &&
            Honoured(t, e, now, resume, t.channels[e.trim(channel)].meta, t.channels[e.trim(channel)].scope)
    ensures Resume(t, e, now, channel, resume).1.None? ==>
              var u := Resume(t, e, now, channel, resume).0;
              var r, c := t.resumes[e.trim(resume)], u.channels[e.trim(channel)];
              c.unlocked && c.expiresAt == At(r.expiresAt) && c.accessSession == r.accessSession &&
              c.trusted == t.channels[e.trim(channel)].trusted && c.scope == r.scope &&
              c.meta == t.channels[e.trim(channel)].meta
  {}

  /** A delegation is redeemed within thirty seconds and before its parent's
      deadline, by a code channel of its user, endpoint, code space and scope. */
  predicate Redeems(t: Table, now: int, channel: string, token: string) {
    && channel in t.channels && token in t.delegations
    && var c, d := t.channels[channel], t.delegations[token];
       && now < d.expires && d.parentExpires.At? && now < d.parentExpires.instant
       && c.meta.floeApp == "com.floegence.redeven.code" && c.meta.codeSpaceId == d.codeSpaceId
       && c.meta.userPublicId == d.userPublicId && c.meta.endpointId == d.endpointId && c.scope == d.scope
  }

  lemma {:induction false} ConsumesExactly(t: Table, e: Env, now: int, channel: string, token: string,
          resume: Option<string>)
    ensures Consume(t, e, now, channel, token, resume).1.Ok? <==>
            && Redeems(t, now, channel, token)
            && (if t.delegations[token].consumedChannel == "" then resume.Some?
                else t.delegations[token].consumedChannel == channel && t.delegations[token].result.Some?)
    ensures Consume(t, e, now, channel, token, resume).1.Ok? && t.delegations[token].consumedChannel == "" ==>
              var u, d := Consume(t, e, now, channel, token, resume).0, t.delegations[token];
              && u.channels[channel].unlocked && u.channels[channel].expiresAt == d.parentExpires
              && u.channels[channel].accessSession == d.accessSession
              && u.delegations[token].consumedChannel == channel
              && u.delegations[token].result == Some(Consume(t, e, now, channel, token, resume).1.value)
              && resume.value in u.resumes && u.resumes[resume.value].expiresAt == d.parentExpires.instant
              && u.resumes[resume.value].binding == BindingOf(e, u.channels[channel].meta)
              && u.resumes[resume.value].scope == d.scope
  {}

  /** Only an open channel of the agent's own application with all rights
      delegates, for a code space of 1 to 64 characters, and at most 256 are
      pending within their thirty seconds. */
  lemma {:induction false} DelegatesExactly(t: Table, e: Env, now: int, channel: string, codeSpace: string,
          token: Option<string>)
    ensures Delegate(t, e, now, channel, codeSpace, token).1.Ok? <==>
            && channel in t.channels && token.Some? && 1 <= |e.trim(codeSpace)| <= 64
            && |map k | k in t.delegations && now < t.delegations[k].expires :: t.delegations[k]| < 256
            && var c := t.channels[channel];
               && c.unlocked && (c.expiresAt.At? ==> now < c.expiresAt.instant)
               && c.meta.floeApp == "com.floegence.redeven.agent" && c.meta.codeSpaceId == "env-ui"
               && c.meta.canRead && c.meta.canWrite && c.meta.canExecute
    ensures Delegate(t, e, now, channel, codeSpace, token).1.Ok? ==>
              var u, c := Delegate(t, e, now, channel, codeSpace, token).0, t.channels[channel];
              && token.value in u.delegations
              && var d := u.delegations[token.value];
                 && d.expires == now + 30 * SECOND && d.consumedChannel == "" && d.codeSpaceId == e.trim(codeSpace)
                 && d.userPublicId == c.meta.userPublicId && d.endpointId == c.meta.endpointId && d.scope == c.scope
                 && d.accessSession == c.accessSession
                 && d.parentExpires == if c.expiresAt.Never? && c.trusted then At(now + e.resumeTTL) else c.expiresAt
  {
    var p := PendingDelegations(Credentials.Sweep(t, now), now);
    assert p.delegations == map k | k in t.delegations && now < t.delegations[k].expires :: t.delegations[k];
  }

  /** A registered channel is open exactly when it is the host's own, or the
      gate is disabled, or a live local session has its access session, whose
      scope and deadline it then takes over. */
  lemma {:induction false} RegistersExactly(t: Table, e: Env, enabled: bool, now: int, meta: Meta, trusted: bool,
          id: string,
          source: Option<string>)
    requires ValidSource(Credentials.Sweep(t, now), now, Inherits(enabled, trusted, id), id, source)
    requires e.trim(meta.channelId) != ""
    ensures
      var u := Register(t, e, enabled, now, meta, trusted, id, source);
      && e.trim(meta.channelId) in u.channels
      && var c := u.channels[e.trim(meta.channelId)];
         && c.meta == meta && c.trusted == trusted && c.accessSession == id
         && (c.unlocked <==>
               trusted || !enabled ||
               (id != "" && exists k ::
                  k in t.locals && t.locals[k].accessSession == id && now < t.locals[k].expiresAt))
         && (if enabled && c.unlocked && !trusted
             then exists k :: k in t.locals && t.locals[k].accessSession == id && now < t.locals[k].expiresAt &&
                              c.scope == t.locals[k].scope && c.expiresAt == At(t.locals[k].expiresAt)
             else c.scope == "" && c.expiresAt == Never)
  {
    if k :| k in t.locals && t.locals[k].accessSession == id && now < t.locals[k].expiresAt {
      assert IsSource(Credentials.Sweep(t, now), now, id, k);
    }
    if source.Some? { assert IsSource(Credentials.Sweep(t, now), now, id, source.value); }
  }

  /** An issued channel is open exactly until `resumeTTL` has passed, and its
      resume token reopens any registered channel of its binding and scope as
      long; a channel that may not have one gets none. */
  lemma {:induction false} IssuesChannelExactly(t: Table, e: Env, now: int, channel: string, session: Option<string>,
          resume: Option<string>, at: int)
    requires e.trim(channel) == channel
    ensures
      var r := IssueChannel(t, e, now, channel, session, resume);
      (r.1.Ok? <==>
          channel != "" && channel in t.channels && session.Some? &&
          (MintsResume(e, t.channels[channel].meta) ==> resume.Some?)) &&
      (r.1.Ok? ==>
         && (StillOpen(r.0, channel, at) <==> at < now + e.resumeTTL)
         && r.0.channels[channel].accessSession == session.value &&
             r.0.channels[channel].scope == t.channels[channel].scope
         && (r.1.value.resumeToken == "" || Some(r.1.value.resumeToken) == resume)
         && (!MintsResume(e, t.channels[channel].meta) ==>
             r.1.value == Unlock("", Never) && r.0.resumes == Credentials.Sweep(t, now).resumes)
         && (MintsResume(e, t.channels[channel].meta) ==> r.1.value == Unlock(resume.value, At(now + e.resumeTTL))))
  {}

  lemma {:induction false} IssuedResumeIsHonoured(t: Table, e: Env, now: int, channel: string, session: Option<string>,
          resume: Option<string>, at: int, meta: Meta, scope: string)
    requires e.trim(channel) == channel && resume.Some? && e.trim(resume.value) == resume.value != ""
    requires IssueChannel(t, e, now, channel, session, resume).1.Ok? && MintsResume(e, t.channels[channel].meta)
    ensures Honoured(IssueChannel(t, e, now, channel, session, resume).0, e, at, resume.value, meta, scope) <==>
              at <= now + e.resumeTTL && BindingOf(e, meta) == BindingOf(e, t.channels[channel].meta) &&
                  scope == t.channels[channel].scope
  {}

  /** A login is answered with a session that resolves, under its scope alone,
      until the shorter of the two lifetimes has passed, and with a resume token
      honoured for the local metadata until the longer has. */
  lemma {:induction false} LoginsExactly(t: Table, e: Env, now: int, scope: string, token: Option<string>,
          session: Option<string>,
                      resume: Option<string>)
    ensures
      var r := IssueLocal(t, e, now, scope, token, session, resume);
      (r.1.Ok? <==> token.Some? && session.Some? && resume.Some?) &&
      (r.1.Ok? ==> r.1.value.sessionToken == token.value && r.1.value.accessSession == session.value &&
                   r.1.value.resumeToken == resume.value && r.1.value.resumeExpires == now + e.resumeTTL &&
                   r.1.value.sessionExpires == if e.localTTL < e.resumeTTL then now + e.localTTL else now + e.resumeTTL)
  {}

  lemma {:induction false} LoginIsGood(t: Table, e: Env, now: int, scope: string, login: Login, session: string,
          at: int, meta: Meta,
          where: string)
    requires e.trim(login.sessionToken) == login.sessionToken != "" &&
             e.trim(login.resumeToken) == login.resumeToken != ""
    requires IssueLocal(t, e, now, scope, Some(login.sessionToken), Some(session),
             Some(login.resumeToken)).1 == Ok(login)
    ensures
      var u := IssueLocal(t, e, now, scope, Some(login.sessionToken), Some(session), Some(login.resumeToken)).0;
      && (Resolve(u, e, at, login.sessionToken, where).Some? <==> where == scope && at <= login.sessionExpires)
      && (Honoured(u, e, at, login.resumeToken, meta, where) <==>
            where == scope && at <= login.resumeExpires && BindingOf(e, meta) == LOCAL_BINDING)
  {}

  // ----------------------------------------------------------- taking away

  /** A logout by local session or by resume token takes exactly the access
      session that the named credential carries, if it carries one. */
  lemma {:induction false} TakesExactly(t: Table, e: Env, now: int, token: string, id: string)
    ensures TakeLocal(t, e, token).1 == Some(id) <==>
              e.trim(token) != "" && e.trim(token) in t.locals && t.locals[e.trim(token)].accessSession == id &&
                  e.trim(id) != ""
    ensures TakeByResume(t, e, now, token).1 == Some(id) <==>
              e.trim(token) != "" && e.trim(token) in t.resumes && t.resumes[e.trim(token)].accessSession == id &&
              e.trim(id) != "" && now < t.resumes[e.trim(token)].expiresAt
  {}

  /** The collection of expired local sessions drops those and no others, and
      the resume tokens of the access sessions that lost their last one. */
  lemma {:induction false} CollectsExactly(t: Table, e: Env, now: int, k: string)
    ensures k in TakeExpired(t, e, now).locals <==> k in t.locals && now <= t.locals[k].expiresAt
    ensures k in TakeExpired(t, e, now).resumes <==>
              k in t.resumes &&
              !((exists j :: j in t.locals && now > t.locals[j].expiresAt &&
                  t.locals[j].accessSession == t.resumes[k].accessSession) &&
                e.trim(t.resumes[k].accessSession) != "" &&
                (forall j | j in t.locals && t.locals[j].accessSession == t.resumes[k].accessSession ::
                    now > t.locals[j].expiresAt))
  {
    if k in t.resumes {
      var id := t.resumes[k].accessSession;
      assert id in ExpiredSessions(t, e, now) <==>
        (exists j :: j in ExpiredLocals(t, now) && e.trim(id) != "" && t.locals[j].accessSession == id) &&
        !(exists j :: j in t.locals && j !in ExpiredLocals(t, now) && t.locals[j].accessSession == id);
    }
  }

  // ------------------------------------------------ operations and deadlines

  /** What it means that an operation at `now` accepts a credential. */
  lemma {:induction false} AcceptedIsUsable(t: Table, e: Env, now: int)
    ensures forall token, scope :: Resolve(t, e, now, token, scope).Some? ==> UsableAt(t, LocalCred(e.trim(token)), now)
    ensures forall resume, meta, scope, token :: MintFromResume(t, e, now, resume, meta, scope, token).1.Ok? ==>
              UsableAt(t, ResumeCred(e.trim(resume)), now)
    ensures forall channel, resume :: Resume(t, e, now, channel, resume).1.None? ==>
            UsableAt(t, ResumeCred(e.trim(resume)), now)
    ensures forall channel, token, resume :: Consume(t, e, now, channel, token, resume).1.Ok? ==>
            UsableAt(t, DelegationCred(token), now)
    ensures forall channel :: StillOpen(t, channel, now) ==> UsableAt(t, ChannelCred(channel), now)
    ensures forall channel, space, token :: Delegate(t, e, now, channel, space, token).1.Ok? ==>
            UsableAt(t, ChannelCred(channel), now)
  {}

  // ---------------------------------------------------------- over whole runs

  /** Tokens in the tables are trimmed and not empty, as they were drawn. */
  predicate KeyedTable(t: Table, e: Env) {
    (forall k | k in t.locals :: k != "" && e.trim(k) == k) && (forall k | k in t.resumes :: k != "" && e.trim(k) == k)
  }

  predicate Keyed(w: World) {
    KeyedTable(w.table, w.env)
  }

  predicate Derives(s: Step) {
    !Removes(s) && !s.PolicyChange? && !s.DoRevokeOrdinary?
  }

  /** A step that takes nothing away adds at most the token it draws. */
  predicate LocalsAdd(t: Table, u: Table, token: Option<string>) {
    t.locals.Keys <= u.locals.Keys && forall k | k in u.locals && (k !in t.locals || u.locals[k] != t.locals[k]) ::
        token == Some(k)
  }

  lemma {:induction false} IssueAdds(t: Table, e: Env, now: int, scope: string, token: Option<string>,
          session: Option<string>,
          resume: Option<string>)
    ensures LocalsAdd(t, IssueLocal(t, e, now, scope, token, session, resume).0, token)
  {}

  lemma {:induction false} MintAdds(t: Table, e: Env, now: int, resume: string, meta: Meta, scope: string,
          token: Option<string>)
    ensures LocalsAdd(t, MintFromResume(t, e, now, resume, meta, scope, token).0, token)
  {}

  function LocalToken(s: Step): Option<string> {
    if s.DoIssueLocal? || s.DoMint? then s.newToken else None
  }

  lemma {:induction false} OthersKeepLocals(w: World, s: Step)
    requires Allowed(w, s) && Derives(s) && !s.DoIssueLocal? && !s.DoMint?
    ensures TableAfter(w, s).locals == w.table.locals
  {}

  lemma {:induction false} LocalsGrow(w: World, s: Step)
    requires Allowed(w, s) && Derives(s)
    ensures LocalsAdd(w.table, TableAfter(w, s), LocalToken(s))
  {
    match s
    case DoIssueLocal(now, scope, token, session, resume) => IssueAdds(w.table, w.env, now, scope, token, session,
        resume);
    case DoMint(now, resume, meta, scope, token) => MintAdds(w.table, w.env, now, resume, meta, scope, token);
    case _ => OthersKeepLocals(w, s);
  }

  lemma {:induction false} ResumesGrow(w: World, s: Step)
    requires Allowed(w, s) && Derives(s)
    ensures forall k | k in TableAfter(w, s).resumes && k !in w.table.resumes ::
              (s.DoIssueChannel? || s.DoIssueLocal? || s.DoConsume?) && s.newResume == Some(k)
  {}

  lemma {:induction false} RemovalKeeps(w: World, s: Step)
    requires Keyed(w) && Allowed(w, s) && !Derives(s)
    ensures TableAfter(w, s).locals.Keys <= w.table.locals.Keys && TableAfter(w, s).resumes.Keys <= w.table.resumes.Keys
  {
    RemovalShrinks(w, s);
    forall k | k in TableAfter(w, s).locals ensures k in w.table.locals {
      assert KeepsSome(w.table, TableAfter(w, s), LocalCred(k));
    }
    forall k | k in TableAfter(w, s).resumes ensures k in w.table.resumes {
      assert KeepsSome(w.table, TableAfter(w, s), ResumeCred(k));
    }
  }

  lemma {:induction false} TableKeyed(w: World, s: Step)
    requires Keyed(w) && Allowed(w, s)
    ensures KeyedTable(TableAfter(w, s), w.env)
  {
    if Derives(s) {
      LocalsGrow(w, s);
      ResumesGrow(w, s);
    } else {
      RemovalKeeps(w, s);
    }
  }

  lemma {:induction false} SameEnv(w: World, s: Step)
    requires Allowed(w, s)
    ensures After(w, s).env == w.env
  {}

  lemma {:induction false} StepKeyed(w: World, s: Step)
    requires Keyed(w) && Allowed(w, s)
    ensures Keyed(After(w, s)) && After(w, s).env == w.env
  {
    AfterFollowsGate(w, s);
    SameEnv(w, s);
    TableKeyed(w, s);
  }

  lemma {:induction false} RunKeyed(w: World, steps: seq<Step>)
    requires Inv(w) && Keyed(w) && AllowedRun(w, steps)
    ensures Keyed(RunOf(w, steps)) && RunOf(w, steps).env == w.env && Inv(RunOf(w, steps))
    decreases steps
  {
    if steps != [] {
      StepKeyed(w, steps[0]);
      StepKeeps(w, steps[0]);
      RunKeyed(After(w, steps[0]), steps[1..]);
    }
  }

  /** The step takes this local session away: its access session is taken or its
      scope revoked, the policy is, or it is collected after its expiry. */
  predicate Ends(w: World, s: Step, l: LocalSession) {
    match s
    case DoTakeLocal(token) => w.enabled && TakeLocal(w.table, w.env, token).1 == Some(l.accessSession)
    case DoTakeByResume(now, resume) => w.enabled &&
        TakeByResume(w.table, w.env, now, resume).1 == Some(l.accessSession)
    case DoTakeExpired(now) => w.enabled && now > l.expiresAt
    case DoRevokeScopes(scope, family) => scope != "" && l.accessSession in ScopeSessions(w.table, scope, family)
    case DoRevokeOrdinary => true
    case _ => false
  }

  lemma {:induction false} RemovalEnds(w: World, s: Step, k: string)
    requires Allowed(w, s) && k in w.table.locals && !Derives(s)
    ensures var t := TableAfter(w, s);
            if Ends(w, s, w.table.locals[k]) then k !in t.locals
            else k in t.locals && t.locals[k] == w.table.locals[k]
  {}

  lemma {:induction false} DerivationLeaves(w: World, s: Step, k: string)
    requires Inv(w) && Allowed(w, s) && k in w.table.locals && Derives(s)
    ensures k in TableAfter(w, s).locals && TableAfter(w, s).locals[k] == w.table.locals[k]
  {
    LocalsGrow(w, s);
    assert Sound(w, LocalCred(k));
  }

  /** A session ends exactly at the first such step. */
  lemma {:induction false} StepEnds(w: World, s: Step, k: string)
    requires Inv(w) && Allowed(w, s) && k in w.table.locals
    ensures var t := After(w, s).table;
            if Ends(w, s, w.table.locals[k]) then k !in t.locals else k in t.locals && t.locals[k] == w.table.locals[k]
  {
    AfterFollowsGate(w, s);
    if Derives(s) { DerivationLeaves(w, s, k); } else { RemovalEnds(w, s, k); }
  }

  ghost predicate EndsIn(w: World, steps: seq<Step>, l: LocalSession)
    requires AllowedRun(w, steps)
    decreases steps
  {
    steps != [] && (Ends(w, steps[0], l) || EndsIn(After(w, steps[0]), steps[1..], l))
  }

  /** A known token never comes to name another session. */
  lemma {:induction false} GoneForGood(w: World, steps: seq<Step>, k: string)
    requires Inv(w) && AllowedRun(w, steps) && k in w.used && k !in w.table.locals
    ensures k !in RunOf(w, steps).table.locals
    decreases steps
  {
    if steps != [] {
      var v := After(w, steps[0]);
      StepKeeps(w, steps[0]);
      StaysGone(w, steps[0], k);
      GoneForGood(v, steps[1..], k);
    }
  }

  lemma {:induction false} StaysGone(w: World, s: Step, k: string)
    requires Inv(w) && Allowed(w, s) && k in w.used && k !in w.table.locals
    ensures k !in After(w, s).table.locals && k in After(w, s).used
  {
    AfterFollowsGate(w, s);
    UsedGrows(w, s);
    if Derives(s) {
      LocalsGrow(w, s);
    } else {
      RemovalShrinks(w, s);
      assert KeepsSome(w.table, TableAfter(w, s), LocalCred(k));
    }
  }

  lemma {:induction false} UsedGrows(w: World, s: Step)
    requires Allowed(w, s)
    ensures w.used <= After(w, s).used
  {}

  lemma {:induction false} LivesUntilEnded(w: World, steps: seq<Step>, k: string)
    requires Inv(w) && AllowedRun(w, steps) && k in w.table.locals
    ensures var t := RunOf(w, steps).table;
            if EndsIn(w, steps, w.table.locals[k]) then k !in t.locals
            else k in t.locals && t.locals[k] == w.table.locals[k]
    decreases steps
  {
    if steps != [] {
      var v := After(w, steps[0]);
      StepKeeps(w, steps[0]);
      StepEnds(w, steps[0], k);
      assert Sound(w, LocalCred(k));
      UsedGrows(w, steps[0]);
      if Ends(w, steps[0], w.table.locals[k]) {
        GoneForGood(v, steps[1..], k);
        } else { LivesUntilEnded(v, steps[1..], k);
      }
    }
  }

  /** A local session of any reachable state resolves, after any further run,
      exactly under its own scope, up to its expiry, and while no step took it
      away. */
  lemma {:induction false} SessionResolvesExactly(env: Env, enabled: bool, steps: seq<Step>, k: string,
          more: seq<Step>, now: int, scope: string)
    requires AllowedRun(Start(env, enabled), steps) && k in RunOf(Start(env, enabled), steps).table.locals
    requires AllowedRun(RunOf(Start(env, enabled), steps), more)
    ensures
      var w := RunOf(Start(env, enabled), steps);
      var l := w.table.locals[k];
      Resolve(RunOf(w, more).table, env, now, k, scope).Some? <==>
          scope == l.scope && now <= l.expiresAt && !EndsIn(w, more, l)
  {
    var w := RunOf(Start(env, enabled), steps);
    StartKeeps(env, enabled);
    RunKeyed(Start(env, enabled), steps);
    LivesUntilEnded(w, more, k);
  }

  /** Whatever resolves over any run is a local session of exactly that scope,
      not past its own expiry nor past `resumeTTL` after its root. */
  lemma {:induction false} ResolvedIsLive(env: Env, enabled: bool, steps: seq<Step>, token: string, scope: string,
          now: int)
    requires AllowedRun(Start(env, enabled), steps)
    requires Resolve(RunOf(Start(env, enabled), steps).table, env, now, token, scope).Some?
    ensures
      var w := RunOf(Start(env, enabled), steps);
      var l, o := Resolve(w.table, env, now, token, scope).value, OriginOf(w.origins, LocalCred(env.trim(token)));
      && env.trim(token) in w.table.locals && w.table.locals[env.trim(token)] == l
      && l.scope == scope && now <= l.expiresAt
      && o.Some? && (exists i | 0 <= i < |steps| :: Roots(steps[i], o.value.root)) && now <= o.value.root.time +
          env.resumeTTL
  {
    LineageDeadlines(env, enabled, steps, LocalCred(env.trim(token)));
  }

  /** The delegation `d` was made by this step, on an open agent channel with
      all rights, for thirty seconds. */
  predicate Grants(w: World, s: Step, token: string, d: Delegation) {
    && s.DoDelegate? && s.newToken == Some(token) && s.channel in w.table.channels
    && var c := w.table.channels[s.channel];
       && c.unlocked && c.meta.floeApp == "com.floegence.redeven.agent" && c.meta.codeSpaceId == "env-ui"
       && c.meta.canRead && c.meta.canWrite && c.meta.canExecute
       && d.expires == s.now + 30 * SECOND && d.codeSpaceId == w.env.trim(s.codeSpace) && d.scope == c.scope
       && d.userPublicId == c.meta.userPublicId && d.endpointId == c.meta.endpointId &&
           d.accessSession == c.accessSession
  }

  ghost predicate GrantedIn(w: World, steps: seq<Step>, token: string, d: Delegation)
    requires AllowedRun(w, steps)
    decreases steps
  {
    steps != [] && (Grants(w, steps[0], token, d) || GrantedIn(After(w, steps[0]), steps[1..], token, d))
  }

  predicate SameGrant(a: Delegation, b: Delegation) {
    a.(consumedChannel := "", result := None) == b.(consumedChannel := "", result := None)
  }

  predicate Explains(w: World, s: Step, u: Table, k: string) {
    k in u.delegations ==>
      (k in w.table.delegations && SameGrant(w.table.delegations[k], u.delegations[k])) ||
          Grants(w, s, k, u.delegations[k])
  }

  lemma {:induction false} DelegateGrants(w: World, s: Step, k: string)
    requires s.DoDelegate?
    ensures Explains(w, s, Delegate(w.table, w.env, s.now, s.channel, s.codeSpace, s.newToken).0, k)
  {
    if Delegate(w.table, w.env, s.now, s.channel, s.codeSpace, s.newToken).1.Ok? {
      DelegatesExactly(w.table, w.env, s.now, s.channel, s.codeSpace, s.newToken);
    }
  }

  lemma {:induction false} OthersGrantNothing(w: World, s: Step, k: string)
    requires Allowed(w, s) && Derives(s) && !s.DoDelegate?
    ensures Explains(w, s, TableAfter(w, s), k)
  {}

  lemma {:induction false} StepGrants(w: World, s: Step, k: string)
    requires Allowed(w, s)
    ensures Explains(w, s, TableAfter(w, s), k)
  {
    if s.DoDelegate? {
      DelegateGrants(w, s, k);
    } else if Derives(s) {
      OthersGrantNothing(w, s, k);
    } else {
      RemovalShrinks(w, s);
      assert KeepsSome(w.table, TableAfter(w, s), DelegationCred(k));
    }
  }

  lemma {:induction false} DelegationsWereGranted(w: World, steps: seq<Step>, k: string)
    requires AllowedRun(w, steps) && k in RunOf(w, steps).table.delegations
    ensures var d := RunOf(w, steps).table.delegations[k];
            (k in w.table.delegations && SameGrant(w.table.delegations[k], d)) || GrantedIn(w, steps, k, d)
    decreases steps
  {
    if steps != [] {
      DelegationsWereGranted(After(w, steps[0]), steps[1..], k);
      AfterFollowsGate(w, steps[0]);
      StepGrants(w, steps[0], k);
    }
  }

  /** Over every run, what a redemption at `now` accepts was delegated less than
      thirty seconds before, on an open agent channel with all rights, to the
      user, endpoint, code space and scope of the redeeming channel. */
  lemma {:induction false} RedeemedWasGranted(env: Env, enabled: bool, steps: seq<Step>, channel: string, token: string,
                                              now: int, resume: Option<string>)
    requires AllowedRun(Start(env, enabled), steps)
    requires Consume(RunOf(Start(env, enabled), steps).table, env, now, channel, token, resume).1.Ok?
    ensures
      var t := RunOf(Start(env, enabled), steps).table;
      Redeems(t, now, channel, token) && GrantedIn(Start(env, enabled), steps, token, t.delegations[token])
  {
    ConsumesExactly(RunOf(Start(env, enabled), steps).table, env, now, channel, token, resume);
    DelegationsWereGranted(Start(env, enabled), steps, token);
  }

  /** An operation of the gate that accepts a credential at `now`. */
  datatype Use =
    | Resolving(token: string, scope: string)
    | Minting(resume: string, meta: Meta, scope: string, newToken: Option<string>)
    | Resuming(channel: string, resume: string)
    | Consuming(channel: string, token: string, newResume: Option<string>)
    | Repeating(channel: string)
    | Delegating(channel: string, codeSpace: string, newToken: Option<string>)

  predicate Accepted(t: Table, e: Env, u: Use, now: int) {
    match u
    case Resolving(token, scope) => Resolve(t, e, now, token, scope).Some?
    case Minting(resume, meta, scope, token) => MintFromResume(t, e, now, resume, meta, scope, token).1.Ok?
    case Resuming(channel, resume) => Resume(t, e, now, channel, resume).1.None?
    case Consuming(channel, token, newResume) => Consume(t, e, now, channel, token, newResume).1.Ok?
    case Repeating(channel) => StillOpen(t, channel, now)
    case Delegating(channel, space, token) => Delegate(t, e, now, channel, space, token).1.Ok?
  }

  /** The credential it accepts. */
  function CredentialOf(e: Env, u: Use): Credential {
    match u
    case Resolving(token, _) => LocalCred(e.trim(token))
    case Minting(resume, _, _, _) => ResumeCred(e.trim(resume))
    case Resuming(_, resume) => ResumeCred(e.trim(resume))
    case Consuming(_, token, _) => DelegationCred(token)
    case Repeating(channel) => ChannelCred(channel)
    case Delegating(channel, _, _) => ChannelCred(channel)
  }

  /** No operation ever accepts an ordinary credential later than `resumeTTL`
      after its root. */
  lemma {:induction false} NothingAcceptedAfterDeadline(env: Env, enabled: bool, steps: seq<Step>, u: Use, now: int)
    requires AllowedRun(Start(env, enabled), steps)
    requires var t := RunOf(Start(env, enabled), steps).table;
             Accepted(t, env, u, now) && Ordinary(t, CredentialOf(env, u))
    requires CredentialOf(env, u).ChannelCred? ==> enabled || DoRevokeOrdinary in steps
    ensures
      var o := OriginOf(RunOf(Start(env, enabled), steps).origins, CredentialOf(env, u));
      o.Some? && now <= o.value.root.time + env.resumeTTL
  {
    AcceptedIsUsable(RunOf(Start(env, enabled), steps).table, env, now);
    NoUseAfterDeadline(env, enabled, steps, CredentialOf(env, u), now);
  }
}
