/** The access gate's tables as the object that owns them: each method is one
    critical section under `mu` and is proved against `Credentials`. */
module AccessGate {
  import opened Basics
  import opened Credentials
  import opened Throttle

  class Gate {
    const env: Env
    const policy: Policy

    var enabled: bool
    var channels: map<string, Channel>
    var resumeTokens: map<string, ResumeToken>
    var localSessions: map<string, LocalSession>
    var delegations: map<string, Delegation>
    var failedAttempts: map<string, Attempts>
    var revoked: seq<string>

    constructor (resumeTTL: int, localTTL: int, trim: string -> string, attempts: Policy, hasPassword: bool)
      ensures env.resumeTTL > 0 && env.localTTL > 0 && env.trim == trim
      ensures resumeTTL > 0 ==> env.resumeTTL == resumeTTL
      ensures localTTL > 0 ==> env.localTTL == localTTL
      ensures policy == Normalize(attempts) && enabled == hasPassword
      ensures Tables() == Table(map[], map[], map[], map[]) && failedAttempts == map[] && revoked == []
    {
      var twelveHours := 12 * 60 * MINUTE;
      env := Env(if resumeTTL <= 0 then twelveHours else resumeTTL, if localTTL <= 0 then twelveHours else localTTL,
          trim);
      policy := Normalize(attempts);
      enabled := hasPassword;
      channels, resumeTokens, localSessions, delegations := map[], map[], map[], map[];
      failedAttempts, revoked := map[], [];
    }

    ghost predicate Valid()
      reads this
    {
      SortedSteps(policy.steps)
    }

    function Tables(): Table
      reads this
    {
      Table(channels, resumeTokens, localSessions, delegations)
    }

    // -------------------------------------------------------------- cleanup

    method LockExpiredChannels(now: int)
      modifies `channels
      ensures channels == map k | k in old(channels) :: ExpireChannel(old(channels)[k], now)
    {
      var todo := channels.Keys;
      while todo != {}
        invariant todo <= channels.Keys == old(channels).Keys
        invariant forall k | k in channels ::
                    channels[k] == if k in todo then old(channels)[k] else ExpireChannel(old(channels)[k], now)
        decreases |todo|
      {
        var k :| k in todo;
        todo := todo - {k};
        var st := channels[k];
        if st.unlocked && st.expiresAt.At? && now >= st.expiresAt.instant {
          channels := channels[k := st.(unlocked := false)];
        }
      }
    }

    method DropExpiredResumeTokens(now: int)
      modifies `resumeTokens
      ensures resumeTokens == map k | k in old(resumeTokens) && now <= old(resumeTokens)[k].expiresAt ::
              old(resumeTokens)[k]
    {
      var todo := resumeTokens.Keys;
      while todo != {}
        invariant todo <= resumeTokens.Keys <= old(resumeTokens).Keys
        invariant forall k | k in resumeTokens :: resumeTokens[k] == old(resumeTokens)[k]
        invariant forall k | k in old(resumeTokens) && k !in todo :: k in resumeTokens <==>
                  now <= old(resumeTokens)[k].expiresAt
        decreases |todo|
      {
        var k :| k in todo;
        todo := todo - {k};
        if now > resumeTokens[k].expiresAt { resumeTokens := resumeTokens - {k}; }
      }
    }

    method DropStaleAttempts(now: int)
      modifies `failedAttempts
      ensures failedAttempts == Forget(old(failedAttempts), now, policy.retention)
    {
      var todo := failedAttempts.Keys;
      while todo != {}
        invariant todo <= failedAttempts.Keys <= old(failedAttempts).Keys
        invariant forall k | k in failedAttempts :: failedAttempts[k] == old(failedAttempts)[k]
        invariant forall k | k in old(failedAttempts) && k !in todo ::
                    k in failedAttempts <==> Kept(old(failedAttempts)[k], now, policy.retention)
        decreases |todo|
      {
        var k :| k in todo;
        todo := todo - {k};
        var st := failedAttempts[k];
        if st.cooldownUntil.At? && now < st.cooldownUntil.instant { continue; }
        if now - st.lastFailedAt >= policy.retention { failedAttempts := failedAttempts - {k}; }
      }
    }

    method CleanupExpiredLocked(now: int)
      modifies `channels, `resumeTokens, `failedAttempts
      ensures Tables() == Credentials.Sweep(old(Tables()), now)
      ensures failedAttempts == Forget(old(failedAttempts), now, policy.retention)
    {
      LockExpiredChannels(now);
      DropExpiredResumeTokens(now);
      DropStaleAttempts(now);
    }

    // ------------------------------------------------------------- channels

    method ScheduleChannelExpiryLocked(channel: string)
      requires channel in channels
      modifies `channels
      ensures channels == old(channels)[channel := Scheduled(old(channels)[channel])]
    {
      var st := channels[channel].(timer := Never);
      channels := channels[channel := st];
      if st.expiresAt.Never? || st.trusted { return; }
      channels := channels[channel := st.(timer := st.expiresAt)];
    }

    method StoreChannel(channel: string, st: Channel)
      modifies `channels
      ensures channels == old(channels)[channel := Scheduled(st)]
    {
      channels := channels[channel := st];
      ScheduleChannelExpiryLocked(channel);
    }

    method FindLiveSession(accessSession: string, now: int) returns (source: Option<string>)
      ensures ValidSource(Tables(), now, true, accessSession, source)
    {
      source := None;
      var todo := localSessions.Keys;
      while todo != {}
        invariant todo <= localSessions.Keys
        invariant forall k | k in localSessions && k !in todo :: !IsSource(Tables(), now, accessSession, k)
        decreases |todo|
      {
        var k :| k in todo;
        todo := todo - {k};
        if localSessions[k].accessSession == accessSession && now < localSessions[k].expiresAt { return Some(k); }
      }
    }

    /** `source` is the local session the registration inherits from, if any. */
    method RegisterChannelWithOptions(meta: Meta, trusted: bool, accessSession: string,
            now: int) returns (source: Option<string>)
      modifies `channels, `resumeTokens, `failedAttempts
      ensures env.trim(meta.channelId) != "" ==>
                ValidSource(Credentials.Sweep(old(Tables()), now), now, Inherits(enabled, trusted, accessSession),
                    accessSession, source)
      ensures source.Some? ==> source.value in localSessions
      ensures Tables() == Credentials.Register(old(Tables()), env, enabled, now, meta, trusted, accessSession, source)
      ensures env.trim(meta.channelId) == "" ==> failedAttempts == old(failedAttempts)
      ensures env.trim(meta.channelId) != "" ==> failedAttempts == Forget(old(failedAttempts), now, policy.retention)
    {
      source := None;
      var id := env.trim(meta.channelId);
      if id == "" { return; }
      CleanupExpiredLocked(now);
      var state := Channel("", trusted, Never, Never, accessSession, meta, trusted || !enabled);
      if !state.unlocked && accessSession != "" {
        source := FindLiveSession(accessSession, now);
        if source.Some? {
          var local := localSessions[source.value];
          state := state.(scope := local.scope, unlocked := true, expiresAt := At(local.expiresAt));
        }
      }
      StoreChannel(id, state);
    }

    method UnregisterChannel(channel: string)
      modifies `channels
      ensures Tables() == Credentials.Unregister(old(Tables()), env, channel)
    {
      var id := env.trim(channel);
      if id != "" { channels := channels - {id}; }
    }

    method ExpiryTimerFires(channel: string, deadline: int)
      modifies `channels
      ensures Tables() == Credentials.TimerFired(old(Tables()), channel, deadline)
    {
      if channel in channels && channels[channel].expiresAt == At(deadline) {
        channels := channels[channel := channels[channel].(unlocked := false)];
      }
    }

    // -------------------------------------------------------------- issuing

    method IssueChannel(channel: string, now: int, session: Option<string>,
            resume: Option<string>) returns (r: Result<Unlock, Error>)
      requires enabled
      modifies `channels, `resumeTokens, `failedAttempts
      ensures (Tables(), r) == Credentials.IssueChannel(old(Tables()), env, now, channel, session, resume)
      ensures env.trim(channel) == "" ==> failedAttempts == old(failedAttempts)
      ensures env.trim(channel) != "" ==> failedAttempts == Forget(old(failedAttempts), now, policy.retention)
    {
      var id := env.trim(channel);
      if id == "" { return Err(MissingArgument); }
      CleanupExpiredLocked(now);
      if id !in channels { return Err(ChannelNotFound); }
      if session.None? { return Err(RandomFailed); }
      var st := channels[id];
      var out := Unlock("", Never);
      if MintsResume(env, st.meta) {
        if resume.None? { return Err(RandomFailed); }
        resumeTokens := resumeTokens[resume.value :=
            ResumeFor(env, st.meta, st.scope, session.value, now + env.resumeTTL)];
        out := Unlock(resume.value, At(now + env.resumeTTL));
      }
      StoreChannel(id, st.(unlocked := true, expiresAt := At(now + env.resumeTTL), accessSession := session.value));
      return Ok(out);
    }

    method IssueLocalSessionForScope(scope: string, now: int, token: Option<string>, session: Option<string>,
            resume: Option<string>)
      returns (r: Result<Login, Error>)
      requires enabled
      modifies `channels, `resumeTokens, `localSessions, `failedAttempts
      ensures (Tables(), r) == Credentials.IssueLocal(old(Tables()), env, now, scope, token, session, resume)
      ensures failedAttempts == Forget(old(failedAttempts), now, policy.retention)
    {
      CleanupExpiredLocked(now);
      var lineage := now + env.resumeTTL;
      if token.None? || session.None? { return Err(RandomFailed); }
      var expires := now + env.localTTL;
      if lineage < expires { expires := lineage; }
      localSessions := localSessions[token.value := LocalSession(scope, session.value, expires)];
      if resume.None? { return Err(RandomFailed); }
      resumeTokens := resumeTokens[resume.value := ResumeToken(scope, env.trim(session.value), LOCAL_BINDING, lineage)];
      return Ok(Login(token.value, session.value, expires, resume.value, lineage));
    }

    method MintLocalSessionFromResumeTokenForScope(resume: string, meta: Meta, scope: string, now: int,
            token: Option<string>)
      returns (r: Result<Login, Error>)
      requires enabled
      modifies `channels, `resumeTokens, `localSessions, `failedAttempts
      ensures (Tables(), r) == Credentials.MintFromResume(old(Tables()), env, now, resume, meta, scope, token)
      ensures failedAttempts == if env.trim(resume) != "" then Forget(old(failedAttempts), now, policy.retention)
              else old(failedAttempts)
    {
      var id := env.trim(resume);
      if id == "" { return Err(MissingArgument); }
      CleanupExpiredLocked(now);
      if id !in resumeTokens || now > resumeTokens[id].expiresAt { return Err(InvalidResumeToken); }
      var tok := resumeTokens[id];
      if tok.binding != BindingOf(env, meta) { return Err(BindingMismatch); }
      var session := env.trim(tok.accessSession);
      if tok.scope != scope || session == "" { return Err(Unavailable); }
      if token.None? { return Err(RandomFailed); }
      var expires := now + env.localTTL;
      if tok.expiresAt < expires { expires := tok.expiresAt; }
      localSessions := localSessions[token.value := LocalSession(scope, session, expires)];
      return Ok(Login(token.value, session, expires, "", 0));
    }

    method ResolveLocalSessionForScope(token: string, scope: string, now: int) returns (found: Option<LocalSession>)
      modifies `channels, `resumeTokens, `failedAttempts
      ensures found == if enabled then Credentials.Resolve(old(Tables()), env, now, token, scope) else None
      ensures Tables() == if enabled && env.trim(token) != "" then Credentials.Sweep(old(Tables()), now)
              else old(Tables())
      ensures failedAttempts == if enabled && env.trim(token) != ""
              then Forget(old(failedAttempts), now, policy.retention) else old(failedAttempts)
    {
      if !enabled { return None; }
      var id := env.trim(token);
      if id == "" { return None; }
      CleanupExpiredLocked(now);
      if id !in localSessions || localSessions[id].scope != scope || now > localSessions[id].expiresAt { return None; }
      return Some(localSessions[id]);
    }

    method ResumeChannel(channel: string, resume: string, now: int) returns (failure: Option<Error>)
      requires enabled
      modifies `channels, `resumeTokens, `failedAttempts
      ensures (Tables(), failure) == Credentials.Resume(old(Tables()), env, now, channel, resume)
      ensures failedAttempts == if env.trim(channel) != "" && env.trim(resume) != ""
              then Forget(old(failedAttempts), now, policy.retention) else old(failedAttempts)
    {
      var id, token := env.trim(channel), env.trim(resume);
      if id == "" || token == "" { return Some(MissingArgument); }
      CleanupExpiredLocked(now);
      if id !in channels { return Some(ChannelNotFound); }
      var st := channels[id];
      if token !in resumeTokens || now > resumeTokens[token].expiresAt { return Some(InvalidResumeToken); }
      var tok := resumeTokens[token];
      if tok.binding != BindingOf(env, st.meta) { return Some(BindingMismatch); }
      if tok.scope != st.scope { return Some(ScopeMismatch); }
      StoreChannel(id, st.(unlocked := true, expiresAt := At(tok.expiresAt), accessSession := tok.accessSession));
      return None;
    }

    // ----------------------------------------------------------- delegation

    method DropExpiredDelegations(now: int)
      modifies `delegations
      ensures delegations == map k | k in old(delegations) && now < old(delegations)[k].expires :: old(delegations)[k]
    {
      var todo := delegations.Keys;
      while todo != {}
        invariant todo <= delegations.Keys <= old(delegations).Keys
        invariant forall k | k in delegations :: delegations[k] == old(delegations)[k]
        invariant forall k | k in old(delegations) && k !in todo :: k in delegations <==>
                  now < old(delegations)[k].expires
        decreases |todo|
      {
        var k :| k in todo;
        todo := todo - {k};
        if now >= delegations[k].expires { delegations := delegations - {k}; }
      }
    }

    method AddDelegation(token: string, st: Channel, space: string, now: int)
      modifies `delegations
      ensures delegations == old(delegations)[token := DelegationFrom(st, env, now, space)]
    {
      var parentExpires := st.expiresAt;
      if parentExpires.Never? && st.trusted { parentExpires := At(now + env.resumeTTL); }
      delegations := delegations[token :=
        Delegation(st.scope, st.accessSession, st.meta.userPublicId, st.meta.endpointId, parentExpires, space, now +
            30 * SECOND, "", None)];
    }

    method DelegateCodeSpace(channel: string, codeSpace: string, now: int,
            token: Option<string>) returns (r: Result<string, Error>)
      requires enabled
      modifies `channels, `resumeTokens, `delegations, `failedAttempts
      ensures (Tables(), r) == Credentials.Delegate(old(Tables()), env, now, channel, codeSpace, token)
      ensures failedAttempts == Forget(old(failedAttempts), now, policy.retention)
    {
      CleanupExpiredLocked(now);
      if channel !in channels || !MayDelegate(channels[channel]) { return Err(AccessRequired); }
      var st := channels[channel];
      var space := env.trim(codeSpace);
      if space == "" || |space| > 64 { return Err(InvalidCodeSpace); }
      DropExpiredDelegations(now);
      if |delegations| >= MAX_DELEGATIONS { return Err(TooManyPending); }
      if token.None? { return Err(RandomFailed); }
      AddDelegation(token.value, st, space, now);
      return Ok(token.value);
    }

    method ConsumeCodeSpaceLocked(channel: string, token: string, now: int,
            resume: Option<string>) returns (r: Result<Unlock, Error>)
      modifies `channels, `resumeTokens, `delegations, `failedAttempts
      ensures (Tables(), r) == Credentials.Consume(old(Tables()), env, now, channel, token, resume)
      ensures failedAttempts == Forget(old(failedAttempts), now, policy.retention)
    {
      CleanupExpiredLocked(now);
      if channel !in channels || token !in delegations || !Redeemable(channels[channel], delegations[token], now) {
        return Err(DelegationExpired);
      }
      var st, d := channels[channel], delegations[token];
      if d.consumedChannel != "" {
        if d.consumedChannel == channel && d.result.Some? { return Ok(d.result.value); }
        return Err(DelegationUsed);
      }
      if resume.None? { return Err(RandomFailed); }
      resumeTokens := resumeTokens[resume.value :=
          ResumeFor(env, st.meta, d.scope, d.accessSession, d.parentExpires.instant)];
      StoreChannel(channel, st.(unlocked := true, expiresAt := d.parentExpires, accessSession := d.accessSession));
      var out := Unlock(resume.value, d.parentExpires);
      delegations := delegations[token := d.(consumedChannel := channel, result := Some(out))];
      return Ok(out);
    }

    // ----------------------------------------------------------- revocation

    method LockChannelsOf(id: string)
      modifies `channels
      ensures channels == map k | k in old(channels) :: LockIf(old(channels)[k], old(channels)[k].accessSession == id)
    {
      var todo := channels.Keys;
      while todo != {}
        invariant todo <= channels.Keys == old(channels).Keys
        invariant forall k | k in channels ::
                    channels[k] == LockIf(old(channels)[k], k !in todo && old(channels)[k].accessSession == id)
        decreases |todo|
      {
        var k :| k in todo;
        todo := todo - {k};
        if channels[k].accessSession == id { channels := channels[k := channels[k].(unlocked := false)]; }
      }
    }

    method DropDelegationsOf(id: string)
      modifies `delegations
      ensures delegations == map k | k in old(delegations) && old(delegations)[k].accessSession != id ::
              old(delegations)[k]
    {
      var todo := delegations.Keys;
      while todo != {}
        invariant todo <= delegations.Keys <= old(delegations).Keys
        invariant forall k | k in delegations :: delegations[k] == old(delegations)[k]
        invariant forall k | k in old(delegations) && k !in todo :: k in delegations <==>
                  old(delegations)[k].accessSession != id
        decreases |todo|
      {
        var k :| k in todo;
        todo := todo - {k};
        if delegations[k].accessSession == id { delegations := delegations - {k}; }
      }
    }

    method DropLocalSessionsOf(id: string)
      modifies `localSessions
      ensures localSessions == map k | k in old(localSessions) && old(localSessions)[k].accessSession != id ::
              old(localSessions)[k]
    {
      var todo := localSessions.Keys;
      while todo != {}
        invariant todo <= localSessions.Keys <= old(localSessions).Keys
        invariant forall k | k in localSessions :: localSessions[k] == old(localSessions)[k]
        invariant forall k | k in old(localSessions) && k !in todo :: k in localSessions <==>
                  old(localSessions)[k].accessSession != id
        decreases |todo|
      {
        var k :| k in todo;
        todo := todo - {k};
        if localSessions[k].accessSession == id { localSessions := localSessions - {k}; }
      }
    }

    method DropResumeTokensOf(ids: set<string>)
      modifies `resumeTokens
      ensures resumeTokens == map k | k in old(resumeTokens) && old(resumeTokens)[k].accessSession !in ids ::
              old(resumeTokens)[k]
    {
      var todo := resumeTokens.Keys;
      while todo != {}
        invariant todo <= resumeTokens.Keys <= old(resumeTokens).Keys
        invariant forall k | k in resumeTokens :: resumeTokens[k] == old(resumeTokens)[k]
        invariant forall k | k in old(resumeTokens) && k !in todo :: k in resumeTokens <==>
                  old(resumeTokens)[k].accessSession !in ids
        decreases |todo|
      {
        var k :| k in todo;
        todo := todo - {k};
        if resumeTokens[k].accessSession in ids { resumeTokens := resumeTokens - {k}; }
      }
    }

    method RevokeAccessSessionLocked(id: string)
      modifies `channels, `resumeTokens, `localSessions, `delegations
      ensures Tables() == RevokeSessions(old(Tables()), {id})
    {
      DropDelegationsOf(id);
      LockChannelsOf(id);
      DropLocalSessionsOf(id);
      DropResumeTokensOf({id});
    }

    method TakeLocalSession(token: string) returns (session: Option<string>)
      requires enabled
      modifies `channels, `resumeTokens, `localSessions, `delegations
      ensures (Tables(), session) == Credentials.TakeLocal(old(Tables()), env, token)
    {
      var id := env.trim(token);
      if id == "" { return None; }
      if id !in localSessions || env.trim(localSessions[id].accessSession) == "" { return None; }
      session := Some(localSessions[id].accessSession);
      RevokeAccessSessionLocked(session.value);
    }

    method TakeAccessSessionByResumeToken(resume: string, now: int) returns (session: Option<string>)
      requires enabled
      modifies `channels, `resumeTokens, `localSessions, `delegations, `failedAttempts
      ensures (Tables(), session) == Credentials.TakeByResume(old(Tables()), env, now, resume)
      ensures failedAttempts == if env.trim(resume) != "" then Forget(old(failedAttempts), now, policy.retention)
              else old(failedAttempts)
    {
      var id := env.trim(resume);
      if id == "" { return None; }
      CleanupExpiredLocked(now);
      if id !in resumeTokens || env.trim(resumeTokens[id].accessSession) == "" || now >= resumeTokens[id].expiresAt {
        return None;
      }
      session := Some(resumeTokens[id].accessSession);
      RevokeAccessSessionLocked(session.value);
    }

    method DropExpiredLocalSessions(now: int) returns (ids: set<string>)
      modifies `localSessions
      ensures localSessions == old(localSessions) - ExpiredLocals(old(Tables()), now)
      ensures ids == set k | k in ExpiredLocals(old(Tables()), now) &&
              env.trim(old(localSessions)[k].accessSession) != "" :: old(localSessions)[k].accessSession
    {
      var was := localSessions;
      ids := {};
      var todo := was.Keys;
      while todo != {}
        invariant todo <= localSessions.Keys <= was.Keys
        invariant forall k | k in localSessions :: localSessions[k] == was[k]
        invariant forall k | k in was && k !in todo :: k in localSessions <==> now <= was[k].expiresAt
        invariant ids == set k | k in was && k !in todo && now > was[k].expiresAt &&
                  env.trim(was[k].accessSession) != "" :: was[k].accessSession
        decreases |todo|
      {
        var k :| k in todo;
        todo := todo - {k};
        if now > was[k].expiresAt {
          localSessions := localSessions - {k};
          if env.trim(was[k].accessSession) != "" { ids := ids + {was[k].accessSession}; }
        }
      }
    }

    method WithoutActive(ids: set<string>) returns (rest: set<string>)
      ensures rest == ids - set k | k in localSessions :: localSessions[k].accessSession
    {
      rest := ids;
      var todo := localSessions.Keys;
      while todo != {}
        invariant todo <= localSessions.Keys
        invariant rest == ids - set k | k in localSessions && k !in todo :: localSessions[k].accessSession
        decreases |todo|
      {
        var k :| k in todo;
        todo := todo - {k};
        rest := rest - {localSessions[k].accessSession};
      }
    }

    /** Drops the expired local sessions, then the resume tokens of every
        access session that has none left. */
    method TakeExpiredLocalSessions(now: int) returns (gone: set<string>, queued: seq<string>)
      requires enabled
      modifies `resumeTokens, `localSessions, `revoked
      ensures Tables() == Credentials.TakeExpired(old(Tables()), env, now)
      ensures gone == ExpiredSessions(old(Tables()), env, now)
      ensures queued == old(revoked) && revoked == []
    {
      ghost var t := Tables();
      var ids := DropExpiredLocalSessions(now);
      gone := WithoutActive(ids);
      assert forall k :: k in localSessions <==> k in t.locals && k !in ExpiredLocals(t, now);
      assert forall k | k in localSessions :: localSessions[k] == t.locals[k];
      assert (set k | k in localSessions :: localSessions[k].accessSession) ==
             (set k | k in t.locals && k !in ExpiredLocals(t, now) :: t.locals[k].accessSession);
      queued, revoked := revoked, [];
      DropResumeTokensOf(gone);
    }

    method RevokeResumeToken(resume: string)
      requires enabled
      modifies `resumeTokens
      ensures Tables() == Credentials.RevokeResume(old(Tables()), env, resume)
    {
      var id := env.trim(resume);
      if id != "" { resumeTokens := resumeTokens - {id}; }
    }

    method LocalSessionsInScope(scope: string, family: bool) returns (ids: set<string>)
      ensures ids == set k | k in localSessions && InFamily(localSessions[k].scope, scope, family) ::
              localSessions[k].accessSession
    {
      ids := {};
      var todo := localSessions.Keys;
      while todo != {}
        invariant todo <= localSessions.Keys
        invariant ids == set k | k in localSessions && k !in todo &&
                  InFamily(localSessions[k].scope, scope, family) :: localSessions[k].accessSession
        decreases |todo|
      {
        var k :| k in todo;
        todo := todo - {k};
        if InFamily(localSessions[k].scope, scope, family) { ids := ids + {localSessions[k].accessSession}; }
      }
    }

    method ResumeTokensInScope(scope: string, family: bool) returns (ids: set<string>)
      ensures ids == set k | k in resumeTokens && InFamily(resumeTokens[k].scope, scope, family) ::
              resumeTokens[k].accessSession
    {
      ids := {};
      var todo := resumeTokens.Keys;
      while todo != {}
        invariant todo <= resumeTokens.Keys
        invariant ids == set k | k in resumeTokens && k !in todo && InFamily(resumeTokens[k].scope, scope, family) ::
                  resumeTokens[k].accessSession
        decreases |todo|
      {
        var k :| k in todo;
        todo := todo - {k};
        if InFamily(resumeTokens[k].scope, scope, family) { ids := ids + {resumeTokens[k].accessSession}; }
      }
    }

    method ChannelsInScope(scope: string, family: bool) returns (ids: set<string>)
      ensures ids == set k | k in channels && InFamily(channels[k].scope, scope, family) :: channels[k].accessSession
    {
      ids := {};
      var todo := channels.Keys;
      while todo != {}
        invariant todo <= channels.Keys
        invariant ids == set k | k in channels && k !in todo && InFamily(channels[k].scope, scope, family) ::
                  channels[k].accessSession
        decreases |todo|
      {
        var k :| k in todo;
        todo := todo - {k};
        if InFamily(channels[k].scope, scope, family) { ids := ids + {channels[k].accessSession}; }
      }
    }

    method RevokeEntryScopes(scope: string, family: bool) returns (ids: set<string>)
      modifies `channels, `resumeTokens, `localSessions, `delegations
      ensures Tables() == Credentials.RevokeScopes(old(Tables()), scope, family)
      ensures ids == if scope == "" then {} else ScopeSessions(old(Tables()), scope, family)
    {
      if scope == "" { return {}; }
      var locals := LocalSessionsInScope(scope, family);
      var resumes := ResumeTokensInScope(scope, family);
      var held := ChannelsInScope(scope, family);
      ids := locals + resumes + held;
      RevokeAll(ids);
    }

    method RevokeAll(ids: set<string>)
      modifies `channels, `resumeTokens, `localSessions, `delegations
      ensures Tables() == RevokeSessions(old(Tables()), ids)
    {
      ghost var t := Tables();
      var todo := ids;
      RevokingNothing(t);
      assert ids - todo == {};
      while todo != {}
        invariant todo <= ids && Tables() == RevokeSessions(t, ids - todo)
        decreases |todo|
      {
        var id :| id in todo;
        RevokingChains(t, ids - todo, id);
        RevokeAccessSessionLocked(id);
        assert ids - (todo - {id}) == ids - todo + {id};
        todo := todo - {id};
      }
      assert ids - todo == ids;
    }

    method QueueLocalSessions()
      modifies `revoked
      ensures old(revoked) <= revoked && |revoked| == |old(revoked)| + |localSessions|
      ensures forall id | id in revoked[|old(revoked)|..] :: exists k ::
              k in localSessions &&
              localSessions[k].accessSession == id
      ensures forall k | k in localSessions :: localSessions[k].accessSession in revoked[|old(revoked)|..]
    {
      var todo := localSessions.Keys;
      var n := |revoked|;
      while todo != {}
        invariant todo <= localSessions.Keys
        invariant n == |old(revoked)| && old(revoked) <= revoked && |revoked| + |todo| == n + |localSessions.Keys|
        invariant forall id | id in revoked[n..] :: exists k ::
                  k in localSessions &&
                  localSessions[k].accessSession == id
        invariant forall k | k in localSessions && k !in todo :: localSessions[k].accessSession in revoked[n..]
        decreases |todo|
      {
        var k :| k in todo;
        todo := todo - {k};
        var id := localSessions[k].accessSession;
        assert (revoked + [id])[n..] == revoked[n..] + [id];
        revoked := revoked + [id];
      }
    }

    method LockOrdinaryChannels()
      modifies `channels
      ensures channels == map k | k in old(channels) :: LockIf(old(channels)[k], !old(channels)[k].trusted)
    {
      var todo := channels.Keys;
      while todo != {}
        invariant todo <= channels.Keys == old(channels).Keys
        invariant forall k | k in channels ::
                  channels[k] == LockIf(old(channels)[k], k !in todo && !old(channels)[k].trusted)
        decreases |todo|
      {
        var k :| k in todo;
        todo := todo - {k};
        if !channels[k].trusted { channels := channels[k := channels[k].(unlocked := false)]; }
      }
    }

    /** Every local session is queued for the session owner, once each. */
    method RevokeOrdinaryLocked()
      modifies `channels, `resumeTokens, `localSessions, `delegations, `revoked
      ensures Tables() == Credentials.RevokeOrdinary(old(Tables()))
      ensures old(revoked) <= revoked && |revoked| == |old(revoked)| + |old(localSessions)|
      ensures forall k | k in old(localSessions) :: old(localSessions)[k].accessSession in revoked[|old(revoked)|..]
    {
      QueueLocalSessions();
      localSessions := map[];
      resumeTokens := map[];
      LockOrdinaryChannels();
      delegations := map[];
    }

    // ------------------------------------------------------------- password

    /** `verifyPasswordForSubject`: `correct` is the verdict of the password
        hash, `at` the second clock read when a failure is recorded. */
    method VerifyPasswordForSubject(correct: bool, subject: string, read: int, at: int) returns (verdict: Verdict)
      requires enabled && Valid()
      modifies `channels, `resumeTokens, `failedAttempts
      ensures Tables() == Credentials.Sweep(old(Tables()), read)
      ensures (failedAttempts, verdict) == Judge(old(failedAttempts), policy, subject, correct, read, at)
    {
      CleanupExpiredLocked(read);
      if subject in failedAttempts {
        var st := failedAttempts[subject];
        if st.cooldownUntil.At? && read < st.cooldownUntil.instant {
          return Limited(st.cooldownUntil.instant - read);
        }
      }
      if correct {
        failedAttempts := failedAttempts - {subject};
        return Accepted;
      }
      var failures := if subject in failedAttempts then failedAttempts[subject].failures + 1 else 1;
      var cooldown := Cooldown(policy, failures);
      failedAttempts := failedAttempts[subject :=
          Attempts(failures, at, if cooldown <= 0 then Never else At(at + cooldown))];
      return Wrong(cooldown);
    }
  }

  lemma {:induction false} RevokingNothing(t: Table)
    ensures RevokeSessions(t, {}) == t
  {}

  lemma {:induction false} RevokingChains(t: Table, ids: set<string>, id: string)
    ensures RevokeSessions(RevokeSessions(t, ids), {id}) == RevokeSessions(t, ids + {id})
  {}
}
