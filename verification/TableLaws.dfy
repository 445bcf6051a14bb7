/** What each section of the gate leaves alone: beside the entries it is about,
    the tables only age with the clock. */
module TableLaws {
  import opened Basics
  import opened Credentials

  /** The entries a section is about. */
  datatype Touched = Touched(channel: Option<string>, resume: Option<string>, local: Option<string>,
                             delegation: Option<string>)

  const NOTHING: Touched := Touched(None, None, None, None)

  /** The channel as it is at `now`: one past its deadline is locked. */
  predicate Later(c: Channel, d: Channel, now: int) {
    d == c.(unlocked := d.unlocked) && (d.unlocked <==> c.unlocked && (c.expiresAt.At? ==> now < c.expiresAt.instant))
  }

  /** Every other channel has aged, every other resume token is there exactly
      until its expiry, and the other local sessions are as they were. */
  ghost predicate Aged(t: Table, u: Table, now: int, but: Touched) {
    && (forall k | but.channel != Some(k) :: k in u.channels <==> k in t.channels)
    && (forall k | but.channel != Some(k) && k in t.channels :: Later(t.channels[k], u.channels[k], now))
    && (forall k | but.resume != Some(k) :: k in u.resumes <==> k in t.resumes && now <= t.resumes[k].expiresAt)
    && (forall k | but.resume != Some(k) && k in u.resumes :: u.resumes[k] == t.resumes[k])
    && (forall k | but.local != Some(k) :: k in u.locals <==> k in t.locals)
    && (forall k | but.local != Some(k) && k in u.locals :: u.locals[k] == t.locals[k])
  }

  ghost predicate SameDelegations(t: Table, u: Table, but: Touched) {
    && (forall k | but.delegation != Some(k) :: k in u.delegations <==> k in t.delegations)
    && (forall k | but.delegation != Some(k) && k in u.delegations :: u.delegations[k] == t.delegations[k])
  }

  /** From the swept table, only the entries touched are set. */
  ghost predicate SetsOnly(s: Table, u: Table, but: Touched) {
    && u.channels == (if but.channel.Some? && but.channel.value in u.channels
                      then s.channels[but.channel.value := u.channels[but.channel.value]] else s.channels)
    && u.resumes == (if but.resume.Some? && but.resume.value in u.resumes
                     then s.resumes[but.resume.value := u.resumes[but.resume.value]] else s.resumes)
    && u.locals == (if but.local.Some? && but.local.value in u.locals
                    then s.locals[but.local.value := u.locals[but.local.value]] else s.locals)
  }

  lemma {:induction false} SetsAfterSweep(t: Table, now: int, u: Table, but: Touched)
    requires SetsOnly(Credentials.Sweep(t, now), u, but)
    ensures Aged(t, u, now, but)
  {
    var s := Credentials.Sweep(t, now);
    forall k | k in t.channels ensures k in s.channels && Later(t.channels[k], s.channels[k], now) {}
    forall k ensures k in s.resumes <==> k in t.resumes && now <= t.resumes[k].expiresAt {}
  }

  lemma {:induction false} RegisterTouches(t: Table, e: Env, enabled: bool, now: int, meta: Meta, trusted: bool,
          id: string,
          source: Option<string>)
    requires ValidSource(Credentials.Sweep(t, now), now, Inherits(enabled, trusted, id), id, source)
    ensures
      var u, but := Register(t, e, enabled, now, meta, trusted, id, source),
                    NOTHING.(channel := Some(e.trim(meta.channelId)));
      if e.trim(meta.channelId) == "" then u == t else Aged(t, u, now, but) && SameDelegations(t, u, but)
  {}

  /** A refused issue changes nothing but that the tables age. */
  lemma {:induction false} IssueTouches(t: Table, e: Env, now: int, channel: string, session: Option<string>,
          resume: Option<string>)
    ensures
      var (u, r) := IssueChannel(t, e, now, channel, session, resume);
      var but := if r.Err? then NOTHING else Touched(Some(e.trim(channel)), resume, None, None);
      if e.trim(channel) == "" then u == t else Aged(t, u, now, but) && SameDelegations(t, u, NOTHING)
  {
    var (u, r) := IssueChannel(t, e, now, channel, session, resume);
    if e.trim(channel) != "" {
      SetsAfterSweep(t, now, u, if r.Err? then NOTHING else Touched(Some(e.trim(channel)), resume, None, None));
    }
  }

  /** A login that fails for want of a resume token has left its session. */
  lemma {:induction false} LoginTouches(t: Table, e: Env, now: int, scope: string, token: Option<string>,
          session: Option<string>,
          resume: Option<string>)
    ensures
      var (u, r) := IssueLocal(t, e, now, scope, token, session, resume);
      var but := if token.Some? && session.Some? then Touched(None, if r.Ok? then resume else None, token, None)
                 else NOTHING;
      Aged(t, u, now, but) && SameDelegations(t, u, NOTHING)
  {
    var (u, r) := IssueLocal(t, e, now, scope, token, session, resume);
    SetsAfterSweep(t, now, u, if token.Some? && session.Some?
                              then Touched(None, if r.Ok? then resume else None, token, None) else NOTHING);
  }

  lemma {:induction false} MintTouches(t: Table, e: Env, now: int, resume: string, meta: Meta, scope: string,
          token: Option<string>)
    ensures
      var (u, r) := MintFromResume(t, e, now, resume, meta, scope, token);
      if e.trim(resume) == "" then u == t
      else Aged(t, u, now, if r.Ok? then NOTHING.(local := token) else NOTHING) && SameDelegations(t, u, NOTHING)
  {
    var (u, r) := MintFromResume(t, e, now, resume, meta, scope, token);
    if e.trim(resume) != "" { SetsAfterSweep(t, now, u, if r.Ok? then NOTHING.(local := token) else NOTHING); }
  }

  lemma {:induction false} ResumeTouches(t: Table, e: Env, now: int, channel: string, resume: string)
    ensures
      var (u, failure) := Resume(t, e, now, channel, resume);
      if e.trim(channel) == "" || e.trim(resume) == "" then u == t
      else Aged(t, u, now, if failure.None? then NOTHING.(channel := Some(e.trim(channel))) else NOTHING) &&
           SameDelegations(t, u, NOTHING)
  {
    var (u, failure) := Resume(t, e, now, channel, resume);
    if e.trim(channel) != "" && e.trim(resume) != "" {
      SetsAfterSweep(t, now, u, if failure.None? then NOTHING.(channel := Some(e.trim(channel))) else NOTHING);
    }
  }

  /** A delegation that was already redeemed is repeated without a change. */
  lemma {:induction false} ConsumeTouches(t: Table, e: Env, now: int, channel: string, token: string,
          resume: Option<string>)
    ensures
      var (u, r) := Consume(t, e, now, channel, token, resume);
      var again := r.Err? || t.delegations[token].consumedChannel != "";
      var but := if again then NOTHING else Touched(Some(channel), resume, None, Some(token));
      Aged(t, u, now, but) && SameDelegations(t, u, but)
  {
    var (u, r) := Consume(t, e, now, channel, token, resume);
    var again := r.Err? || t.delegations[token].consumedChannel != "";
    SetsAfterSweep(t, now, u, if again then NOTHING else Touched(Some(channel), resume, None, Some(token)));
  }

  lemma {:induction false} DelegateTouches(t: Table, e: Env, now: int, channel: string, codeSpace: string,
          token: Option<string>)
    ensures Aged(t, Delegate(t, e, now, channel, codeSpace, token).0, now, NOTHING)
  {
    SetsAfterSweep(t, now, Delegate(t, e, now, channel, codeSpace, token).0, NOTHING);
  }

  /** A delegation adds itself and drops at most those past their thirty seconds. */
  lemma {:induction false} DelegationsKept(t: Table, e: Env, now: int, channel: string, codeSpace: string,
          token: Option<string>,
          k: string)
    ensures
      var (u, r) := Delegate(t, e, now, channel, codeSpace, token);
      r.Err? || token != Some(k) ==>
        && (k in u.delegations ==> k in t.delegations && u.delegations[k] == t.delegations[k])
        && (k in t.delegations && now < t.delegations[k].expires ==> k in u.delegations)
  {}

  // --------------------------------------------------- timers and single entries

  /** Every section that opens or registers a channel arms its timer for its
      deadline, unless it is the host's own or has none. */
  predicate Armed(c: Channel) {
    c.timer == (if c.trusted then Never else c.expiresAt)
  }

  lemma {:induction false} SectionsArm(t: Table, e: Env, now: int, channel: string, token: string,
          session: Option<string>,
          resume: Option<string>)
    ensures var r := IssueChannel(t, e, now, channel, session, resume);
            r.1.Ok? ==> e.trim(channel) in r.0.channels && Armed(r.0.channels[e.trim(channel)])
    ensures var r := Resume(t, e, now, channel, token);
            r.1.None? ==> e.trim(channel) in r.0.channels && Armed(r.0.channels[e.trim(channel)])
    ensures var r := Consume(t, e, now, channel, token, resume);
            r.1.Ok? && t.delegations[token].consumedChannel == "" ==>
              channel in r.0.channels && Armed(r.0.channels[channel])
  {}

  lemma {:induction false} RegisterArms(t: Table, e: Env, enabled: bool, now: int, meta: Meta, trusted: bool,
          id: string,
          source: Option<string>)
    requires ValidSource(Credentials.Sweep(t, now), now, Inherits(enabled, trusted, id), id, source)
    requires e.trim(meta.channelId) != ""
    ensures var u := Register(t, e, enabled, now, meta, trusted, id, source);
            e.trim(meta.channelId) in u.channels && Armed(u.channels[e.trim(meta.channelId)])
  {}

  /** A timer that fires locks its channel exactly while the channel still has the
      deadline it was armed for. */
  lemma {:induction false} TimerExactly(t: Table, channel: string, deadline: int)
    ensures
      var u := TimerFired(t, channel, deadline);
      && u == t.(channels := u.channels) && u.channels.Keys == t.channels.Keys
      && (forall k | k in t.channels && k != channel :: u.channels[k] == t.channels[k])
      && (channel in t.channels ==>
          u.channels[channel] == t.channels[channel].(unlocked := u.channels[channel].unlocked) &&
          (u.channels[channel].unlocked <==>
             t.channels[channel].unlocked && t.channels[channel].expiresAt != At(deadline)))
  {}

  lemma {:induction false} UnregisterExactly(t: Table, e: Env, channel: string)
    ensures
      var u := Unregister(t, e, channel);
      && u == t.(channels := u.channels)
      && (forall k :: k in u.channels <==> k in t.channels && (k != e.trim(channel) || k == ""))
      && (forall k | k in u.channels :: u.channels[k] == t.channels[k])
  {}

  lemma {:induction false} RevokeResumeExactly(t: Table, e: Env, resume: string)
    ensures
      var u := RevokeResume(t, e, resume);
      && u == t.(resumes := u.resumes)
      && (forall k :: k in u.resumes <==> k in t.resumes && (k != e.trim(resume) || k == ""))
      && (forall k | k in u.resumes :: u.resumes[k] == t.resumes[k])
  {}

  /** A channel gets a resume token exactly if it is the agent's own environment
      view, or a code or port-forward application with a code space. */
  lemma {:induction false} MayResumeExactly(e: Env, m: Meta)
    ensures MintsResume(e, m) <==>
              || (e.trim(m.floeApp) == "com.floegence.redeven.agent" && e.trim(m.codeSpaceId) == "env-ui")
              || ((e.trim(m.floeApp) == "com.floegence.redeven.code" ||
                   e.trim(m.floeApp) == "com.floegence.redeven.portforward") && e.trim(m.codeSpaceId) != "")
  {
    assert AGENT_APP[22] == 'a' && CODE_APP[22] == 'c' && FORWARD_APP[22] == 'p';
  }

  /** A scope is of the family when it is the scope itself or is named below it. */
  lemma {:induction false} FamilyExactly(value: string, scope: string, family: bool)
    ensures InFamily(value, scope, family) <==>
              value == scope ||
              (family && |value| > |scope| && value[..|scope|] == scope && value[|scope|] == ':')
  {
    if |value| > |scope| && value[..|scope|] == scope && value[|scope|] == ':' {
      assert value[..|scope| + 1] == scope + ":";
    }
    if scope + ":" <= value { assert value[|scope|] == (scope + ":")[|scope|]; }
  }

  /** Revoking a scope and its family removes or locks whatever carries an access
      session found in one of them, and nothing else; the direct entry's empty
      scope is refused. */
  lemma {:induction false} RevokeScopesExactly(t: Table, scope: string, family: bool)
    ensures
      var u := RevokeScopes(t, scope, family);
      var hit := ScopeSessions(t, scope, family);
      if scope == "" then u == t
      else
        && u.channels.Keys == t.channels.Keys
        && (forall k | k in t.channels ::
              u.channels[k] == t.channels[k].(unlocked := t.channels[k].unlocked &&
                  t.channels[k].accessSession !in hit))
        && (forall k :: k in u.resumes <==> k in t.resumes && t.resumes[k].accessSession !in hit)
        && (forall k :: k in u.locals <==> k in t.locals && t.locals[k].accessSession !in hit)
        && (forall k :: k in u.delegations <==> k in t.delegations && t.delegations[k].accessSession !in hit)
        && (forall id :: id in hit <==> SessionIn(t, scope, family, id))
  {}

  /** Some session, token or channel of the scope or its family carries the id. */
  ghost predicate SessionIn(t: Table, scope: string, family: bool, id: string) {
    || (exists k :: k in t.locals && InFamily(t.locals[k].scope, scope, family) && t.locals[k].accessSession == id)
    || (exists k :: k in t.resumes && InFamily(t.resumes[k].scope, scope, family) && t.resumes[k].accessSession == id)
    || (exists k :: k in t.channels && InFamily(t.channels[k].scope, scope, family) &&
                    t.channels[k].accessSession == id)
  }
}
