/** Revocation over whole runs: a revoked access session never comes back, and
    revoking an entry scope hits exactly the credentials of that scope. */
module Revocation {
  import opened Basics
  import opened Credentials
  import opened Lineage

  // ------------------------------------------------- where credentials come from

  predicate Present(t: Table, c: Credential) {
    match c
    case ChannelCred(k) => k in t.channels
    case ResumeCred(k) => k in t.resumes
    case LocalCred(k) => k in t.locals
    case DelegationCred(k) => k in t.delegations
  }

  /** The access session and entry scope recorded in a table entry. */
  function Tag(t: Table, c: Credential): (string, string)
    requires Present(t, c)
  {
    match c
    case ChannelCred(k) => (t.channels[k].accessSession, t.channels[k].scope)
    case ResumeCred(k) => (t.resumes[k].accessSession, t.resumes[k].scope)
    case LocalCred(k) => (t.locals[k].accessSession, t.locals[k].scope)
    case DelegationCred(k) => (t.delegations[k].accessSession, t.delegations[k].scope)
  }

  /** The credential a deriving step starts from. */
  function Parent(w: World, s: Step): Option<Credential> {
    match s
    case DoRegister(_, _, _, _, source) => if source.Some? then Some(LocalCred(source.value)) else None
    case DoMint(_, resume, _, _, _) => Some(ResumeCred(w.env.trim(resume)))
    case DoResume(_, _, resume) => Some(ResumeCred(w.env.trim(resume)))
    case DoDelegate(_, channel, _, _) => Some(ChannelCred(channel))
    case DoConsume(_, _, token, _) => Some(DelegationCred(token))
    case _ => None
  }

  predicate Kept(w: World, v: World, c: Credential) {
    Present(w.table, c) && Present(v.table, c) && Tag(w.table, c) == Tag(v.table, c) &&
        (Live(v.table, c) ==> Live(w.table, c))
  }

  predicate Derived(w: World, s: Step, tag: (string, string)) {
    var parent := Parent(w, s);
    parent.Some? && Live(w.table, parent.value) && Tag(w.table, parent.value) == tag
  }

  predicate JustMinted(v: World, s: Step, tag: (string, string)) {
    (s.DoIssueChannel? || s.DoIssueLocal?) && s.newSession == Some(tag.0) && tag.0 in v.minted &&
        v.minted[tag.0] == tag.1
  }

  predicate JustRegistered(w: World, s: Step, v: World, c: Credential)
    requires Present(v.table, c)
  {
    s.DoRegister? && w.env.trim(s.meta.channelId) != "" && c.ChannelCred? &&
        Tag(v.table, c) == (s.accessSession, "") && (Live(v.table, c) ==> s.trusted || !w.enabled)
  }

  /** Every table entry after a step was there before, was derived from a live
      parent with the same tag, carries a new access session, or is a bare
      registration. */
  predicate Explained(w: World, s: Step, v: World, c: Credential) {
    Present(v.table, c) ==>
      Kept(w, v, c) || Derived(w, s, Tag(v.table, c)) || JustMinted(v, s, Tag(v.table, c)) || JustRegistered(w, s, v, c)
  }

  lemma {:induction false} RegisterExplained(w: World, s: Step, c: Credential)
    requires Inv(w) && s.DoRegister? && Allowed(w, s)
    ensures Explained(w, s, AfterRegister(w, s), c)
  {}

  /** A new access session or a live parent accounts for this tag. */
  predicate Sourced(w: World, s: Step, v: World, tag: (string, string)) {
    Derived(w, s, tag) || JustMinted(v, s, tag)
  }

  /** Tables that only lost entries need no other explanation. */
  lemma {:induction false} ShrunkExplained(w: World, s: Step, v: World, c: Credential)
    requires KeepsSome(w.table, v.table, c)
    ensures Explained(w, s, v, c)
  {}

  lemma {:induction false} WithResumeExplained(w: World, s: Step, v: World, key: string, r: ResumeToken,
          o: Option<Origin>, c: Credential)
    requires Explained(w, s, v, c) && Sourced(w, s, v, (r.accessSession, r.scope))
    ensures Explained(w, s, WithResume(v, key, r, o), c)
  {}

  lemma {:induction false} WithLocalExplained(w: World, s: Step, v: World, key: string, l: LocalSession,
          o: Option<Origin>, c: Credential)
    requires Explained(w, s, v, c) && Sourced(w, s, v, (l.accessSession, l.scope))
    ensures Explained(w, s, WithLocal(v, key, l, o), c)
  {}

  lemma {:induction false} WithDelegationExplained(w: World, s: Step, v: World, key: string, d: Delegation,
          o: Option<Origin>,
          c: Credential)
    requires Explained(w, s, v, c) && Sourced(w, s, v, (d.accessSession, d.scope))
    ensures Explained(w, s, WithDelegation(v, key, d, o), c)
  {}

  lemma {:induction false} WithChannelExplained(w: World, s: Step, v: World, key: string, ch: Channel,
          o: Option<Origin>, c: Credential)
    requires Explained(w, s, v, c) && Sourced(w, s, v, (ch.accessSession, ch.scope))
    ensures Explained(w, s, WithChannel(v, key, ch, o), c)
  {}

  lemma {:induction false} SweptKeepsSome(t: Table, u: Table, now: int, c: Credential)
    requires u == t || u == Credentials.Sweep(t, now)
    ensures KeepsSome(t, u, c)
  {
    if u != t { SweepShrinks(t, now); }
  }

  /** A refused step at most sweeps. */
  lemma {:induction false} RefusedExplained(w: World, s: Step, t: Table, now: int, roots: set<Root>, ids: set<string>,
          c: Credential)
    requires t == w.table || t == Credentials.Sweep(w.table, now)
    ensures Explained(w, s, Noted(w.(table := t), roots, ids), c) && Explained(w, s, w.(table := t), c)
  {
    SweptKeepsSome(w.table, t, now, c);
    ShrunkExplained(w, s, Noted(w.(table := t), roots, ids), c);
    ShrunkExplained(w, s, w.(table := t), c);
  }

  lemma {:induction false} OpenedChannelExplained(w: World, s: Step, v: World, key: string, st: Channel,
          session: string,
          resume: Option<string>,
                               o: Origin, deadline: int, c: Credential)
    requires KeepsSome(w.table, v.table, c) && s.DoIssueChannel? && s.newSession == Some(session) &&
             v.env.trim(session) == session
    ensures Explained(w, s, OpenedChannel(v, key, st, session, resume, o, deadline), c)
  {
    var m := Minted(v, session, st.scope);
    ShrunkExplained(w, s, m, c);
    if resume.Some? {
      WithResumeExplained(w, s, m, resume.value, ResumeFor(v.env, st.meta, st.scope, session, deadline), Some(o), c);
      m := WithResume(m, resume.value, ResumeFor(v.env, st.meta, st.scope, session, deadline), Some(o));
    }
    WithChannelExplained(w, s, m, key, st.(unlocked := true, expiresAt := At(deadline), accessSession := session),
        Some(o), c);
  }

  lemma {:induction false} IssuedChannelExplained(w: World, s: Step, c: Credential)
    requires s.DoIssueChannel? && Allowed(w, s) && s.newSession.Some? &&
             w.env.trim(s.channel) in Swept(w, s.now).table.channels
    ensures Explained(w, s, IssuedChannel(w, s), c)
  {
    var v := Noted(Swept(w, s.now), {SignIn(w, s.now)}, Drawn(s.newSession) + Drawn(s.newResume));
    var id, st, root := w.env.trim(s.channel), v.table.channels[w.env.trim(s.channel)], Origin(SignIn(w, s.now), false);
    var resume := if MintsResume(w.env, st.meta) then s.newResume else None;
    assert IssuedChannel(w, s) == OpenedChannel(v, id, st, s.newSession.value, resume, root, s.now + w.env.resumeTTL);
    assert KeepsSome(w.table, v.table, c) by { SweptKeepsSome(w.table, v.table, s.now, c); }
    OpenedChannelExplained(w, s, v, id, st, s.newSession.value, resume, root, s.now + w.env.resumeTTL, c);
  }

  lemma {:induction false} IssueChannelExplained(w: World, s: Step, c: Credential)
    requires s.DoIssueChannel? && Allowed(w, s)
    ensures Explained(w, s, AfterIssueChannel(w, s), c)
  {
    var r := Credentials.IssueChannel(w.table, w.env, s.now, s.channel, s.newSession, s.newResume);
    if r.1.Err? {
      RefusedExplained(w, s, r.0, s.now, {SignIn(w, s.now)}, Drawn(s.newSession) + Drawn(s.newResume), c);
    } else {
      IssuedChannelExplained(w, s, c);
    }
  }

  lemma {:induction false} OpenedLocalExplained(w: World, s: Step, v: World, token: string, local: LocalSession,
          resume: Option<string>,
          o: Origin,
                             deadline: int, c: Credential)
    requires KeepsSome(w.table, v.table, c) && s.DoIssueLocal? && s.newSession == Some(local.accessSession)
    requires v.env.trim(local.accessSession) == local.accessSession
    ensures Explained(w, s, OpenedLocal(v, token, local, resume, o, deadline), c)
  {
    var m := Minted(v, local.accessSession, local.scope);
    ShrunkExplained(w, s, m, c);
    WithLocalExplained(w, s, m, token, local, Some(o), c);
    if resume.Some? {
      WithResumeExplained(w, s, WithLocal(m, token, local, Some(o)), resume.value,
                          ResumeToken(local.scope, v.env.trim(local.accessSession), LOCAL_BINDING, deadline), Some(o),
                          c);
    }
  }

  lemma {:induction false} IssueLocalExplained(w: World, s: Step, c: Credential)
    requires s.DoIssueLocal? && Allowed(w, s)
    ensures Explained(w, s, AfterIssueLocal(w, s), c)
  {
    var v := Noted(Swept(w, s.now), {SignIn(w, s.now)}, Drawn(s.newToken) + Drawn(s.newSession) + Drawn(s.newResume));
    assert KeepsSome(w.table, v.table, c) by { SweptKeepsSome(w.table, v.table, s.now, c); }
    if s.newToken.None? || s.newSession.None? {
      assert AfterIssueLocal(w, s) == v;
      ShrunkExplained(w, s, v, c);
    } else {
      var deadline, root := s.now + w.env.resumeTTL, Origin(SignIn(w, s.now), false);
      var local := LocalSession(s.scope, s.newSession.value, Min(s.now + w.env.localTTL, deadline));
      assert AfterIssueLocal(w, s) == OpenedLocal(v, s.newToken.value, local, s.newResume, root, deadline);
      OpenedLocalExplained(w, s, v, s.newToken.value, local, s.newResume, root, deadline, c);
    }
  }

  /** What is alive after a sweep was alive before it, under the same tag. */
  lemma {:induction false} SweptIsDerived(w: World, s: Step, now: int, c: Credential)
    requires Parent(w, s) == Some(c) && Live(Credentials.Sweep(w.table, now), c)
    ensures Derived(w, s, Tag(Credentials.Sweep(w.table, now), c))
  {
    SweptKeepsSome(w.table, Credentials.Sweep(w.table, now), now, c);
  }

  lemma {:induction false} MintExplained(w: World, s: Step, c: Credential)
    requires Inv(w) && s.DoMint? && Allowed(w, s)
    ensures Explained(w, s, AfterMint(w, s), c)
  {
    var r := Credentials.MintFromResume(w.table, w.env, s.now, s.resume, s.meta, s.scope, s.newToken);
    RefusedExplained(w, s, Credentials.Sweep(w.table, s.now), s.now, {}, Drawn(s.newToken), c);
    if r.1.Err? {
      RefusedExplained(w, s, r.0, s.now, {}, Drawn(s.newToken), c);
    } else {
      var v, parent := Noted(Swept(w, s.now), {}, Drawn(s.newToken)), ResumeCred(w.env.trim(s.resume));
      SweepKeeps(w, s.now);
      assert Sound(Swept(w, s.now), parent);
      SweptIsDerived(w, s, s.now, parent);
      var t := v.table.resumes[w.env.trim(s.resume)];
      WithLocalExplained(w, s, v, s.newToken.value,
                         LocalSession(s.scope, w.env.trim(t.accessSession), Min(s.now + w.env.localTTL, t.expiresAt)),
                         OriginOf(w.origins, parent), c);
    }
  }

  lemma {:induction false} ResumeExplained(w: World, s: Step, c: Credential)
    requires s.DoResume? && Allowed(w, s)
    ensures Explained(w, s, AfterResume(w, s), c)
  {
    var r := Credentials.Resume(w.table, w.env, s.now, s.channel, s.resume);
    RefusedExplained(w, s, Credentials.Sweep(w.table, s.now), s.now, {}, {}, c);
    if r.1.Some? {
      RefusedExplained(w, s, r.0, s.now, {}, {}, c);
    } else {
      var v, parent := Swept(w, s.now), ResumeCred(w.env.trim(s.resume));
      SweptIsDerived(w, s, s.now, parent);
      var t := v.table.resumes[w.env.trim(s.resume)];
      WithChannelExplained(w, s, v, w.env.trim(s.channel),
                           v.table.channels[w.env.trim(s.channel)]
                           .(unlocked := true, expiresAt := At(t.expiresAt), accessSession := t.accessSession),
                           OriginOf(w.origins, parent), c);
    }
  }

  lemma {:induction false} PendingExplained(w: World, s: Step, now: int, roots: set<Root>, ids: set<string>,
          c: Credential)
    ensures Explained(w, s, Noted(w.(table := PendingDelegations(Credentials.Sweep(w.table, now), now)), roots, ids), c)
  {
    var t := Credentials.Sweep(w.table, now);
    SweepShrinks(w.table, now);
    assert KeepsSome(w.table, t, c) && KeepsSome(t, PendingDelegations(t, now), c);
  }

  lemma {:induction false} DelegatedExplained(w: World, s: Step, c: Credential)
    requires s.DoDelegate? && s.newToken.Some?
    requires s.channel in Swept(w, s.now).table.channels && Swept(w, s.now).table.channels[s.channel].unlocked
    ensures Explained(w, s, Delegated(w, s), c)
  {
    var t, o := Credentials.Sweep(w.table, s.now), GrantOrigin(w, s.now, s.channel);
    var v := Noted(w.(table := PendingDelegations(t, s.now)), if o.Some? then {o.value.root} else {},
        Drawn(s.newToken));
    var d := DelegationFrom(t.channels[s.channel], w.env, s.now, w.env.trim(s.codeSpace));
    assert Delegated(w, s) == WithDelegation(v, s.newToken.value, d, o);
    PendingExplained(w, s, s.now, if o.Some? then {o.value.root} else {}, Drawn(s.newToken), c);
    SweptIsDerived(w, s, s.now, ChannelCred(s.channel));
    WithDelegationExplained(w, s, v, s.newToken.value, d, o, c);
  }

  lemma {:induction false} DelegateExplained(w: World, s: Step, c: Credential)
    requires s.DoDelegate? && Allowed(w, s)
    ensures Explained(w, s, AfterDelegate(w, s), c)
  {
    var r, t := Credentials.Delegate(w.table, w.env, s.now, s.channel, s.codeSpace, s.newToken),
        Credentials.Sweep(w.table, s.now);
    if r.1.Ok? {
      DelegatedExplained(w, s, c);
    } else if r.0 == PendingDelegations(t, s.now) {
      PendingExplained(w, s, s.now, {}, Drawn(s.newToken), c);
    } else {
      RefusedExplained(w, s, r.0, s.now, {}, Drawn(s.newToken), c);
    }
  }

  lemma {:induction false} ConsumedExplained(w: World, s: Step, c: Credential)
    requires Inv(w) && s.DoConsume? && s.newResume.Some? && s.token in w.table.delegations
    requires var t := Swept(w, s.now).table;
             s.channel in t.channels &&
             t.channels[s.channel].scope == w.table.delegations[s.token].scope
    requires w.table.delegations[s.token].parentExpires.At?
    ensures Explained(w, s, Consumed(w, s), c)
  {
    var v := Noted(Swept(w, s.now), {}, Drawn(s.newResume));
    var d, st := v.table.delegations[s.token], v.table.channels[s.channel];
    var o := OriginOf(w.origins, DelegationCred(s.token));
    RefusedExplained(w, s, v.table, s.now, {}, Drawn(s.newResume), c);
    assert Derived(w, s, (d.accessSession, d.scope)) && Sound(w, DelegationCred(s.token));
    WithResumeExplained(w, s, v, s.newResume.value,
        ResumeFor(w.env, st.meta, d.scope, d.accessSession, d.parentExpires.instant), o, c);
    var x := WithResume(v, s.newResume.value,
        ResumeFor(w.env, st.meta, d.scope, d.accessSession, d.parentExpires.instant), o);
    var e := d.(consumedChannel := s.channel, result := Some(Unlock(s.newResume.value, d.parentExpires)));
    WithDelegationExplained(w, s, x, s.token, e, o, c);
    WithChannelExplained(w, s, WithDelegation(x, s.token, e, o), s.channel,
                         st.(unlocked := true, expiresAt := d.parentExpires, accessSession := d.accessSession), o, c);
  }

  lemma {:induction false} ConsumeExplained(w: World, s: Step, c: Credential)
    requires Inv(w) && s.DoConsume? && Allowed(w, s)
    ensures Explained(w, s, AfterConsume(w, s), c)
  {
    var r := Credentials.Consume(w.table, w.env, s.now, s.channel, s.token, s.newResume);
    if r.1.Err? || w.table.delegations[s.token].consumedChannel != "" {
      RefusedExplained(w, s, r.0, s.now, {}, Drawn(s.newResume), c);
    } else {
      ConsumedExplained(w, s, c);
    }
  }

  lemma {:induction false} RemovalExplained(w: World, s: Step, c: Credential)
    requires Allowed(w, s) && (Removes(s) || s.PolicyChange? || s.DoRevokeOrdinary?)
    ensures Explained(w, s, After(w, s), c)
  {
    RemovalShrinks(w, s);
    AfterFollowsGate(w, s);
    assert KeepsSome(w.table, TableAfter(w, s), c);
    ShrunkExplained(w, s, After(w, s), c);
  }

  /** A disabled gate issues and derives nothing but redemptions. */
  lemma {:induction false} DerivationExplained(w: World, s: Step, c: Credential)
    requires Inv(w) && Allowed(w, s) && !Removes(s) && !s.PolicyChange? && !s.DoRevokeOrdinary?
    ensures Explained(w, s, After(w, s), c)
  {
    ShrunkExplained(w, s, w, c);
    match s
    case DoRegister(_, _, _, _, _) => RegisterExplained(w, s, c);
    case DoIssueChannel(_, _, _, _) => IssueChannelExplained(w, s, c);
    case DoIssueLocal(_, _, _, _, _) => IssueLocalExplained(w, s, c);
    case DoMint(_, _, _, _, _) => MintExplained(w, s, c);
    case DoResume(_, _, _) => ResumeExplained(w, s, c);
    case DoDelegate(_, _, _, _) => DelegateExplained(w, s, c);
    case DoConsume(_, _, _, _) => ConsumeExplained(w, s, c);
  }

  lemma {:induction false} StepExplained(w: World, s: Step, c: Credential)
    requires Inv(w) && Allowed(w, s)
    ensures Explained(w, s, After(w, s), c)
  {
    if Removes(s) || s.PolicyChange? || s.DoRevokeOrdinary? {
      RemovalExplained(w, s, c);
      } else { DerivationExplained(w, s, c);
    }
  }

  /** History only grows, and known ids keep the scope they were minted in. */
  ghost predicate Grown(w: World, v: World) {
    && w.used <= v.used && v.env == w.env && (w.enabled ==> v.enabled)
    && (forall id | id in w.used ::
        (id in v.minted <==> id in w.minted) &&
        (id in w.minted ==> v.minted[id] == w.minted[id]))
  }

  lemma {:induction false} IssueGrows(w: World, s: Step)
    requires Allowed(w, s) && (s.DoIssueChannel? || s.DoIssueLocal?)
    ensures Grown(w, After(w, s))
  {}

  lemma {:induction false} HistoryGrows(w: World, s: Step)
    requires Allowed(w, s)
    ensures Grown(w, After(w, s))
  {
    if s.DoIssueChannel? || s.DoIssueLocal? {
      IssueGrows(w, s);
    } else {
      assert After(w, s).minted == w.minted;
    }
  }

  // --------------------------------------------------- permanent revocation

  predicate Barred(w: World, id: string, c: Credential) {
    Live(w.table, c) ==> SessionOf(w.table, c) != id
  }

  /** Access session `id` is known, and nothing alive carries it. */
  ghost predicate Dead(w: World, id: string) {
    w.enabled && id in w.used && forall c :: Barred(w, id, c)
  }

  /** The one step that can bring an id back: a host registration under it. */
  predicate Revives(env: Env, s: Step, id: string) {
    s.DoRegister? && s.trusted && s.accessSession == id && env.trim(s.meta.channelId) != ""
  }

  lemma {:induction false} ExplainedStaysDead(w: World, s: Step, v: World, id: string)
    requires Dead(w, id) && Grown(w, v) && Allowed(w, s) && !Revives(w.env, s, id)
    requires forall c :: Explained(w, s, v, c)
    ensures Dead(v, id)
  {
    forall c ensures Barred(v, id, c) {
      assert Explained(w, s, v, c) && Barred(w, id, c);
      if Parent(w, s).Some? { assert Barred(w, id, Parent(w, s).value); }
    }
  }

  lemma {:induction false} StepStaysDead(w: World, s: Step, id: string)
    requires Inv(w) && Dead(w, id) && Allowed(w, s)
    ensures Dead(After(w, s), id) <==> !Revives(w.env, s, id)
  {
    if Revives(w.env, s, id) {
      assert !Barred(AfterRegister(w, s), id, ChannelCred(w.env.trim(s.meta.channelId)));
    } else {
      var v := After(w, s);
      HistoryGrows(w, s);
      forall c ensures Explained(w, s, v, c) { StepExplained(w, s, c); }
      ExplainedStaysDead(w, s, v, id);
    }
  }

  ghost predicate DeadThroughout(w: World, steps: seq<Step>, id: string)
    requires AllowedRun(w, steps)
    decreases steps
  {
    Dead(w, id) && (steps != [] ==> DeadThroughout(After(w, steps[0]), steps[1..], id))
  }

  /** Revocation is permanent: a dead access session stays dead in every later
      state exactly when the host never registers a trusted channel under it. */
  lemma {:induction false} RevocationIsPermanent(w: World, steps: seq<Step>, id: string)
    requires Inv(w) && Dead(w, id) && AllowedRun(w, steps)
    ensures DeadThroughout(w, steps, id) <==> forall s | s in steps :: !Revives(w.env, s, id)
    decreases steps
  {
    if steps != [] {
      var v := After(w, steps[0]);
      StepKeeps(w, steps[0]);
      HistoryGrows(w, steps[0]);
      StepStaysDead(w, steps[0], id);
      assert forall s :: s in steps <==> s == steps[0] || s in steps[1..];
      if !Revives(w.env, steps[0], id) { RevocationIsPermanent(v, steps[1..], id); }
    }
  }

  lemma {:induction false} SessionsAreUsed(w: World, c: Credential)
    requires Inv(w) && Present(w.table, c)
    ensures Tag(w.table, c).0 in w.used
  {
    assert Sound(w, c);
  }

  lemma {:induction false} RevokedSessionsAreDead(w: World, ids: set<string>, id: string)
    requires w.enabled && id in ids && id in w.used
    ensures Dead(w.(table := RevokeSessions(w.table, ids)), id)
  {}

  /** What a revoking step returns is dead from that step on. */
  lemma {:induction false} RevokedIsDead(w: World, s: Step, id: string)
    requires Inv(w) && w.enabled && Allowed(w, s)
    requires
      || (s.DoTakeLocal? && Credentials.TakeLocal(w.table, w.env, s.token).1 == Some(id))
      || (s.DoTakeByResume? && Credentials.TakeByResume(w.table, w.env, s.now, s.resume).1 == Some(id))
      || (s.DoRevokeScopes? && s.scope != "" && id in ScopeSessions(w.table, s.scope, s.family))
    ensures Dead(After(w, s), id)
  {
    match s
    case DoTakeLocal(token) =>
      SessionsAreUsed(w, LocalCred(w.env.trim(token)));
      RevokedSessionsAreDead(w, {id}, id);
    case DoTakeByResume(now, resume) =>
      SessionsAreUsed(w, ResumeCred(w.env.trim(resume)));
      RevokedSessionsAreDead(Swept(w, now), {id}, id);
    case DoRevokeScopes(scope, family) =>
      if k :| k in w.table.locals && w.table.locals[k].accessSession == id { SessionsAreUsed(w, LocalCred(k)); }
      else if k :| k in w.table.resumes && w.table.resumes[k].accessSession == id { SessionsAreUsed(w, ResumeCred(k)); }
      else if k :| k in w.table.channels && w.table.channels[k].accessSession == id {
        SessionsAreUsed(w, ChannelCred(k));
      }
      RevokedSessionsAreDead(w, ScopeSessions(w.table, scope, family), id);
    case _ =>
  }

  // ------------------------------------------------------------ entry scopes

  /** The scope an access session was created in; host ids live in the direct
      entry, whose scope is empty. */
  function HomeScope(w: World, id: string): string {
    if id in w.minted then w.minted[id] else ""
  }

  predicate Homed(w: World, c: Credential) {
    Present(w.table, c) && (Live(w.table, c) || Tag(w.table, c).1 != "") ==>
        Tag(w.table, c).1 == HomeScope(w, Tag(w.table, c).0)
  }

  ghost predicate AllHomed(w: World) {
    forall c :: Homed(w, c)
  }

  lemma {:induction false} SameHome(w: World, v: World, id: string)
    requires Grown(w, v) && id in w.used
    ensures HomeScope(v, id) == HomeScope(w, id)
  {}

  lemma {:induction false} KeptHomed(w: World, v: World, c: Credential)
    requires Inv(w) && Homed(w, c) && Grown(w, v) && Kept(w, v, c)
    ensures Homed(v, c)
  {
    SessionsAreUsed(w, c);
    SameHome(w, v, Tag(w.table, c).0);
  }

  lemma {:induction false} DerivedHomed(w: World, s: Step, v: World, tag: (string, string))
    requires Inv(w) && AllHomed(w) && Grown(w, v) && Derived(w, s, tag)
    ensures tag.1 == HomeScope(v, tag.0)
  {
    var parent := Parent(w, s).value;
    assert Homed(w, parent);
    SessionsAreUsed(w, parent);
    SameHome(w, v, tag.0);
  }

  lemma {:induction false} RegisteredHomed(w: World, s: Step, c: Credential)
    requires Inv(w) && Allowed(w, s) && HostIdsApart(w, s)
    requires Present(After(w, s).table, c) && JustRegistered(w, s, After(w, s), c)
    ensures Homed(After(w, s), c)
  {
    assert After(w, s).minted == w.minted;
  }

  lemma {:induction false} StepHomed(w: World, s: Step, c: Credential)
    requires Inv(w) && AllHomed(w) && Allowed(w, s) && HostIdsApart(w, s) && Grown(w, After(w, s)) &&
             Present(After(w, s).table, c)
    ensures Homed(After(w, s), c)
  {
    var v := After(w, s);
    StepExplained(w, s, c);
    if Kept(w, v, c) {
      assert Homed(w, c);
      KeptHomed(w, v, c);
    } else if Derived(w, s, Tag(v.table, c)) {
      DerivedHomed(w, s, v, Tag(v.table, c));
    } else if !JustMinted(v, s, Tag(v.table, c)) {
      RegisteredHomed(w, s, c);
    }
  }

  lemma {:induction false} StepHomes(w: World, s: Step)
    requires Inv(w) && AllHomed(w) && Allowed(w, s) && HostIdsApart(w, s)
    ensures AllHomed(After(w, s))
  {
    HistoryGrows(w, s);
    forall c ensures Homed(After(w, s), c) {
      if Present(After(w, s).table, c) { StepHomed(w, s, c); }
    }
  }

  ghost predicate HostIdsApartThroughout(w: World, steps: seq<Step>)
    requires AllowedRun(w, steps)
    decreases steps
  {
    steps == [] || (HostIdsApart(w, steps[0]) && HostIdsApartThroughout(After(w, steps[0]), steps[1..]))
  }

  lemma {:induction false} RunHomes(w: World, steps: seq<Step>)
    requires Inv(w) && AllHomed(w) && AllowedRun(w, steps) && HostIdsApartThroughout(w, steps)
    ensures Inv(RunOf(w, steps)) && AllHomed(RunOf(w, steps))
    decreases steps
  {
    if steps != [] {
      StepKeeps(w, steps[0]);
      StepHomes(w, steps[0]);
      RunHomes(After(w, steps[0]), steps[1..]);
    }
  }

  /** In every reachable state, live credentials that share an access session
      share one entry scope. */
  lemma {:induction false} OneScopePerSession(env: Env, enabled: bool, steps: seq<Step>, c: Credential, d: Credential)
    requires AllowedRun(Start(env, enabled), steps) && HostIdsApartThroughout(Start(env, enabled), steps)
    requires
      var t := RunOf(Start(env, enabled), steps).table;
      Live(t, c) && Live(t, d) && SessionOf(t, c) == SessionOf(t, d)
    ensures
      var t := RunOf(Start(env, enabled), steps).table;
      ScopeOf(t, c) == ScopeOf(t, d)
  {
    StartKeeps(env, enabled);
    RunHomes(Start(env, enabled), steps);
    assert Homed(RunOf(Start(env, enabled), steps), c) && Homed(RunOf(Start(env, enabled), steps), d);
  }

  predicate SameEntry(t: Table, u: Table, c: Credential)
    requires Live(t, c)
  {
    Live(u, c) && match c
    case ChannelCred(k) => t.channels[k] == u.channels[k]
    case ResumeCred(k) => t.resumes[k] == u.resumes[k]
    case LocalCred(k) => t.locals[k] == u.locals[k]
    case DelegationCred(k) => t.delegations[k] == u.delegations[k]
  }

  lemma {:induction false} ScopeSessionsHome(w: World, scope: string, family: bool, id: string)
    requires AllHomed(w) && scope != "" && id in ScopeSessions(w.table, scope, family)
    ensures InFamily(HomeScope(w, id), scope, family)
  {
    if k :|
        k in w.table.locals && InFamily(w.table.locals[k].scope, scope, family) &&
        w.table.locals[k].accessSession == id {
      assert Homed(w, LocalCred(k));
    } else if k :|
        k in w.table.resumes && InFamily(w.table.resumes[k].scope, scope, family) &&
        w.table.resumes[k].accessSession == id {
      assert Homed(w, ResumeCred(k));
    } else if k :|
        k in w.table.channels && InFamily(w.table.channels[k].scope, scope, family) &&
        w.table.channels[k].accessSession == id {
      assert Homed(w, ChannelCred(k));
    }
  }

  /** Entry-scope isolation: in every reachable state, revoking a scope (or its
      family) leaves no local session, resume token or open channel in it and
      leaves every live credential of any other scope exactly as it was. */
  lemma {:induction false} ScopeRevocationIsExact(env: Env, enabled: bool, steps: seq<Step>, scope: string,
          family: bool, c: Credential)
    requires AllowedRun(Start(env, enabled), steps) && HostIdsApartThroughout(Start(env, enabled), steps) && scope != ""
    ensures
      var t := RunOf(Start(env, enabled), steps).table;
      var u := RevokeScopes(t, scope, family);
      && (Live(u, c) && !c.DelegationCred? ==> !InFamily(ScopeOf(u, c), scope, family))
      && (Live(t, c) && !InFamily(ScopeOf(t, c), scope, family) ==> SameEntry(t, u, c))
  {
    var w := RunOf(Start(env, enabled), steps);
    StartKeeps(env, enabled);
    RunHomes(Start(env, enabled), steps);
    if Live(w.table, c) && !InFamily(ScopeOf(w.table, c), scope, family) {
      assert Homed(w, c);
      if SessionOf(w.table, c) in ScopeSessions(w.table, scope, family) {
        ScopeSessionsHome(w, scope, family, SessionOf(w.table, c));
        assert false;
      }
    }
  }

  /** The scan does not look at delegations: a pending one survives the
      revocation of its scope exactly when no other entry of the scope carries
      its access session. */
  lemma {:induction false} DelegationSurvival(t: Table, scope: string, family: bool, k: string)
    requires k in t.delegations && scope != ""
    ensures
      var id := t.delegations[k].accessSession;
      k in RevokeScopes(t, scope, family).delegations <==>
        && (forall j | j in t.locals && t.locals[j].accessSession == id :: !InFamily(t.locals[j].scope, scope, family))
        && (forall j | j in t.resumes && t.resumes[j].accessSession == id ::
            !InFamily(t.resumes[j].scope, scope, family))
        && (forall j | j in t.channels && t.channels[j].accessSession == id ::
            !InFamily(t.channels[j].scope, scope, family))
  {}
}
