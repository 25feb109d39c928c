/** How every stretch of a tool call ends: when it posts, asks, verifies or fails, what each reply of
    the upstream makes of the grant, and which grants are gone for good afterwards. */
module SessionOutcomes {
  import opened Basics
  import opened OAuthTypes
  import opened Machine
  import opened UserSession
  import opened TokenTheorems
  import opened GrantLife
  import G = GrantTheorems
  import L = TokenLife
  import S = SessionSafety
  import P = ProviderModel

  /** An access token of the upstream that lasts beyond `at`. */
  predicate Lasts(credential: Credential, at: Time) {
    credential.claims.Some? && credential.claims.value.claimType.AccessClaim? &&
    at < credential.claims.value.exp && 0 < credential.claims.value.exp < 0x8000_0000_0000_0000
  }

  /** The token is a live access token of the grant, and the grant is alive. */
  predicate Admits(m: State, t: Token, g: GrantId) {
    AccessTokenOf(m, t, g) && Alive(m, g)
  }

  predicate RefreshPending(m: State, g: GrantId) {
    g in m.s.grants && m.s.grants[g].refreshPending
  }

  // --- Stretches ---

  lemma CheckGrantIs(m: State, t: Token, g: GrantId)
    requires G.Reachable(m)
    ensures
      var (m', live) := CheckGrant(m, t, g);
      m' == Step(m, LoadAccess(t)) && m'.now == m.now && m'.h == m.h && (live <==> Admits(m, t, g)) &&
      (Alive(m, g) ==> Alive(m', g) && m'.s.grants[g] == m.s.grants[g])
  {
    LoadedTokenIs(m, t);
    if Alive(m, g) { GrantRowAfter(m, LoadAccess(t), g); }
    assert m.h.(used := m.h.used + {}) == m.h;
    hide G.Reachable, P.LoadAccess;
  }

  lemma LoadedTokenIs(m: State, t: Token)
    requires G.Reachable(m)
    ensures
      var info := P.LoadAccess(m.s, t, m.now).1;
      (info.Some? <==> t in m.h.tokens && Admits(m, t, m.h.tokens[t].grant)) &&
      (info.Some? ==>
         info.value.grantId == m.h.tokens[t].grant && info.value.scopes == m.h.tokens[t].scopes &&
         info.value.subject == m.s.grants[m.h.tokens[t].grant].subject)
  {
    L.AccessTokenLoadsIff(m, t);
    AccessAnswer(m.s, t, m.now);
    hide G.Reachable, P.LoadAccess, Perform;
  }

  lemma AccessAnswer(s: Server, t: Token, now: Time)
    ensures Perform(s, LoadAccess(t), now).1 == TokenShown(P.LoadAccess(s, t, now).1)
  {
    hide P.LoadAccess;
  }

  lemma StartRefreshIs(m: State, t: Token, g: GrantId, session: RelaySession)
    requires G.Reachable(m)
    ensures
      var (m', outcome) := StartRefresh(m, t, g, session);
      outcome == (if Admits(m, t, g) && !RefreshPending(m, g) then Post(session) else Fail) &&
      (outcome.Post? ==> g in m'.s.grants && m'.s.grants[g] == m.s.grants[g].(refreshPending := true))
  {
    CheckGrantIs(m, t, g);
    var m1 := CheckGrant(m, t, g).0;
    StepIsReachable(m, LoadAccess(t));
    RefreshBeginsIff(m1, g);
    StepState(m1, BeginRefresh(g));
    PerformSessionOp(m1.s, BeginRefresh(g), m1.now);
    hide G.Reachable, CheckGrant, Step, Perform, AccessTokenOf, P.BeginRefresh;
  }

  lemma StepState(m: State, op: Op)
    requires op.LoadAccess? || op.LoadSession? || op.BeginRefresh? || op.RevokeGrant?
    ensures Step(m, op) == State(Perform(m.s, op, m.now).0, m.h, m.now)
  {
    assert m.h.(used := m.h.used + {}) == m.h;
    hide Perform;
  }

  lemma VerifyIs(m: State, t: Token, g: GrantId)
    requires G.Reachable(m)
    ensures
      var (m', outcome) := Verify(m, t, g);
      outcome ==
        (if !Admits(m, t, g) || RefreshPending(m, g) then Fail
         else if Lasts(m.s.grants[g].session.access, m.now + 60) then Ask(m.s.grants[g].session, false)
         else Post(m.s.grants[g].session)) &&
      (outcome.Post? ==> g in m'.s.grants && m'.s.grants[g] == m.s.grants[g].(refreshPending := true)) &&
      (outcome.Ask? ==> g in m'.s.grants && m'.s.grants[g] == m.s.grants[g]) &&
      (Admits(m, t, g) && RefreshPending(m, g) ==> !Alive(m', g))
  {
    CheckGrantIs(m, t, g);
    var m1 := CheckGrant(m, t, g).0;
    StepIsReachable(m, LoadAccess(t));
    LoadingIs(m1, g);
    StepIsReachable(m1, LoadSession(g));
    if Alive(m1, g) { StartRefreshIs(Step(m1, LoadSession(g)), t, g, m1.s.grants[g].session); }
    hide G.Reachable, CheckGrant, Step, StartRefresh, P.LoadSession, AccessTokenOf;
    SameTokens(m, m1, t, g);
    SameTokens(m1, Step(m1, LoadSession(g)), t, g);
  }

  lemma SameTokens(m: State, m': State, t: Token, g: GrantId)
    requires m'.h == m.h && m'.now == m.now
    ensures AccessTokenOf(m', t, g) == AccessTokenOf(m, t, g)
  {
  }

  lemma LoadingIs(m: State, g: GrantId)
    requires G.Reachable(m)
    ensures
      var (m', loaded) := (Step(m, LoadSession(g)), P.LoadSession(m.s, g, m.now).1);
      m'.now == m.now && m'.h == m.h &&
      loaded == (if Alive(m, g) && !RefreshPending(m, g) then Some(m.s.grants[g].session) else None) &&
      (Alive(m, g) && RefreshPending(m, g) ==> !Alive(m', g)) &&
      (Alive(m, g) && !RefreshPending(m, g) ==> Alive(m', g) && m'.s.grants[g] == m.s.grants[g])
  {
    SessionLoadsIff(m, g);
    StepState(m, LoadSession(g));
    PerformSessionOp(m.s, LoadSession(g), m.now);
    if Alive(m, g) { GrantRowAfter(m, LoadSession(g), g); }
    hide G.Reachable, Step, Perform, P.LoadSession, Reused;
  }

  lemma RevokingIs(m: State, g: GrantId)
    requires G.Reachable(m)
    ensures var m' := Step(m, RevokeGrant(g)); m'.now == m.now && m'.h == m.h && !Alive(m', g)
  {
    StepState(m, RevokeGrant(g));
    if Alive(m, g) {
      GrantRowAfter(m, RevokeGrant(g), g);
    } else {
      StepIsDead(m, g);
    }
    hide G.Reachable, Step, Perform, Reused;
  }

  lemma StepIsDead(m: State, g: GrantId)
    requires !Alive(m, g)
    ensures !Alive(Step(m, RevokeGrant(g)), g)
  {
  }

  /** A rotated pair is stored exactly when the access token has time left, the refresh token is
      usable, and the grant is alive and the session's. */
  lemma FinishRefreshIs(m: State, g: GrantId, session: RelaySession, reply: RefreshReply)
    requires G.Reachable(m) && (reply.Rotated? ==> reply.refresh.id !in m.h.lineage)
    ensures
      var (m', outcome) := FinishRefresh(m, g, session, reply);
      match reply
      case NetworkError => m' == m && outcome == Fail
      case Malformed => m' == m && outcome == Fail
      case Rejected => !Alive(m', g) && outcome == Fail
      case Rotated(access, refresh) =>
        var rotated := RelaySession(access, refresh, session.userId, session.workspaceId);
        if !Lasts(access, m.now) then m' == m && outcome == Fail
        else if Usable(refresh, m.now) && Alive(m, g) && SameIdentity(m.s.grants[g], session) then
          outcome == Ask(rotated, true) && g in m'.s.grants && m'.s.grants[g].session == rotated &&
          !m'.s.grants[g].refreshPending && m'.s.grants[g].revokedAt.None?
        else outcome == Fail && (!Usable(refresh, m.now) ==> !Alive(m', g)) && (Usable(refresh, m.now) ==> m'.s == m.s)
  {
    RevokingIs(m, g);
    if reply.Rotated? { SavingIs(m, g, session.(access := reply.access, refresh := reply.refresh)); }
    hide G.Reachable, Step, P.SaveSession, Usable;
  }

  lemma SavingIs(m: State, g: GrantId, session: RelaySession)
    requires G.Reachable(m) && session.refresh.id !in m.h.lineage
    ensures
      var (m', saved) := (Step(m, SaveSession(g, session)), P.SaveSession(m.s, g, session, m.now).1);
      (saved <==> Usable(session.refresh, m.now) && Alive(m, g) && SameIdentity(m.s.grants[g], session)) &&
      (saved ==> g in m'.s.grants && m'.s.grants[g].session == session && !m'.s.grants[g].refreshPending &&
                 m'.s.grants[g].revokedAt.None?) &&
      (!saved && Usable(session.refresh, m.now) ==> m'.s == m.s) && (!Usable(session.refresh, m.now) ==> !Alive(m', g))
  {
    SessionIsSavedIff(m, g, session);
    PerformSessionOp(m.s, SaveSession(g, session), m.now);
    S.SavingShape(m, g, session);
    if Alive(m, g) {
      GrantRowAfter(m, SaveSession(g, session), g);
    } else {
      UnsavedIsDead(m, g, session);
    }
    hide G.Reachable, Step, Perform, P.SaveSession, Reused, Usable;
  }

  lemma UnsavedIsDead(m: State, g: GrantId, session: RelaySession)
    requires !Alive(m, g)
    ensures var s' := P.SaveSession(m.s, g, session, m.now).0; !Alive(m.(s := s'), g)
  {
  }

  /** Only an identity that is the session's own lets the call go on; another one ends the grant. */
  lemma FinishVerifyIs(m: State, t: Token, g: GrantId, session: RelaySession, refreshed: bool, reply: MeReply)
    requires G.Reachable(m)
    ensures
      var (m', outcome) := FinishVerify(m, t, g, session, refreshed, reply);
      match reply
      case Unauthorized =>
        if refreshed then outcome == Fail && !Alive(m', g)
        else outcome == (if Admits(m, t, g) && !RefreshPending(m, g) then Post(session) else Fail) &&
             (outcome.Post? ==> g in m'.s.grants && m'.s.grants[g] == m.s.grants[g].(refreshPending := true))
      case Forbidden => m' == m && outcome == Fail
      case Unavailable => m' == m && outcome == Fail
      case Identity(userId, workspaceId) =>
        if userId != session.userId || workspaceId != session.workspaceId || userId == "" || workspaceId == ""
        then outcome == Fail && !Alive(m', g)
        else outcome == (if Admits(m, t, g) then Verified else Fail)
  {
    RevokingIs(m, g);
    StartRefreshIs(m, t, g, session);
    CheckGrantIs(m, t, g);
    hide G.Reachable, Step, StartRefresh, CheckGrant, AccessTokenOf;
  }
}
