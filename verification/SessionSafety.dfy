/** Safety of every run of the tool calls: at most one holder per grant, each upstream credential
    posted at most once, and no upstream call for a grant that is not live. */
module SessionSafety {
  import opened OAuthTypes
  import opened Machine
  import opened Invariant
  import opened Preservation
  import opened Evolution
  import opened UserSession
  import P = ProviderModel

  // --- Stretches: what the provider operations of a call leave alone ---

  /** Sessions and pending flags of every grant outside `touched` are as they were, and no grant
      is new. */
  ghost predicate Spares(m: State, m': State, touched: set<GrantId>) {
    && m'.now == m.now && Grows(m.h, m'.h) && m'.h.grants == m.h.grants
    && (forall g {:trigger m'.s.grants[g]} :: g in m'.s.grants && g !in touched ==>
      g in m.s.grants && m'.s.grants[g].session == m.s.grants[g].session &&
        m'.s.grants[g].refreshPending == m.s.grants[g].refreshPending)
    && m'.s.grants.Keys <= m.s.grants.Keys
  }

  lemma SparesTransitive(m: State, m1: State, m2: State, touched: set<GrantId>)
    requires Spares(m, m1, touched) && Spares(m1, m2, touched)
    ensures Spares(m, m2, touched)
  {
  }

  lemma SparesMore(m: State, m': State, touched: set<GrantId>)
    requires Spares(m, m', {})
    ensures Spares(m, m', touched)
  {
  }

  predicate Reading(op: Op) {
    op.LoadAccess? || op.LoadSession? || op.RevokeGrant?
  }

  /** Loading and revoking spare every session. */
  lemma ReadingSpares(m: State, op: Op)
    requires Inv(m) && Reading(op)
    ensures Inv(Step(m, op)) && Spares(m, Step(m, op), {}) && Step(m, op).s == Perform(m.s, op, m.now).0
  {
    hide Inv, Grows, Evolves, Perform;
    StepKeeps(m, op);
    StepGrows(m, op);
    ReadingShape(m, op);
    PerformEvolves(m.s, op, m.now);
    hide Step;
    EvolvedSpares(m, Step(m, op));
  }

  /** Reading and revoking record nothing. */
  lemma ReadingShape(m: State, op: Op)
    requires Reading(op)
    ensures Step(m, op) == State(Perform(m.s, op, m.now).0, m.h, m.now) && NewNames(op) == {}
  {
    hide Perform;
    assert m.h.(used := m.h.used + {}) == m.h;
  }

  lemma EvolvedSpares(m: State, m': State)
    requires Evolves(m.s, m'.s, {}) && m'.h == m.h && m'.now == m.now && Grows(m.h, m'.h)
    ensures Spares(m, m', {})
  {
    hide Grows;
  }

  lemma BeginRefreshSpares(m: State, g: GrantId)
    requires Inv(m)
    ensures Inv(Step(m, BeginRefresh(g))) && Spares(m, Step(m, BeginRefresh(g)), {g}) &&
      Step(m, BeginRefresh(g)).s == P.BeginRefresh(m.s, g, m.now).0
  {
    hide Inv;
    StepKeeps(m, BeginRefresh(g));
    StepGrows(m, BeginRefresh(g));
    hide Grows;
  }

  lemma SaveSessionSpares(m: State, g: GrantId, session: RelaySession)
    requires Inv(m) && session.refresh.id !in m.h.lineage
    ensures
      var m' := Step(m, SaveSession(g, session));
      Inv(m') && Spares(m, m', {g}) && m'.s == P.SaveSession(m.s, g, session, m.now).0
  {
    hide Inv, Grows, Step;
    StepKeeps(m, SaveSession(g, session));
    StepGrows(m, SaveSession(g, session));
    SavingShape(m, g, session);
    hide RecordSave;
  }

  lemma SavingShape(m: State, g: GrantId, session: RelaySession)
    requires session.refresh.id !in m.h.lineage
    ensures
      var m' := Step(m, SaveSession(g, session));
      m'.now == m.now && m'.h.grants == m.h.grants && m'.s == P.SaveSession(m.s, g, session, m.now).0
  {
    hide P.SaveSession;
  }

  // --- What each stretch achieves ---

  /** The grant is live and a credential may travel for it. */
  predicate Live(m: State, g: GrantId) {
    P.Active(m.s, g, m.now)
  }

  /** The state in which an upstream call may start, by the kind of call. */
  predicate ReadyTo(m: State, t: Token, g: GrantId, outcome: Outcome) {
    match outcome
    case Fail => true
    case Post(session) => Live(m, g) && m.s.grants[g].refreshPending && m.s.grants[g].session == session
    case Ask(session, _) => Live(m, g) && !m.s.grants[g].refreshPending && m.s.grants[g].session == session
    case Verified =>
      var info := P.FindToken(m.s, t, Access, m.now);
      Live(m, g) && info.Some? && info.value.grantId == g
  }

  lemma CheckGrantSpares(m: State, t: Token, g: GrantId)
    requires Inv(m)
    ensures
      var (m', live) := CheckGrant(m, t, g);
      Inv(m') && Spares(m, m', {}) &&
      (live ==>
        Live(m', g) && P.FindToken(m'.s, t, Access, m'.now).Some? &&
        P.FindToken(m'.s, t, Access, m'.now).value.grantId == g)
  {
    ReadingSpares(m, LoadAccess(t));
    hide Inv, Spares;
  }

  /** Sending the credential of `session`: it is the stored one, and was not pending. */
  lemma StartRefreshSpares(m: State, t: Token, g: GrantId, session: RelaySession)
    requires Inv(m) && (g in m.s.grants ==> m.s.grants[g].session == session)
    ensures
      var (m', outcome) := StartRefresh(m, t, g, session);
      Inv(m') && Spares(m, m', {g}) && ReadyTo(m', t, g, outcome) && (outcome.Fail? || outcome.Post?) &&
      (outcome.Post? ==> outcome.session == session && g in m.s.grants && !m.s.grants[g].refreshPending) &&
      (outcome.Fail? ==> Spares(m, m', {}))
  {
    hide Inv, Spares, Step, CheckGrant, P.BeginRefresh;
    CheckGrantSpares(m, t, g);
    var (m1, live) := CheckGrant(m, t, g);
    SparesMore(m, m1, {g});
    if live {
      SparedGrant(m, m1, g);
      BeginRefreshSpares(m1, g);
      var m2 := Step(m1, BeginRefresh(g));
      if P.BeginRefresh(m1.s, g, m1.now).1 { BegunIsReady(m1, t, g, session); }
      SparesTransitive(m, m1, m2, {g});
      if !P.BeginRefresh(m1.s, g, m1.now).1 {
        BegunNothingSpares(m1, g);
        SparesTransitive(m, m1, m2, {});
      }
    }
  }

  /** Once the flag is written the stored credential may travel. */
  lemma BegunIsReady(m: State, t: Token, g: GrantId, session: RelaySession)
    requires Live(m, g) && m.s.grants[g].session == session && P.BeginRefresh(m.s, g, m.now).1
    ensures !m.s.grants[g].refreshPending
    ensures ReadyTo(Step(m, BeginRefresh(g)), t, g, Post(session))
  {
  }

  lemma BegunNothingSpares(m: State, g: GrantId)
    requires Inv(m) && !P.BeginRefresh(m.s, g, m.now).1
    ensures Spares(m, Step(m, BeginRefresh(g)), {})
  {
    BeginRefreshSpares(m, g);
    hide Inv;
  }

  lemma RejectedSpares(m: State, g: GrantId)
    requires Inv(m)
    ensures Inv(Step(m, RevokeGrant(g))) && Spares(m, Step(m, RevokeGrant(g)), {g}) &&
      Spares(m, Step(m, RevokeGrant(g)), {})
  {
    ReadingSpares(m, RevokeGrant(g));
    hide Inv, Spares;
    SparesMore(m, Step(m, RevokeGrant(g)), {g});
  }

  lemma SparesReflexive(m: State, touched: set<GrantId>)
    ensures Spares(m, m, touched)
  {
    GrowsReflexive(m.h, {});
    assert m.h.(used := m.h.used + {}) == m.h;
  }

  /** After a rotation the new session is stored, live and not pending. */
  lemma SavedIsReady(m: State, t: Token, g: GrantId, session: RelaySession)
    requires Inv(m) && P.SaveSession(m.s, g, session, m.now).1
    ensures
      var m' := m.(s := P.SaveSession(m.s, g, session, m.now).0);
      ReadyTo(m', t, g, Ask(session, true)) && g in m.s.grants
  {
    assert GrantOk(m.h, m.s.resource, g, m.s.grants[g]);
    hide Inv;
  }

  lemma RotatedSpares(m: State, t: Token, g: GrantId, session: RelaySession)
    requires Inv(m) && session.refresh.id !in m.h.lineage
    ensures
      var m' := Step(m, SaveSession(g, session));
      Inv(m') && Spares(m, m', {g}) &&
      if P.SaveSession(m.s, g, session, m.now).1 then ReadyTo(m', t, g, Ask(session, true)) else Spares(m, m', {})
  {
    SaveSessionSpares(m, g, session);
    var m' := Step(m, SaveSession(g, session));
    if P.SaveSession(m.s, g, session, m.now).1 {
      SavedIsReady(m, t, g, session);
      hide Inv, Spares, P.SaveSession, Step;
    } else {
      assert m'.s == P.RevokeGrant(m.s, g, m.now) || m'.s == m.s;
      hide Inv, P.SaveSession, Step, Grows;
    }
  }

  lemma FinishRefreshSpares(m: State, t: Token, g: GrantId, session: RelaySession, reply: RefreshReply)
    requires Inv(m) && (reply.Rotated? ==> reply.refresh.id !in m.h.lineage)
    ensures
      var (m', outcome) := FinishRefresh(m, g, session, reply);
      Inv(m') && Spares(m, m', {g}) && ReadyTo(m', t, g, outcome) && (outcome.Fail? || outcome.Ask?) &&
      (outcome.Fail? ==> Spares(m, m', {})) &&
      (outcome.Ask? ==> reply.Rotated? && outcome.session.refresh == reply.refresh)
  {
    hide Inv, Spares, Step, P.SaveSession, Live;
    SparesReflexive(m, {g});
    SparesReflexive(m, {});
    RejectedSpares(m, g);
    if reply.Rotated? {
      RotatedSpares(m, t, g, session.(access := reply.access, refresh := reply.refresh));
    }
  }

  /** A loaded session is the stored one, of a live grant that is not pending. */
  lemma LoadedSpares(m: State, g: GrantId)
    requires Inv(m)
    ensures
      var m', loaded := Step(m, LoadSession(g)), P.LoadSession(m.s, g, m.now).1;
      Inv(m') && Spares(m, m', {}) &&
      (loaded.Some? ==>
        m'.s == m.s && Live(m, g) && m.s.grants[g].session == loaded.value && !m.s.grants[g].refreshPending)
  {
    ReadingSpares(m, LoadSession(g));
    hide Inv, Spares, Step;
  }

  /** A stretch that failed before the flag was written leaves every session alone. */
  lemma VerifySpares(m: State, t: Token, g: GrantId)
    requires Inv(m)
    ensures
      var (m', outcome) := Verify(m, t, g);
      Inv(m') && Spares(m, m', {g}) && ReadyTo(m', t, g, outcome) && !outcome.Verified? &&
      (outcome.Post? ==>
        g in m.s.grants && m.s.grants[g].session == outcome.session && !m.s.grants[g].refreshPending) &&
      (outcome.Ask? ==> !outcome.refreshed) &&
      (!outcome.Post? ==> Spares(m, m', {}))
  {
    hide Inv, Spares, CheckGrant, Step, P.LoadSession, StartRefresh;
    CheckGrantSpares(m, t, g);
    var (m1, live) := CheckGrant(m, t, g);
    LoadedSpares(m1, g);
    var m2 := Step(m1, LoadSession(g));
    var loaded := P.LoadSession(m1.s, g, m1.now).1;
    SparesMore(m, m1, {g});
    SparesTransitive(m, m1, m2, {});
    SparesMore(m, m2, {g});
    SparedNow(m1, m2);
    if loaded.Some? {
      SparedGrant(m, m1, g);
      SparedGrant(m1, m2, g);
      StartRefreshSpares(m2, t, g, loaded.value);
      var m3 := StartRefresh(m2, t, g, loaded.value).0;
      SparesTransitive(m, m2, m3, {g});
      if StartRefresh(m2, t, g, loaded.value).1.Fail? { SparesTransitive(m, m2, m3, {}); }
    }
  }

  lemma SparedNow(m: State, m': State)
    requires Spares(m, m', {})
    ensures m'.now == m.now
  {
  }

  /** A spared grant that is still there is as it was. */
  lemma SparedGrant(m: State, m': State, g: GrantId)
    requires Spares(m, m', {}) && g in m'.s.grants
    ensures g in m.s.grants && m'.s.grants[g].session == m.s.grants[g].session &&
      m'.s.grants[g].refreshPending == m.s.grants[g].refreshPending
  {
  }

  lemma FinishVerifySpares(m: State, t: Token, g: GrantId, session: RelaySession, refreshed: bool, reply: MeReply)
    requires Inv(m) && (g in m.s.grants ==> m.s.grants[g].session == session)
    ensures
      var (m', outcome) := FinishVerify(m, t, g, session, refreshed, reply);
      Inv(m') && Spares(m, m', {g}) && ReadyTo(m', t, g, outcome) && !outcome.Ask? &&
      (outcome.Post? ==>
        g in m.s.grants && m.s.grants[g].session == outcome.session && !m.s.grants[g].refreshPending) &&
      (!outcome.Post? ==> Spares(m, m', {})) &&
      (outcome.Verified? ==> reply == Identity(session.userId, session.workspaceId))
  {
    hide Inv, Spares, CheckGrant, Step, StartRefresh, Live, P.FindToken;
    SparesReflexive(m, {g});
    SparesReflexive(m, {});
    RejectedSpares(m, g);
    CheckGrantSpares(m, t, g);
    StartRefreshSpares(m, t, g, session);
    SparesMore(m, CheckGrant(m, t, g).0, {g});
  }
}
