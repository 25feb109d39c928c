/** What ends a grant, and what else changes it: the exact row every operation leaves. */
module GrantLife {
  import opened Basics
  import opened OAuthTypes
  import opened Machine
  import opened Invariant
  import opened Preservation
  import opened Evolution
  import opened GrantTheorems
  import opened TokenTheorems
  import opened TokenLife
  import P = ProviderModel

  /** One of all the refresh tokens ever issued for the grant. */
  predicate RefreshTokenOf(m: State, t: Token, g: GrantId) {
    g in m.h.issued && t in m.h.issued[g]
  }

  predicate NewestOf(m: State, t: Token, g: GrantId) {
    g in m.h.issued && m.h.issued[g] != [] && m.h.issued[g][|m.h.issued[g]| - 1] == t
  }

  /** An access token of the grant that is not 300 seconds old. */
  predicate AccessTokenOf(m: State, t: Token, g: GrantId) {
    t in m.h.tokens && m.h.tokens[t].kind == Access && m.h.tokens[t].grant == g && m.now < m.h.tokens[t].at + 300
  }

  /** Another refresh token than the newest, shown by the grant's own client. */
  predicate Reused(m: State, clientId: ClientId, t: Token, g: GrantId)
    requires g in m.s.grants
  {
    m.s.grants[g].clientId == clientId && RefreshTokenOf(m, t, g) && !NewestOf(m, t, g)
  }

  /** The operations that end a grant that is alive. */
  predicate Ends(m: State, op: Op, g: GrantId)
    requires g in m.s.grants
  {
    match op
    case RevokeGrant(g') => g' == g
    case RevokeToken(clientId, t) =>
      m.s.grants[g].clientId == clientId && (RefreshTokenOf(m, t, g) || AccessTokenOf(m, t, g))
    case LoadRefresh(clientId, t) => Reused(m, clientId, t, g)
    case ExchangeRefresh(clientId, t, _, _, _, _) => Reused(m, clientId, t, g)
    case LoadSession(g') => g' == g && m.s.grants[g].refreshPending
    case SaveSession(g', session) => g' == g && !Usable(session.refresh, m.now)
    case _ => false
  }

  predicate SameIdentity(grant: Grant, session: RelaySession) {
    session.userId == grant.subject && session.workspaceId == grant.workspaceId
  }

  function RowAfter(m: State, op: Op, g: GrantId): Grant
    requires g in m.s.grants
  {
    var grant := m.s.grants[g];
    if Ends(m, op, g) then grant.(revokedAt := Some(m.now))
    else if op == BeginRefresh(g) then grant.(refreshPending := true)
    else if op.SaveSession? && op.g == g && SameIdentity(grant, op.session) then
      grant.(session := op.session, refreshPending := false,
             expiresAt := Min(grant.expiresAt, op.session.refresh.claims.value.exp))
    else grant
  }

  // --- What the look-ups see of a grant that is alive ---

  lemma SeesRefresh(m: State, t: Token, g: GrantId)
    requires Inv(m) && Alive(m, g)
    ensures
      var found := P.FindToken(m.s, t, Refresh, m.now);
      (found.Some? && found.value.grantId == g <==> RefreshTokenOf(m, t, g)) &&
      (RefreshTokenOf(m, t, g) ==>
         found.value.clientId == m.s.grants[g].clientId && (found.value.consumed <==> !NewestOf(m, t, g)))
  {
    AliveIsActive(m, g);
    var found := P.FindToken(m.s, t, Refresh, m.now);
    if found.Some? && found.value.grantId == g { FoundIsRecorded(m, t, Refresh); }
    if RefreshTokenOf(m, t, g) {
      var i :| 0 <= i < |m.h.issued[g]| && m.h.issued[g][i] == t;
      IssuedRow(m, g, i);
      IssuedRow(m, g, |m.h.issued[g]| - 1);
    }
    hide Inv;
  }

  lemma SeesAccess(m: State, t: Token, g: GrantId)
    requires Inv(m) && AccessRows(m) && Alive(m, g)
    ensures
      var found := P.FindToken(m.s, t, Access, m.now);
      (found.Some? && found.value.grantId == g <==> AccessTokenOf(m, t, g)) &&
      (AccessTokenOf(m, t, g) ==> found.value.clientId == m.s.grants[g].clientId)
  {
    AliveIsActive(m, g);
    var found := P.FindToken(m.s, t, Access, m.now);
    if found.Some? && found.value.grantId == g { FoundIsRecorded(m, t, Access); }
    if AccessTokenOf(m, t, g) { AccessRowOf(m, t); }
    hide Inv, AccessRows;
  }

  // --- The effect of each operation on one row ---

  predicate Shows(found: Option<TokenInfo>, clientId: ClientId, g: GrantId) {
    found.Some? && found.value.clientId == clientId && found.value.grantId == g
  }

  function Revoked(grant: Grant, now: Time): Grant {
    grant.(revokedAt := Some(now))
  }

  lemma CleanupLeavesRow(s: Server, g: GrantId, now: Time)
    requires P.Active(s, g, now)
    ensures g in P.Cleanup(s, now).grants && P.Cleanup(s, now).grants[g] == s.grants[g]
    ensures P.Active(P.Cleanup(s, now), g, now)
  {
  }

  lemma LoadRefreshRow(s: Server, clientId: ClientId, t: Token, now: Time, g: GrantId)
    requires P.Active(s, g, now)
    ensures
      var (s', loaded) := P.LoadRefresh(s, clientId, t, now);
      var found := P.FindToken(s, t, Refresh, now);
      loaded == (if found.Some? && found.value.clientId == clientId && !found.value.consumed then found else None) &&
      g in s'.grants &&
      s'.grants[g] == if Shows(found, clientId, g) && found.value.consumed then Revoked(s.grants[g], now)
        else s.grants[g]
  {
    FindAfterCleanup(s, t, Refresh, now);
    CleanupLeavesRow(s, g, now);
    hide P.Cleanup, P.FindToken;
  }

  lemma RevokeTokenRow(s: Server, clientId: ClientId, t: Token, now: Time, g: GrantId)
    requires P.Active(s, g, now)
    requires P.FindToken(s, t, Access, now).None? || P.FindToken(s, t, Refresh, now).None?
    ensures
      var s' := P.RevokeToken(s, clientId, t, now);
      g in s'.grants &&
      s'.grants[g] ==
        if Shows(P.FindToken(s, t, Access, now), clientId, g) || Shows(P.FindToken(s, t, Refresh, now), clientId, g)
        then Revoked(s.grants[g], now) else s.grants[g]
  {
    FindAfterCleanup(s, t, Access, now);
    FindAfterCleanup(s, t, Refresh, now);
    CleanupLeavesRow(s, g, now);
    LoadRefreshRow(P.Cleanup(s, now), clientId, t, now, g);
    hide P.Cleanup, P.FindToken, P.LoadRefresh;
  }

  lemma OneKind(s: Server, t: Token, now: Time)
    ensures P.FindToken(s, t, Access, now).None? || P.FindToken(s, t, Refresh, now).None?
  {
  }

  lemma ExchangeRefreshRow(s: Server, op: Op, now: Time, g: GrantId)
    requires op.ExchangeRefresh? && P.Active(s, g, now)
    ensures
      var s' := P.ExchangeRefresh(s, op.clientId, op.t, op.scopes, op.access, op.refresh, now, op.later).0;
      var found := P.FindToken(s, op.t, Refresh, now);
      g in s'.grants &&
      s'.grants[g] ==
        if Shows(found, op.clientId, g) && found.value.consumed then Revoked(s.grants[g], now) else s.grants[g]
  {
  }

  lemma ExchangeCodeRow(s: Server, op: Op, now: Time, g: GrantId)
    requires op.ExchangeCode? && g in s.grants && op.names.grant != g
    ensures
      var s' := P.ExchangeCode(s, op.clientId, op.c, op.names, now, op.later).0;
      g in s'.grants && s'.grants[g] == s.grants[g]
  {
  }

  lemma LoadSessionRow(m: State, g': GrantId, g: GrantId)
    requires Inv(m) && Alive(m, g)
    ensures var s' := P.LoadSession(m.s, g', m.now).0; g in s'.grants && s'.grants[g] == RowAfter(m, LoadSession(g'), g)
  {
    AliveIsActive(m, g);
    if g' in m.s.grants { assert GrantOk(m.h, m.s.resource, g', m.s.grants[g']); }
    hide Inv, Reused;
  }

  lemma BeginRefreshRow(m: State, g': GrantId, g: GrantId)
    requires Alive(m, g)
    ensures var s' := P.BeginRefresh(m.s, g', m.now).0;
      g in s'.grants && s'.grants[g] == RowAfter(m, BeginRefresh(g'), g)
  {
    hide Reused;
  }

  lemma SaveSessionRow(m: State, g': GrantId, session: RelaySession, g: GrantId)
    requires Alive(m, g)
    ensures
      var s' := P.SaveSession(m.s, g', session, m.now).0;
      g in s'.grants && s'.grants[g] == RowAfter(m, SaveSession(g', session), g)
  {
    hide Reused;
  }

  lemma RevokeTokenRowAfter(m: State, clientId: ClientId, t: Token, g: GrantId)
    requires Inv(m) && AccessRows(m) && Alive(m, g)
    ensures
      var s' := P.RevokeToken(m.s, clientId, t, m.now);
      g in s'.grants && s'.grants[g] == RowAfter(m, RevokeToken(clientId, t), g)
  {
    AliveIsActive(m, g);
    OneKind(m.s, t, m.now);
    SeesRefresh(m, t, g);
    SeesAccess(m, t, g);
    RevokeTokenRow(m.s, clientId, t, m.now, g);
    hide Inv, AccessRows, Alive, P.Active, P.RevokeToken, P.FindToken, RefreshTokenOf, NewestOf, AccessTokenOf, Reused;
  }

  lemma LoadRefreshRowAfter(m: State, clientId: ClientId, t: Token, g: GrantId)
    requires Inv(m) && Alive(m, g)
    ensures
      var s' := P.LoadRefresh(m.s, clientId, t, m.now).0;
      g in s'.grants && s'.grants[g] == RowAfter(m, LoadRefresh(clientId, t), g)
  {
    AliveIsActive(m, g);
    SeesRefresh(m, t, g);
    LoadRefreshRow(m.s, clientId, t, m.now, g);
    hide Inv, Alive, P.Active, P.LoadRefresh, P.FindToken, RefreshTokenOf, NewestOf, AccessTokenOf;
  }

  lemma ExchangeRefreshRowAfter(m: State, op: Op, g: GrantId)
    requires Inv(m) && Alive(m, g) && op.ExchangeRefresh?
    ensures
      var s' := P.ExchangeRefresh(m.s, op.clientId, op.t, op.scopes, op.access, op.refresh, m.now, op.later).0;
      g in s'.grants && s'.grants[g] == RowAfter(m, op, g)
  {
    AliveIsActive(m, g);
    SeesRefresh(m, op.t, g);
    ExchangeRefreshRow(m.s, op, m.now, g);
    hide Inv, Alive, P.Active, P.ExchangeRefresh, P.FindToken, RefreshTokenOf, NewestOf, AccessTokenOf;
  }

  lemma PerformTokenOp(s: Server, op: Op, now: Time)
    ensures op.RevokeToken? ==> Perform(s, op, now).0 == P.RevokeToken(s, op.clientId, op.t, now)
    ensures op.LoadRefresh? ==> Perform(s, op, now).0 == P.LoadRefresh(s, op.clientId, op.t, now).0
    ensures op.ExchangeRefresh? ==>
      Perform(s, op, now).0 ==
      P.ExchangeRefresh(s, op.clientId, op.t, op.scopes, op.access, op.refresh, now, op.later).0
    ensures op.ExchangeCode? ==>
      Perform(s, op, now).0 == P.ExchangeCode(s, op.clientId, op.c, op.names, now, op.later).0
  {
    hide P.RevokeToken, P.LoadRefresh, P.ExchangeRefresh, P.ExchangeCode;
  }

  lemma PerformSessionOp(s: Server, op: Op, now: Time)
    ensures op.LoadSession? ==>
      Perform(s, op, now) == (P.LoadSession(s, op.g, now).0, SessionShown(P.LoadSession(s, op.g, now).1))
    ensures op.BeginRefresh? ==>
      Perform(s, op, now) == (P.BeginRefresh(s, op.g, now).0, Flag(P.BeginRefresh(s, op.g, now).1))
    ensures op.SaveSession? ==>
      Perform(s, op, now) ==
      (P.SaveSession(s, op.g, op.session, now).0, Flag(P.SaveSession(s, op.g, op.session, now).1))
    ensures op.RevokeGrant? ==> Perform(s, op, now).0 == P.RevokeGrant(s, op.g, now)
  {
    hide P.LoadSession, P.BeginRefresh, P.SaveSession, P.RevokeGrant;
  }

  /** The operations that never touch a grant that is alive. */
  predicate Harmless(op: Op) {
    Rowless(op) || op.Authorize? || op.ShowCode? || op.LoadAccess? || op.Cleanup?
  }

  lemma HarmlessRow(s: Server, op: Op, now: Time, g: GrantId)
    requires Harmless(op) && P.Active(s, g, now)
    ensures var s' := Perform(s, op, now).0; g in s'.grants && s'.grants[g] == s.grants[g]
  {
    CleanupLeavesRow(s, g, now);
    if Rowless(op) {
      RowlessKeepsRows(s, op, now);
      hide Perform, P.Cleanup;
    } else {
      hide P.Cleanup, P.FindToken, P.ValidChallenge, P.RequestedScopes;
    }
  }

  /** Every operation leaves a grant that is alive in exactly this row: revoked by what `Ends` lists
      and by nothing else, pending, with a new session, or as it was. */
  lemma GrantRowAfter(m: State, op: Op, g: GrantId)
    requires Reachable(m) && Enabled(m, op) && Alive(m, g)
    ensures
      var s' := Perform(m.s, op, m.now).0;
      g in s'.grants && s'.grants[g] == RowAfter(m, op, g)
  {
    ReachableInv(m);
    ReachableAccessRows(m);
    AliveIsActive(m, g);
    StoredGrantIsRecorded(m, g);
    NamesAreUsed(m, g);
    NewNamesAreNew(m, op, g);
    PerformTokenOp(m.s, op, m.now);
    PerformSessionOp(m.s, op, m.now);
    if Harmless(op) || op.ExchangeCode? { OthersLeaveRow(m, op, g); }
    hide Inv, AccessRows, Reachable, Alive, P.Active, Perform, Enabled, RowAfter;
    match op
    case RevokeToken(clientId, t) => RevokeTokenRowAfter(m, clientId, t, g);
    case LoadRefresh(clientId, t) => LoadRefreshRowAfter(m, clientId, t, g);
    case ExchangeRefresh(_, _, _, _, _, _) => ExchangeRefreshRowAfter(m, op, g);
    case ExchangeCode(_, _, _, _) => ExchangeCodeRow(m.s, op, m.now, g);
    case LoadSession(g') => LoadSessionRow(m, g', g);
    case BeginRefresh(g') => BeginRefreshRow(m, g', g);
    case SaveSession(g', session) => SaveSessionRow(m, g', session, g);
    case RevokeGrant(g') => RevokeGrantRow(m, g', g);
    case _ => HarmlessRow(m.s, op, m.now, g);
  }

  lemma OthersLeaveRow(m: State, op: Op, g: GrantId)
    requires g in m.s.grants && (Harmless(op) || op.ExchangeCode?)
    ensures RowAfter(m, op, g) == m.s.grants[g]
  {
  }

  lemma RevokeGrantRow(m: State, g': GrantId, g: GrantId)
    requires Alive(m, g)
    ensures var s' := P.RevokeGrant(m.s, g', m.now); g in s'.grants && s'.grants[g] == RowAfter(m, RevokeGrant(g'), g)
  {
    hide Reused;
  }

  /** A grant outlives a step exactly when the step does not end it and the clock has not reached
      its expiry. */
  lemma LivesOnIff(m: State, op: Op, g: GrantId)
    requires Reachable(m) && Enabled(m, op) && Alive(m, g)
    ensures Alive(Do(m, op), g) <==> !Ends(m, op, g) && Do(m, op).now < RowAfter(m, op, g).expiresAt
  {
    GrantRowAfter(m, op, g);
    hide Reachable, Enabled, Perform, Record, Ends;
  }

  /** What has been ended stays ended, whatever follows. */
  lemma EndedForGood(m: State, op: Op, g: GrantId, more: seq<Op>)
    requires Reachable(m) && Enabled(m, op) && Alive(m, g) && Ends(m, op, g)
    ensures !Alive(Run(Do(m, op), more), g)
  {
    LivesOnIff(m, op, g);
    ReachableInv(m);
    StoredGrantIsRecorded(m, g);
    hide Inv, Reachable, Ends, Enabled, RowAfter, Do;
    var m1 := Do(m, op);
    DoKeeps(m, op);
    DoneGrows(m, op);
    AliveIsActive(m1, g);
    StaysDead(m1, more, g);
    RunKeeps(m1, more);
    AliveIsActive(Run(m1, more), g);
  }

  lemma DoneGrows(m: State, op: Op)
    requires Inv(m) && Enabled(m, op)
    ensures Grows(m.h, Do(m, op).h)
  {
    StepGrows(m, op);
  }

  // --- Revocation on request ---

  /** The revocation endpoint ends the grant of every token its client can still use or has used
      up, for good, and no other grant: not for a token of another client, nor for an access token
      that no longer loads. */
  lemma RevocationEnds(m: State, clientId: ClientId, t: Token, g: GrantId, more: seq<Op>)
    requires Reachable(m) && Alive(m, g)
    ensures
      var m' := Do(m, RevokeToken(clientId, t));
      if m.s.grants[g].clientId == clientId && (RefreshTokenOf(m, t, g) || AccessTokenOf(m, t, g))
      then !Alive(Run(m', more), g)
      else m'.s.grants.Keys >= {g} && m'.s.grants[g] == m.s.grants[g]
  {
    var op := RevokeToken(clientId, t);
    GrantRowAfter(m, op, g);
    if Ends(m, op, g) { EndedForGood(m, op, g, more); }
    hide Reachable, Alive, Run, Record, P.RevokeToken, RefreshTokenOf, AccessTokenOf;
  }

  // --- The delegated session ---

  /** An upstream refresh begins exactly when the grant is alive and none is pending, whatever its
      credentials; it then only sets the flag of that grant, and otherwise changes nothing. */
  lemma RefreshBeginsIff(m: State, g: GrantId)
    requires Reachable(m)
    ensures
      Perform(m.s, BeginRefresh(g), m.now) ==
      if Alive(m, g) && !m.s.grants[g].refreshPending
      then (m.s.(grants := m.s.grants[g := m.s.grants[g].(refreshPending := true)]), Flag(true))
      else (m.s, Flag(false))
  {
  }

  /** A session is saved exactly when its refresh credential is usable, the grant is alive and the
      identity is the grant's; it is then what loads. An unusable credential ends the grant, and
      another identity changes nothing. */
  lemma SessionIsSavedIff(m: State, g: GrantId, session: RelaySession)
    requires Reachable(m)
    ensures
      var (s', answer) := Perform(m.s, SaveSession(g, session), m.now);
      answer == Flag(Usable(session.refresh, m.now) && Alive(m, g) && SameIdentity(m.s.grants[g], session)) &&
      (answer == Flag(true) ==>
         Perform(s', LoadSession(g), m.now) == (s', SessionShown(Some(session))) &&
         s' == m.s.(grants := m.s.grants[g := s'.grants[g]]) &&
         s'.grants[g].expiresAt == Min(m.s.grants[g].expiresAt, session.refresh.claims.value.exp)) &&
      (Usable(session.refresh, m.now) && answer == Flag(false) ==> s' == m.s)
  {
    ReachableInv(m);
    if g in m.s.grants { assert GrantOk(m.h, m.s.resource, g, m.s.grants[g]); }
    SavedAnswer(m.s, g, session, m.now);
    PerformSessionOp(m.s, SaveSession(g, session), m.now);
    PerformSessionOp(P.SaveSession(m.s, g, session, m.now).0, LoadSession(g), m.now);
    hide Inv, Reachable, P.SaveSession, P.LoadSession, Perform;
  }

  lemma SavedAnswer(s: Server, g: GrantId, session: RelaySession, now: Time)
    requires g in s.grants ==> s.grants[g].resource == s.resource
    ensures
      var (s', saved) := P.SaveSession(s, g, session, now);
      (saved <==> Usable(session.refresh, now) && g in s.grants && s.grants[g].revokedAt.None? &&
                  now < s.grants[g].expiresAt && SameIdentity(s.grants[g], session)) &&
      (saved ==>
         P.LoadSession(s', g, now) == (s', Some(session)) && s' == s.(grants := s.grants[g := s'.grants[g]]) &&
         s'.grants[g].expiresAt == Min(s.grants[g].expiresAt, session.refresh.claims.value.exp)) &&
      (Usable(session.refresh, now) && !saved ==> s' == s)
  {
  }

  /** The session loads exactly while its grant is alive and no refresh is pending. */
  lemma SessionLoadsIff(m: State, g: GrantId)
    requires Reachable(m)
    ensures
      Perform(m.s, LoadSession(g), m.now).1 ==
      SessionShown(if Alive(m, g) && !m.s.grants[g].refreshPending then Some(m.s.grants[g].session) else None)
  {
    ReachableInv(m);
    if g in m.s.grants { assert GrantOk(m.h, m.s.resource, g, m.s.grants[g]); }
    hide Inv, Reachable;
  }

  /** A name loads as a refresh token exactly when it is the newest issued for a grant that is alive
      and the client's own; it then shows the grant's user and the token's own scopes. */
  lemma RefreshTokenLoadsIff(m: State, clientId: ClientId, t: Token)
    requires Reachable(m)
    ensures
      var answer := Perform(m.s, LoadRefresh(clientId, t), m.now).1;
      answer.TokenShown? &&
      if t in m.h.tokens && Alive(m, m.h.tokens[t].grant) && NewestOf(m, t, m.h.tokens[t].grant) &&
         m.s.grants[m.h.tokens[t].grant].clientId == clientId
      then
        answer.info.Some? &&
        answer.info.value == TokenInfo(clientId, m.s.grants[m.h.tokens[t].grant].subject, m.h.tokens[t].scopes,
                                       answer.info.value.expiresAt, m.h.tokens[t].grant, false) &&
        m.s.grants[m.h.tokens[t].grant].expiresAt <= answer.info.value.expiresAt
      else answer.info.None?
  {
    ReachableInv(m);
    LoadRefreshAnswer(m.s, clientId, t, m.now);
    var found := P.FindToken(m.s, t, Refresh, m.now);
    if found.Some? {
      FoundIsRecorded(m, t, Refresh);
      FoundIsAlive(m, t);
    }
    if t in m.h.tokens && Alive(m, m.h.tokens[t].grant) {
      SeesRefresh(m, t, m.h.tokens[t].grant);
      if NewestOf(m, t, m.h.tokens[t].grant) { UnconsumedOutlives(m, m.h.tokens[t].grant, t); }
    }
    hide Reachable, Inv, Perform, Alive;
  }

  lemma FoundIsAlive(m: State, t: Token)
    requires Inv(m) && P.FindToken(m.s, t, Refresh, m.now).Some?
    ensures Alive(m, m.s.tokens[t].grantId)
  {
    AliveIsActive(m, m.s.tokens[t].grantId);
  }

  lemma LoadRefreshAnswer(s: Server, clientId: ClientId, t: Token, now: Time)
    ensures
      var found := P.FindToken(s, t, Refresh, now);
      Perform(s, LoadRefresh(clientId, t), now).1 ==
      TokenShown(if found.Some? && found.value.clientId == clientId && !found.value.consumed then found else None)
  {
    FindAfterCleanup(s, t, Refresh, now);
    hide P.Cleanup, P.FindToken;
  }

  // --- Reachable states ---

  lemma {:induction false} RunAppend(m: State, ops: seq<Op>, more: seq<Op>)
    ensures Run(m, ops + more) == Run(Run(m, ops), more)
    decreases |ops|
  {
    hide Step;
    if ops == [] {
      assert ops + more == more;
    } else {
      assert (ops + more)[1..] == ops[1..] + more;
      RunAppend(Step(m, ops[0]), ops[1..], more);
    }
  }

  lemma RunIsReachable(m: State, more: seq<Op>)
    requires Reachable(m)
    ensures Reachable(Run(m, more))
  {
    var resource, grantTtl, now, ops :| grantTtl > 0 && m == Run(Init(resource, grantTtl, now), ops);
    hide Run, Init;
    RunAppend(Init(resource, grantTtl, now), ops, more);
    assert Run(Init(resource, grantTtl, now), ops + more) == Run(m, more);
  }

  lemma StepIsReachable(m: State, op: Op)
    requires Reachable(m)
    ensures Reachable(Step(m, op))
  {
    RunIsReachable(m, [op]);
    assert [op][1..] == [];
    hide Reachable, Step;
  }
}
