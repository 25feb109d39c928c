/** What one operation can do to a row that is already there, and what it adds to the history. */
module Evolution {
  import opened Basics
  import opened OAuthTypes
  import opened Machine
  import opened Invariant
  import opened Preservation
  import P = ProviderModel

  /** Identity is fixed, the expiry only shrinks, a revocation stays. */
  ghost predicate Ages(old_: Grant, new_: Grant) {
    && new_.clientId == old_.clientId && new_.subject == old_.subject && new_.workspaceId == old_.workspaceId &&
      new_.resource == old_.resource
    && new_.expiresAt <= old_.expiresAt
    && (old_.revokedAt.Some? ==> new_.revokedAt == old_.revokedAt)
  }

  /** Every grant that was not just created was there before, and has only aged. */
  ghost predicate GrantsAge(s: Server, s': Server, born: set<nat>) {
    s'.resource == s.resource &&
    forall g {:trigger s'.grants[g]} :: g in s'.grants && g !in born ==>
      g in s.grants && Ages(s.grants[g], s'.grants[g])
  }

  /** The delegated session and its pending flag are only touched by the two refresh steps. */
  ghost predicate SessionsKept(s: Server, s': Server, born: set<nat>) {
    forall g {:trigger s'.grants[g]} :: g in s'.grants && g !in born ==>
      g in s.grants && s'.grants[g].session == s.grants[g].session &&
      s'.grants[g].refreshPending == s.grants[g].refreshPending
  }

  ghost predicate TokensAge(s: Server, s': Server, born: set<nat>) {
    forall t {:trigger s'.tokens[t]} :: t in s'.tokens && t !in born ==>
      t in s.tokens && s'.tokens[t] == s.tokens[t].(consumedAt := s'.tokens[t].consumedAt) &&
      (s.tokens[t].consumedAt.Some? ==> s'.tokens[t].consumedAt.Some?)
  }

  ghost predicate Evolves(s: Server, s': Server, born: set<nat>) {
    GrantsAge(s, s', born) && SessionsKept(s, s', born) && TokensAge(s, s', born)
  }

  lemma SameRowsEvolve(s: Server, s': Server, born: set<nat>)
    requires s'.resource == s.resource && s'.grants == s.grants && s'.tokens == s.tokens
    ensures Evolves(s, s', born)
  {
  }

  lemma EvolvesTransitive(s: Server, s1: Server, s2: Server, born: set<nat>)
    requires Evolves(s, s1, {}) && Evolves(s1, s2, born)
    ensures Evolves(s, s2, born)
  {
  }

  lemma CleanupEvolves(s: Server, now: Time)
    ensures Evolves(s, P.Cleanup(s, now), {})
  {
  }

  lemma RevokeEvolves(s: Server, g: GrantId, now: Time)
    ensures Evolves(s, P.RevokeGrant(s, g, now), {})
  {
  }

  lemma LoadRefreshEvolves(s: Server, clientId: ClientId, t: Token, now: Time)
    ensures Evolves(s, P.LoadRefresh(s, clientId, t, now).0, {})
  {
    CleanupEvolves(s, now);
    hide Evolves;
    var s1 := P.Cleanup(s, now);
    var found := P.FindToken(s1, t, Refresh, now);
    if found.Some? {
      RevokeEvolves(s1, found.value.grantId, now);
      EvolvesTransitive(s, s1, P.RevokeGrant(s1, found.value.grantId, now), {});
    }
  }

  lemma RevokeTokenEvolves(s: Server, clientId: ClientId, t: Token, now: Time)
    ensures Evolves(s, P.RevokeToken(s, clientId, t, now), {})
  {
    CleanupEvolves(s, now);
    hide Evolves;
    var (s1, access) := P.LoadAccess(s, t, now);
    LoadRefreshEvolves(s1, clientId, t, now);
    EvolvesTransitive(s, s1, P.LoadRefresh(s1, clientId, t, now).0, {});
    var (s2, token) := if access.Some? then (s1, access) else P.LoadRefresh(s1, clientId, t, now);
    if token.Some? {
      RevokeEvolves(s2, token.value.grantId, now);
      EvolvesTransitive(s, s2, P.RevokeGrant(s2, token.value.grantId, now), {});
    }
  }

  /** Adding a grant row and two token rows under new names leaves the others alone. */
  lemma AddedRowsEvolve(s: Server, s': Server, g: GrantId, grant: Grant, access: Token, accessRow: TokenRow,
          refresh: Token, refreshRow: TokenRow)
    requires s'.resource == s.resource && s'.grants == s.grants[g := grant] &&
      s'.tokens == s.tokens[access := accessRow][refresh := refreshRow]
    ensures Evolves(s, s', {g, access, refresh})
  {
  }

  lemma RotatedRowsEvolve(s: Server, s': Server, t: Token, consumedAt: Option<Time>, access: Token, accessRow: TokenRow,
          refresh: Token, refreshRow: TokenRow)
    requires t in s.tokens && consumedAt.Some? && s'.resource == s.resource && s'.grants == s.grants
    requires s'.tokens ==
      s.tokens[t := s.tokens[t].(consumedAt := consumedAt)][access := accessRow][refresh := refreshRow]
    ensures Evolves(s, s', {access, refresh})
  {
  }

  lemma ExchangeCodeEvolves(s: Server, clientId: ClientId, c: CodeId, names: P.Fresh, now: Time, later: P.Readings)
    requires names.access != names.refresh
    ensures Evolves(s, P.ExchangeCode(s, clientId, c, names, now, later).0, {names.grant, names.access, names.refresh})
  {
    hide Evolves;
    var s1 := P.ConsumeCode(s, c, clientId, now).0;
    var (s', answer) := P.ExchangeCode(s, clientId, c, names, now, later);
    if answer.Ok? {
      var grant := P.NewGrant(s1, s.codes[c], now);
      AddedRowsEvolve(s, s', names.grant, grant, names.access, s'.tokens[names.access], names.refresh,
        s'.tokens[names.refresh]);
    } else {
      SameRowsEvolve(s, s', {names.grant, names.access, names.refresh});
    }
  }

  lemma ExchangeRefreshEvolves(s: Server, clientId: ClientId, t: Token, scopes: set<Scope>, access: Token,
          refresh: Token, now: Time, later: P.Readings)
    requires access != refresh
    ensures Evolves(s, P.ExchangeRefresh(s, clientId, t, scopes, access, refresh, now, later).0, {access, refresh})
  {
    hide Evolves;
    var (s', answer) := P.ExchangeRefresh(s, clientId, t, scopes, access, refresh, now, later);
    if answer.Ok? {
      RotatedRowsEvolve(s, s', t, Some(now), access, s'.tokens[access], refresh, s'.tokens[refresh]);
    } else if s' == s {
      SameRowsEvolve(s, s', {access, refresh});
    } else {
      RevokeEvolves(s, s.tokens[t].grantId, now);
      EvolvesWidens(s, s', {}, {access, refresh});
    }
  }

  /** Creating a name only weakens the claim. */
  lemma EvolvesWidens(s: Server, s': Server, born: set<nat>, more: set<nat>)
    requires Evolves(s, s', born) && born <= more
    ensures Evolves(s, s', more)
  {
  }

  /** Operations that do not touch grant or token rows. */
  predicate Rowless(op: Op) {
    op.Wait? || op.Register? || op.ShowRequest? || op.ShowLogin? || op.SaveLogin? || op.DropLogin? || op.Decide? ||
      op.Restart?
  }

  lemma RowlessKeepsRows(s: Server, op: Op, now: Time)
    requires Rowless(op)
    ensures var s' := Perform(s, op, now).0; s'.resource == s.resource && s'.grants == s.grants && s'.tokens == s.tokens
  {
  }

  predicate DistinctNames(op: Op) {
    (op.ExchangeCode? ==> op.names.access != op.names.refresh) && (op.ExchangeRefresh? ==> op.access != op.refresh)
  }

  /** Every operation but the two refresh steps lets existing rows evolve. */
  lemma PerformEvolves(s: Server, op: Op, now: Time)
    requires !op.BeginRefresh? && !op.SaveSession? && DistinctNames(op)
    ensures Evolves(s, Perform(s, op, now).0, NewNames(op))
  {
    var s' := Perform(s, op, now).0;
    hide Evolves;
    CleanupEvolves(s, now);
    if Rowless(op) {
      RowlessKeepsRows(s, op, now);
      SameRowsEvolve(s, s', NewNames(op));
    } else {
      match op
      case Authorize(clientId, req, r) =>
        var s1 := if clientId in s.clients then P.Cleanup(s, now) else s;
        SameRowsEvolve(s, s, {});
        SameRowsEvolve(s1, s', {r});
        EvolvesTransitive(s, s1, s', {r});
      case ShowCode(c, clientId) =>
        SameRowsEvolve(P.Cleanup(s, now), s', {});
        EvolvesTransitive(s, P.Cleanup(s, now), s', {});
      case ExchangeCode(clientId, c, names, later) => ExchangeCodeEvolves(s, clientId, c, names, now, later);
      case LoadRefresh(clientId, t) => LoadRefreshEvolves(s, clientId, t, now);
      case ExchangeRefresh(clientId, t, scopes, access, refresh, later) =>
        ExchangeRefreshEvolves(s, clientId, t, scopes, access, refresh, now, later);
      case RevokeToken(clientId, t) => RevokeTokenEvolves(s, clientId, t, now);
      case RevokeGrant(g) => RevokeEvolves(s, g, now);
      case LoadSession(g) =>
        RevokeEvolves(s, g, now);
        SameRowsEvolve(s, s, {});
      case _ =>
    }
  }

  lemma EvolvesAges(s: Server, s': Server, born: set<nat>)
    requires Evolves(s, s', born)
    ensures GrantsAge(s, s', born) && TokensAge(s, s', born)
  {
  }

  lemma BeginRefreshAges(s: Server, g: GrantId, now: Time)
    ensures GrantsAge(s, P.BeginRefresh(s, g, now).0, {}) && TokensAge(s, P.BeginRefresh(s, g, now).0, {})
  {
  }

  lemma SaveSessionAges(s: Server, g: GrantId, session: RelaySession, now: Time)
    ensures GrantsAge(s, P.SaveSession(s, g, session, now).0, {}) &&
      TokensAge(s, P.SaveSession(s, g, session, now).0, {})
  {
  }

  /** Existing rows age under every operation. */
  lemma PerformAges(s: Server, op: Op, now: Time)
    requires DistinctNames(op)
    ensures GrantsAge(s, Perform(s, op, now).0, NewNames(op)) && TokensAge(s, Perform(s, op, now).0, NewNames(op))
  {
    hide Evolves, GrantsAge, TokensAge;
    match op
    case BeginRefresh(g) => BeginRefreshAges(s, g, now);
    case SaveSession(g, session) => SaveSessionAges(s, g, session, now);
    case _ =>
      PerformEvolves(s, op, now);
      EvolvesAges(s, Perform(s, op, now).0, NewNames(op));
  }

  // --- The history only grows ---

  ghost predicate Grows(h: History, h': History) {
    && Extends(h, h') && Prefix(h.exchanged, h'.exchanged) && h.used <= h'.used
    && forall g :: g in h.stored ==> g in h'.stored && Prefix(h.stored[g], h'.stored[g])
  }

  lemma GrowsTransitive(h: History, h1: History, h2: History)
    requires Grows(h, h1) && Grows(h1, h2)
    ensures Grows(h, h2)
  {
  }

  lemma GrowsReflexive(h: History, names: set<nat>)
    ensures Grows(h, h.(used := h.used + names))
  {
  }

  lemma RecordRequestGrows(h: History, s: Server, clientId: ClientId, req: AuthorizationRequest, r: RequestId,
          now: Time)
    requires r !in h.requests
    ensures Grows(h, RecordRequest(h, s, clientId, req, r, now))
  {
  }

  lemma RecordLoginGrows(h: History, session: RelaySession, l: LoginId)
    requires l !in h.logins && session.refresh.id !in h.lineage
    ensures Grows(h, RecordLogin(h, session, l))
  {
  }

  lemma RecordSaveGrows(h: History, g: GrantId, session: RelaySession, ok: bool)
    requires session.refresh.id !in h.lineage
    ensures Grows(h, RecordSave(h, g, session, ok))
  {
  }

  lemma RecordDecisionGrows(h: History, s: Server, r: RequestId, l: LoginId, code: Option<CodeId>, now: Time)
    requires code.Some? ==> code.value !in h.codes
    ensures Grows(h, RecordDecision(h, s, r, l, code, now))
  {
  }

  lemma RecordGrantGrows(h: History, s: Server, c: CodeId, names: P.Fresh, now: Time, later: Time)
    requires names.grant !in h.grants && names.grant !in h.issued && names.grant !in h.stored &&
      names.access !in h.tokens && names.refresh !in h.tokens
    ensures Grows(h, RecordGrant(h, s, c, names, now, later))
  {
  }

  lemma RecordRotationGrows(h: History, s: Server, t: Token, scopes: set<Scope>, access: Token, refresh: Token,
          later: Time)
    requires access !in h.tokens && refresh !in h.tokens
    ensures Grows(h, RecordRotation(h, s, t, scopes, access, refresh, later))
  {
  }

  ghost predicate Unrecorded(h: History, names: set<nat>) {
    names !! h.requests.Keys && names !! h.logins.Keys && names !! h.codes.Keys && names !! h.grants.Keys &&
      names !! h.tokens.Keys &&
    names !! h.issued.Keys && names !! h.stored.Keys
  }

  lemma NewNamesUnrecorded(m: State, op: Op)
    requires Names(m.h) && Enabled(m, op)
    ensures Unrecorded(m.h, NewNames(op))
  {
  }

  lemma DecidedCode(s: Server, op: Op, now: Time)
    requires op.Decide?
    ensures var answer := Perform(s, op, now).1;
      answer.DecidedAs? && (answer.decided.Approved? ==> answer.decided.code == op.c)
  {
    hide P.GetRequest, P.GetLogin, P.ConsumeRequest, P.CreateCode, P.DropLogin;
  }

  lemma RecordGrows(m: State, op: Op)
    requires Names(m.h) && Enabled(m, op)
    ensures Grows(m.h, Record(m, op, Perform(m.s, op, m.now).1))
  {
    hide Perform, Names, Unrecorded, Grows, Record;
    NewNamesUnrecorded(m, op);
    if op.Decide? { DecidedCode(m.s, op, m.now); }
    RecordOfAnyGrows(m, op, Perform(m.s, op, m.now).1);
  }

  lemma RecordOfAnyGrows(m: State, op: Op, answer: Answer)
    requires Enabled(m, op) && Unrecorded(m.h, NewNames(op))
    requires op.Decide? && answer.DecidedAs? && answer.decided.Approved? ==> answer.decided.code == op.c
    ensures Grows(m.h, Record(m, op, answer))
  {
    var h := m.h.(used := m.h.used + NewNames(op));
    var h' := Record(m, op, answer);
    hide Grows, RecordRequest, RecordLogin, RecordSave, RecordDecision, RecordGrant, RecordRotation;
    GrowsReflexive(m.h, NewNames(op));
    match op
    case Authorize(clientId, req, r) =>
      RecordRequestGrows(h, m.s, clientId, req, r, m.now);
      GrowsTransitive(m.h, h, RecordRequest(h, m.s, clientId, req, r, m.now));
    case SaveLogin(_, session, l) =>
      RecordLoginGrows(h, session, l);
      GrowsTransitive(m.h, h, h');
    case SaveSession(g, session) =>
      RecordSaveGrows(h, g, session, true);
      RecordSaveGrows(h, g, session, false);
      GrowsTransitive(m.h, h, RecordSave(h, g, session, true));
      GrowsTransitive(m.h, h, RecordSave(h, g, session, false));
    case Decide(r, login, verdict, c) =>
      if login.Some? {
        RecordDecisionGrows(h, m.s, r, login.value, None, m.now);
        RecordDecisionGrows(h, m.s, r, login.value, Some(c), m.now);
        GrowsTransitive(m.h, h, RecordDecision(h, m.s, r, login.value, None, m.now));
        GrowsTransitive(m.h, h, RecordDecision(h, m.s, r, login.value, Some(c), m.now));
      }
    case ExchangeCode(_, c, names, later) =>
      RecordGrantGrows(h, m.s, c, names, m.now, later.issued);
      GrowsTransitive(m.h, h, RecordGrant(h, m.s, c, names, m.now, later.issued));
    case ExchangeRefresh(_, t, scopes, access, refresh, later) =>
      RecordRotationGrows(h, m.s, t, scopes, access, refresh, later.issued);
      GrowsTransitive(m.h, h, RecordRotation(h, m.s, t, scopes, access, refresh, later.issued));
    case _ =>
  }

  lemma StepGrows(m: State, op: Op)
    requires Inv(m)
    ensures Grows(m.h, Step(m, op).h) && m.now <= Step(m, op).now
  {
    assert Names(m.h);
    hide Inv, Names;
    if Enabled(m, op) {
      RecordGrows(m, op);
    } else {
      GrowsReflexive(m.h, {});
      assert m.h.(used := m.h.used + {}) == m.h;
    }
  }

  lemma {:induction false} RunGrows(m: State, ops: seq<Op>)
    requires Inv(m)
    ensures Grows(m.h, Run(m, ops).h) && m.now <= Run(m, ops).now
    decreases |ops|
  {
    hide Inv;
    if ops == [] {
      hide *;
      assert Run(m, []) == m by { RunEmpty(m); }
      GrowsReflexive(m.h, {});
      assert m.h.(used := m.h.used + {}) == m.h;
    } else {
      StepGrows(m, ops[0]);
      StepKeeps(m, ops[0]);
      RunGrows(Step(m, ops[0]), ops[1..]);
      GrowsTransitive(m.h, Step(m, ops[0]).h, Run(m, ops).h);
    }
  }

  lemma RunEmpty(m: State)
    ensures Run(m, []) == m
  {
  }
}
