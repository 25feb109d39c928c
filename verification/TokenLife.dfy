/** How long tokens and grants live: an access token loads exactly while its grant is alive and 300
    seconds have not passed, and a grant stays alive until one of a few operations ends it. */
module TokenLife {
  import opened Basics
  import opened OAuthTypes
  import opened Machine
  import opened Invariant
  import opened Preservation
  import opened Evolution
  import opened GrantTheorems
  import opened TokenTheorems
  import C = CleanupInvisible
  import P = ProviderModel

  // --- Rows of access tokens stay while they can be used ---

  ghost predicate Keeps(s: Server, tokens: map<Token, TokenRow>, now: Time) {
    forall t {:trigger s.tokens[t]} ::
      t in s.tokens && s.tokens[t].kind == Access && s.tokens[t].expiresAt > now &&
      s.tokens[t].grantId in s.grants && s.grants[s.tokens[t].grantId].expiresAt > now ==>
        t in tokens && tokens[t] == s.tokens[t]
  }

  lemma SweepKeeps(s: Server, now: Time)
    ensures Keeps(s, P.Cleanup(s, now).tokens, now)
    ensures Keeps(s, P.Cleanup(P.Cleanup(s, now), now).tokens, now)
  {
  }

  lemma RevokedRows(s: Server, clientId: ClientId, t: Token, now: Time)
    ensures
      var tokens := P.RevokeToken(s, clientId, t, now).tokens;
      tokens == P.Cleanup(s, now).tokens || tokens == P.Cleanup(P.Cleanup(s, now), now).tokens
  {
    hide P.Cleanup, P.FindToken;
  }

  lemma ExchangedCodeRows(s: Server, clientId: ClientId, c: CodeId, names: P.Fresh, now: Time, later: P.Readings)
    requires names.access !in s.tokens && names.refresh !in s.tokens
    ensures Keeps(s, P.ExchangeCode(s, clientId, c, names, now, later).0.tokens, now)
  {
  }

  lemma ExchangedRefreshRows(s: Server, clientId: ClientId, t: Token, scopes: set<Scope>, access: Token, refresh: Token,
          now: Time, later: P.Readings)
    requires access !in s.tokens && refresh !in s.tokens
    ensures Keeps(s, P.ExchangeRefresh(s, clientId, t, scopes, access, refresh, now, later).0.tokens, now)
  {
    var (s', answer) := P.ExchangeRefresh(s, clientId, t, scopes, access, refresh, now, later);
    SameKeeps(s, now);
    if answer.Ok? {
      ExchangedFacts(s, clientId, t, scopes, access, refresh, now, later);
      ExchangeOwner(s, clientId, t, scopes, access, refresh, now, later);
      hide P.ExchangeRefresh;
      RotatedKeeps(s, s'.tokens, t, Some(now), access, refresh, now);
    } else {
      hide Keeps, P.FindToken, P.Active;
    }
  }

  lemma RotatedKeeps(s: Server, tokens: map<Token, TokenRow>, t: Token, consumedAt: Option<Time>, access: Token,
          refresh: Token, now: Time)
    requires t in s.tokens && s.tokens[t].kind == Refresh && access !in s.tokens && refresh !in s.tokens
    requires access in tokens && refresh in tokens
    requires tokens ==
      s.tokens[t := s.tokens[t].(consumedAt := consumedAt)][access := tokens[access]][refresh := tokens[refresh]]
    ensures Keeps(s, tokens, now)
  {
  }

  lemma PerformKeepsRows(s: Server, op: Op, now: Time)
    requires op.ExchangeCode? ==> op.names.access !in s.tokens && op.names.refresh !in s.tokens
    requires op.ExchangeRefresh? ==> op.access !in s.tokens && op.refresh !in s.tokens
    ensures Keeps(s, Perform(s, op, now).0.tokens, now)
  {
    hide Keeps, P.Cleanup, P.ExchangeCode, P.ExchangeRefresh, P.RevokeToken;
    SweepKeeps(s, now);
    match op
    case ExchangeCode(clientId, c, names, later) => ExchangedCodeRows(s, clientId, c, names, now, later);
    case ExchangeRefresh(clientId, t, scopes, access, refresh, later) =>
      ExchangedRefreshRows(s, clientId, t, scopes, access, refresh, now, later);
    case RevokeToken(clientId, t) => RevokedRows(s, clientId, t, now);
    case _ => OtherRows(s, op, now);
  }

  lemma OtherRows(s: Server, op: Op, now: Time)
    requires !op.ExchangeCode? && !op.ExchangeRefresh? && !op.RevokeToken?
    ensures Keeps(s, Perform(s, op, now).0.tokens, now)
  {
    SweepKeeps(s, now);
    SameKeeps(s, now);
    hide *;
    C.PerformTokens(s, op, now);
  }

  lemma SameKeeps(s: Server, now: Time)
    ensures Keeps(s, s.tokens, now)
  {
  }

  /** The row of an access token that could still be used. */
  ghost predicate AccessRow(m: State, t: Token, rec: TokenRec) {
    rec.kind == Access && rec.grant in m.s.grants && m.now < rec.at + 300 && m.now < m.s.grants[rec.grant].expiresAt ==>
      t in m.s.tokens && m.s.tokens[t].kind == Access && m.s.tokens[t].grantId == rec.grant &&
      m.s.tokens[t].consumedAt.None? &&
      m.s.tokens[t].expiresAt >= Min(rec.at + 300, m.s.grants[rec.grant].expiresAt)
  }

  ghost predicate AccessRows(m: State) {
    forall t {:trigger m.h.tokens[t]} :: t in m.h.tokens ==> AccessRow(m, t, m.h.tokens[t])
  }

  /** A row that was there is still there after a step. */
  lemma OldRowStays(m: State, op: Op, t: Token)
    requires Inv(m) && Enabled(m, op) && t in m.h.tokens && AccessRow(m, t, m.h.tokens[t])
    ensures AccessRow(Do(m, op), t, m.h.tokens[t])
  {
    hide Reachable, Perform, Record;
    var m', rec := Do(m, op), m.h.tokens[t];
    UnusedRows(m, op);
    GrantOfToken(m, t);
    NewNamesAreNew(m, op, rec.grant);
    StepGrows(m, op);
    hide Inv;
    DoneIsPerformed(m, op);
    PerformAges(m.s, op, m.now);
    PerformKeepsRows(m.s, op, m.now);
    hide Enabled, NewNames;
    AgedRow(m.s, m'.s, NewNames(op), t, rec, m.now, m'.now);
  }

  lemma AgedRow(s: Server, s': Server, born: set<nat>, t: Token, rec: TokenRec, now: Time, later: Time)
    requires GrantsAge(s, s', born) && rec.grant !in born && now <= later && Keeps(s, s'.tokens, now)
    requires AccessRow(State(s, Init(0, 1, 0).h, now), t, rec)
    ensures AccessRow(State(s', Init(0, 1, 0).h, later), t, rec)
  {
    if rec.grant in s'.grants { assert Ages(s.grants[rec.grant], s'.grants[rec.grant]); }
  }

  lemma UnusedRows(m: State, op: Op)
    requires Inv(m) && Enabled(m, op)
    ensures op.ExchangeCode? ==> op.names.access !in m.s.tokens && op.names.refresh !in m.s.tokens
    ensures op.ExchangeRefresh? ==> op.access !in m.s.tokens && op.refresh !in m.s.tokens
  {
    forall t | t in m.s.tokens ensures t in m.h.used { assert RowOk(m.h, m.s.grants, t, m.s.tokens[t]); }
  }

  lemma GrantOfToken(m: State, t: Token)
    requires Inv(m) && t in m.h.tokens
    ensures m.h.tokens[t].grant in m.h.used
  {
    assert TokenRecOk(m.h, m.now, m.h.tokens[t]);
  }

  // --- New records ---

  lemma NoNewTokens(m: State, op: Op)
    requires Enabled(m, op) && !Exchanges(m, op) && !CreatesGrant(m, op)
    ensures Do(m, op).h.tokens == m.h.tokens
  {
    IssuedMeans(m.s, op, m.now);
    assert op.ExchangeCode? ==> P.ExchangeCode(m.s, op.clientId, op.c, op.names, m.now, op.later).1.Err?;
    hide P.ExchangeCode, P.ExchangeRefresh, Perform, Enabled;
    RecordedTokens(m, op, Perform(m.s, op, m.now).1);
  }

  lemma RecordedTokens(m: State, op: Op, answer: Answer)
    requires answer.Issued? ==> answer.tokens.Err?
    ensures Record(m, op, answer).tokens == m.h.tokens
  {
    hide NewNames, RecordGrant, RecordRotation, RecordRequest, RecordSave, RecordLogin, RecordDecision;
    var h := m.h.(used := m.h.used + NewNames(op));
    match op
    case Authorize(clientId, req, r) => RequestLeavesTokens(h, m.s, clientId, req, r, m.now);
    case SaveLogin(_, session, l) => LoginLeavesTokens(h, session, l);
    case Decide(r, login, _, c) =>
      if login.Some? {
        DecisionLeavesTokens(h, m.s, r, login.value, None, m.now);
        if answer.DecidedAs? && answer.decided.Approved? {
          DecisionLeavesTokens(h, m.s, r, login.value, Some(answer.decided.code), m.now);
        }
      }
    case SaveSession(g, session) =>
      SaveLeavesTokens(h, g, session, true);
      SaveLeavesTokens(h, g, session, false);
    case _ =>
  }

  lemma LoginLeavesTokens(h: History, session: RelaySession, l: LoginId)
    ensures RecordLogin(h, session, l).tokens == h.tokens
  {
  }

  lemma DecisionLeavesTokens(h: History, s: Server, r: RequestId, l: LoginId, code: Option<CodeId>, now: Time)
    ensures RecordDecision(h, s, r, l, code, now).tokens == h.tokens
  {
    hide RecordedCodes;
  }

  lemma RequestLeavesTokens(h: History, s: Server, clientId: ClientId, req: AuthorizationRequest, r: RequestId,
          now: Time)
    ensures RecordRequest(h, s, clientId, req, r, now).tokens == h.tokens
  {
  }

  lemma SaveLeavesTokens(h: History, g: GrantId, session: RelaySession, ok: bool)
    ensures RecordSave(h, g, session, ok).tokens == h.tokens
  {
  }

  lemma IssuedMeans(s: Server, op: Op, now: Time)
    ensures
      var answer := Perform(s, op, now).1;
      answer.Issued? && answer.tokens.Ok? ==>
        (op.ExchangeCode? && P.ExchangeCode(s, op.clientId, op.c, op.names, now, op.later).1.Ok?) ||
        (op.ExchangeRefresh? &&
         P.ExchangeRefresh(s, op.clientId, op.t, op.scopes, op.access, op.refresh, now, op.later).1.Ok?)
  {
    hide P.ExchangeCode, P.ExchangeRefresh, P.Decide, P.Register, P.Authorize, P.LoadRefresh, P.LoadSession;
  }

  /** The record and the row of a new access token, dated alike. */
  lemma RefreshedRow(m: State, op: Op, t: Token)
    requires Inv(m) && Exchanges(m, op) && t in Do(m, op).h.tokens && t !in m.h.tokens
    ensures AccessRow(Do(m, op), t, Do(m, op).h.tokens[t])
  {
    hide Inv, Do, P.Issue, P.ExchangeRefresh;
    ExchangedFacts(m.s, op.clientId, op.t, op.scopes, op.access, op.refresh, m.now, op.later);
    NewestUnconsumed(m, op.t);
    ExchangeOwner(m.s, op.clientId, op.t, op.scopes, op.access, op.refresh, m.now, op.later);
    RotationShape(m, op);
    RefreshedRows(m.s, op.clientId, op.t, op.scopes, op.access, op.refresh, m.now, op.later);
  }

  lemma RotationShape(m: State, op: Op)
    requires Exchanges(m, op)
    ensures
      var h := m.h.(used := m.h.used + {op.access, op.refresh});
      Do(m, op) == State(
        P.ExchangeRefresh(m.s, op.clientId, op.t, op.scopes, op.access, op.refresh, m.now, op.later).0,
        RecordRotation(h, m.s, op.t, op.scopes, op.access, op.refresh, op.later.issued), op.later.issued)
  {
    hide P.ExchangeRefresh, RecordRotation, RecordDecision, RecordRequest, RecordLogin, RecordGrant, RecordSave;
  }

  lemma RefreshedRows(s: Server, clientId: ClientId, t: Token, scopes: set<Scope>, access: Token, refresh: Token,
          now: Time, later: P.Readings)
    requires P.ExchangeRefresh(s, clientId, t, scopes, access, refresh, now, later).1.Ok? && access != refresh
    ensures
      var (s', g) := (P.ExchangeRefresh(s, clientId, t, scopes, access, refresh, now, later).0, s.tokens[t].grantId);
      g in s.grants && s'.grants == s.grants && access in s'.tokens && s'.tokens[access] ==
      TokenRow(Access, g, scopes, Min(later.issued + 300, s.grants[g].expiresAt), None)
  {
  }

  lemma CreatedRow(m: State, op: Op, t: Token)
    requires Inv(m) && CreatesGrant(m, op) && t in Do(m, op).h.tokens && t !in m.h.tokens
    ensures AccessRow(Do(m, op), t, Do(m, op).h.tokens[t])
  {
    ExchangeCodeShape(m, op.clientId, op.c, op.names, op.later);
    hide Inv, Do, P.ExchangeCode;
    hide RecordSave, RecordDecision, RecordRotation, RecordLogin, RecordRequest;
  }

  lemma NewRowIsThere(m: State, op: Op, t: Token)
    requires Inv(m) && Enabled(m, op) && t in Do(m, op).h.tokens && t !in m.h.tokens
    ensures AccessRow(Do(m, op), t, Do(m, op).h.tokens[t])
  {
    hide Inv, AccessRow, Do, Enabled;
    if Exchanges(m, op) {
      RefreshedRow(m, op, t);
    } else if CreatesGrant(m, op) {
      CreatedRow(m, op, t);
    } else {
      hide Exchanges, CreatesGrant;
      NoNewTokens(m, op);
    }
  }

  lemma StepKeepsAccessRows(m: State, op: Op)
    requires Inv(m) && AccessRows(m)
    ensures AccessRows(Step(m, op))
  {
    hide Inv, AccessRow, Do;
    if Enabled(m, op) {
      StepGrows(m, op);
      forall t | t in Do(m, op).h.tokens ensures AccessRow(Do(m, op), t, Do(m, op).h.tokens[t]) {
        if t in m.h.tokens {
          assert Do(m, op).h.tokens[t] == m.h.tokens[t];
          OldRowStays(m, op, t);
        } else {
          NewRowIsThere(m, op, t);
        }
      }
    }
  }

  lemma {:induction false} RunKeepsAccessRows(m: State, ops: seq<Op>)
    requires Inv(m) && AccessRows(m)
    ensures AccessRows(Run(m, ops))
    decreases |ops|
  {
    hide Inv, AccessRows;
    if ops != [] {
      StepKeeps(m, ops[0]);
      StepKeepsAccessRows(m, ops[0]);
      RunKeepsAccessRows(Step(m, ops[0]), ops[1..]);
    }
  }

  lemma ReachableAccessRows(m: State)
    requires Reachable(m)
    ensures AccessRows(m)
  {
    var resource, grantTtl, now, ops :| grantTtl > 0 && m == Run(Init(resource, grantTtl, now), ops);
    InitInv(resource, grantTtl, now);
    assert AccessRows(Init(resource, grantTtl, now));
    hide Inv, AccessRows;
    RunKeepsAccessRows(Init(resource, grantTtl, now), ops);
  }

  // --- When tokens load ---

  /** A name loads as an access token exactly when it was issued as one less than 300 seconds ago
      for a grant that is alive; it then shows that grant's client and user and its own scopes. */
  lemma AccessTokenLoadsIff(m: State, t: Token)
    requires Reachable(m)
    ensures
      var answer := Perform(m.s, LoadAccess(t), m.now).1;
      answer.TokenShown? &&
      if t in m.h.tokens && m.h.tokens[t].kind == Access && m.now < m.h.tokens[t].at + 300 &&
        Alive(m, m.h.tokens[t].grant)
      then
        answer.info.Some? &&
        var g := m.h.tokens[t].grant;
        answer.info.value == TokenInfo(m.s.grants[g].clientId, m.s.grants[g].subject, m.h.tokens[t].scopes,
                                       answer.info.value.expiresAt, g, false) &&
        m.now < answer.info.value.expiresAt <= m.h.tokens[t].at + 300
      else answer.info.None?
  {
    ReachableInv(m);
    ReachableAccessRows(m);
    FindAfterCleanup(m.s, t, Access, m.now);
    LoadAccessAnswer(m.s, t, m.now);
    hide Reachable, AccessRows, Perform, P.Cleanup;
    if P.FindToken(m.s, t, Access, m.now).Some? {
      FoundIsRecorded(m, t, Access);
      AliveIsActive(m, m.s.tokens[t].grantId);
    }
    if t in m.h.tokens {
      AliveIsActive(m, m.h.tokens[t].grant);
      AccessRowOf(m, t);
    }
    hide Inv;
  }

  lemma AccessRowOf(m: State, t: Token)
    requires AccessRows(m) && t in m.h.tokens
    ensures AccessRow(m, t, m.h.tokens[t])
  {
  }

  lemma FindAfterCleanup(s: Server, t: Token, kind: TokenKind, now: Time)
    ensures P.FindToken(P.Cleanup(s, now), t, kind, now) == P.FindToken(s, t, kind, now)
  {
  }

  lemma LoadAccessAnswer(s: Server, t: Token, now: Time)
    ensures Perform(s, LoadAccess(t), now).1 == TokenShown(P.FindToken(P.Cleanup(s, now), t, Access, now))
  {
  }

  lemma FoundIsRecorded(m: State, t: Token, kind: TokenKind)
    requires Inv(m) && P.FindToken(m.s, t, kind, m.now).Some?
    ensures t in m.h.tokens && m.h.tokens[t].kind == kind && m.h.tokens[t].grant == m.s.tokens[t].grantId
    ensures m.h.tokens[t].scopes == m.s.tokens[t].scopes
    ensures kind == Access ==> m.s.tokens[t].expiresAt <= m.h.tokens[t].at + ACCESS_TTL
    ensures kind == Refresh ==> m.s.tokens[t].grantId in m.h.issued && t in m.h.issued[m.s.tokens[t].grantId]
  {
    assert RowOk(m.h, m.s.grants, t, m.s.tokens[t]);
  }
}
