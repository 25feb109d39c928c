/** The provider's promises, over every reachable state and every continuation of it. */
module GrantTheorems {
  import opened Basics
  import opened OAuthTypes
  import opened Machine
  import opened Invariant
  import opened Preservation
  import opened Evolution
  import P = ProviderModel

  ghost predicate Reachable(m: State) {
    exists resource, grantTtl, now, ops {:trigger Run(Init(resource, grantTtl, now), ops)} ::
      grantTtl > 0 && m == Run(Init(resource, grantTtl, now), ops)
  }

  lemma ReachableInv(m: State)
    requires Reachable(m)
    ensures Inv(m)
  {
    var resource, grantTtl, now, ops :| grantTtl > 0 && m == Run(Init(resource, grantTtl, now), ops);
    InitInv(resource, grantTtl, now);
    hide Inv;
    RunKeeps(Init(resource, grantTtl, now), ops);
  }

  // --- Refresh tokens: one live, the rest traps ---

  predicate Unconsumed(s: Server, g: GrantId, t: Token) {
    t in s.tokens && s.tokens[t].kind == Refresh && s.tokens[t].grantId == g && s.tokens[t].consumedAt.None?
  }

  /** Every stored grant has exactly one unconsumed refresh token. */
  lemma ExactlyOneUnconsumed(m: State, g: GrantId) returns (t: Token)
    requires Reachable(m) && g in m.s.grants
    ensures Unconsumed(m.s, g, t)
    ensures forall other :: Unconsumed(m.s, g, other) ==> other == t
  {
    ReachableInv(m);
    var rows := m.s.tokens;
    assert RotationOk(m.s.grants, rows, m.h, g);
    t := m.h.issued[g][|m.h.issued[g]| - 1];
    assert IssuedOk(m.s.grants, rows, g, t, true);
    forall other | Unconsumed(m.s, g, other) ensures other == t {
      UnconsumedIsNewest(m.s, m.h, other);
    }
  }

  /** No token row outlives its grant. */
  lemma RowsPointAtGrants(m: State, t: Token)
    requires Reachable(m) && t in m.s.tokens
    ensures m.s.tokens[t].grantId in m.s.grants
  {
    ReachableInv(m);
    assert RowOk(m.h, m.s.grants, t, m.s.tokens[t]);
  }

  lemma IssuedRow(m: State, g: GrantId, i: nat)
    requires Inv(m) && g in m.s.grants && g in m.h.issued && i < |m.h.issued[g]|
    ensures IssuedOk(m.s.grants, m.s.tokens, g, m.h.issued[g][i], i == |m.h.issued[g]| - 1)
  {
    assert RotationOk(m.s.grants, m.s.tokens, m.h, g);
    assert m.h.issued[g][i] in m.h.tokens;
  }

  lemma CleanupSparesActive(s: Server, g: GrantId, t: Token, now: Time)
    requires P.Active(s, g, now) && t in s.tokens && s.tokens[t].kind == Refresh && s.tokens[t].grantId == g
    ensures P.Active(P.Cleanup(s, now), g, now) && P.Cleanup(s, now).grants[g] == s.grants[g]
    ensures t in P.Cleanup(s, now).tokens && P.Cleanup(s, now).tokens[t] == s.tokens[t]
  {
  }

  /** While a grant is live its client may load a refresh token issued for it exactly when it
      is the newest; presenting any other revokes the grant, by either route. */
  lemma ReuseDetected(m: State, g: GrantId, i: nat, scopes: set<Scope>, access: Token, refresh: Token,
          later: P.Readings)
    requires Reachable(m) && P.Active(m.s, g, m.now) && g in m.h.issued && i < |m.h.issued[g]|
    ensures
      var t, client := m.h.issued[g][i], m.s.grants[g].clientId;
      var (s', loaded) := P.LoadRefresh(m.s, client, t, m.now);
      (loaded.Some? <==> i == |m.h.issued[g]| - 1) &&
      (loaded.None? ==> g in s'.grants && s'.grants[g] == m.s.grants[g].(revokedAt := Some(m.now)))
    ensures
      var t, client := m.h.issued[g][i], m.s.grants[g].clientId;
      i < |m.h.issued[g]| - 1 ==>
        P.ExchangeRefresh(m.s, client, t, scopes, access, refresh, m.now, later)
        == (m.s.(grants := m.s.grants[g := m.s.grants[g].(revokedAt := Some(m.now))]), Err(InvalidGrant))
  {
    ReachableInv(m);
    var t := m.h.issued[g][i];
    IssuedRow(m, g, i);
    hide Inv;
    CleanupSparesActive(m.s, g, t, m.now);
  }

  predicate Exchanges(m: State, op: Op) {
    op.ExchangeRefresh? && Enabled(m, op) &&
      P.ExchangeRefresh(m.s, op.clientId, op.t, op.scopes, op.access, op.refresh, m.now, op.later).1.Ok?
  }

  /** A successful exchange puts its token behind a newer one of the same grant. */
  lemma ExchangeRecorded(m: State, op: Op) returns (g: GrantId, i: nat)
    requires Inv(m) && Exchanges(m, op)
    ensures g in m.s.grants && op.t in m.s.tokens && m.s.tokens[op.t].grantId == g
    ensures var h := Do(m, op).h;
      g in h.issued && i < |h.issued[g]| - 1 && h.issued[g][i] == op.t && op.t in h.exchanged
  {
    hide Inv, Do, P.ExchangeRefresh;
    ExchangedFacts(m.s, op.clientId, op.t, op.scopes, op.access, op.refresh, m.now, op.later);
    NewestUnconsumed(m, op.t);
    g := m.s.tokens[op.t].grantId;
    i := |m.h.issued[g]| - 1;
    RotationRecordedFor(m, op);
    var h := Do(m, op).h;
    assert h.exchanged[|m.h.exchanged|] == op.t;
  }

  lemma ExchangedFacts(s: Server, clientId: ClientId, t: Token, scopes: set<Scope>, access: Token, refresh: Token,
          now: Time, later: P.Readings)
    requires P.ExchangeRefresh(s, clientId, t, scopes, access, refresh, now, later).1.Ok?
    ensures t in s.tokens && s.tokens[t].kind == Refresh && s.tokens[t].consumedAt.None? &&
      s.tokens[t].grantId in s.grants
  {
  }

  lemma NewestUnconsumed(m: State, t: Token)
    requires Inv(m) && t in m.s.tokens && m.s.tokens[t].kind == Refresh && m.s.tokens[t].consumedAt.None?
    ensures
      var g := m.s.tokens[t].grantId;
      g in m.h.issued && m.h.issued[g] != [] && m.h.issued[g][|m.h.issued[g]| - 1] == t
  {
    UnconsumedIsNewest(m.s, m.h, t);
  }

  lemma RotationRecordedFor(m: State, op: Op)
    requires Exchanges(m, op) && op.t in m.s.tokens && m.s.tokens[op.t].grantId in m.h.issued
    ensures
      var g, h := m.s.tokens[op.t].grantId, Do(m, op).h;
      g in h.issued && h.issued[g] == m.h.issued[g] + [op.refresh] && h.exchanged == m.h.exchanged + [op.t]
  {
    hide P.ExchangeRefresh, NewNames, Enabled;
    hide RecordDecision, RecordRequest, RecordLogin, RecordGrant, RecordSave;
  }

  /** It stays recorded as exchanged, and behind a newer one, ever after. */
  lemma ExchangeStaysRecorded(m: State, first: Op, between: seq<Op>) returns (i: nat, k: nat)
    requires Inv(m) && Exchanges(m, first)
    ensures
      var m2 := Run(Do(m, first), between);
      var g := m.s.tokens[first.t].grantId;
      Inv(m2) && g in m2.h.issued && i < |m2.h.issued[g]| - 1 && m2.h.issued[g][i] == first.t &&
      k < |m2.h.exchanged| && m2.h.exchanged[k] == first.t
  {
    hide Inv;
    var g;
    g, i := ExchangeRecorded(m, first);
    var m1 := Do(m, first);
    k :| 0 <= k < |m1.h.exchanged| && m1.h.exchanged[k] == first.t;
    DoKeeps(m, first);
    hide Do, Exchanges;
    RunGrows(m1, between);
    RunKeeps(m1, between);
  }

  /** No refresh token is successfully exchanged twice, whatever happens in between. */
  lemma ExchangedAtMostOnce(m: State, first: Op, between: seq<Op>, second: Op)
    requires Reachable(m) && Exchanges(m, first) && second.ExchangeRefresh? && second.t == first.t
    ensures !Exchanges(Run(Do(m, first), between), second)
  {
    ReachableInv(m);
    hide Inv;
    var i, k := ExchangeStaysRecorded(m, first, between);
    hide Do;
    ExchangedIsConsumed(Run(Do(m, first), between), k);
  }

  lemma ExchangedIsConsumed(m: State, k: nat)
    requires Inv(m) && k < |m.h.exchanged|
    ensures m.h.exchanged[k] in m.s.tokens ==> m.s.tokens[m.h.exchanged[k]].consumedAt.Some?
  {
    assert m.h.exchanged[k] in m.h.tokens;
  }

  /** However much later, presenting an exchanged token while its grant is live revokes it. */
  lemma ExchangedTokenIsATrap(m: State, first: Op, between: seq<Op>)
    requires Reachable(m) && Exchanges(m, first)
    ensures
      var m2 := Run(Do(m, first), between);
      var g := m.s.tokens[first.t].grantId;
      P.Active(m2.s, g, m2.now) ==>
        var (s', loaded) := P.LoadRefresh(m2.s, m2.s.grants[g].clientId, first.t, m2.now);
        loaded.None? && g in s'.grants && s'.grants[g].revokedAt == Some(m2.now)
  {
    hide Inv, Do, Run;
    ReachableInv(m);
    var i, k := ExchangeStaysRecorded(m, first, between);
    hide Exchanges;
    var m2 := Run(Do(m, first), between);
    var g := m.s.tokens[first.t].grantId;
    if P.Active(m2.s, g, m2.now) {
      IssuedRow(m2, g, i);
      CleanupSparesActive(m2.s, g, first.t, m2.now);
    }
  }

  // --- Exchange is all or nothing ---

  /** The four ways a refresh exchange can end, and the exact rows each leaves. */
  lemma ExchangeIsAtomic(s: Server, clientId: ClientId, t: Token, scopes: set<Scope>, access: Token, refresh: Token,
          now: Time, later: P.Readings)
    requires access !in s.tokens && refresh !in s.tokens && access != refresh
    ensures
      var (s', answer) := P.ExchangeRefresh(s, clientId, t, scopes, access, refresh, now, later);
      var found := P.FindToken(s, t, Refresh, now);
      var mine := found.Some? && found.value.clientId == clientId;
      // unknown, foreign or expired: nothing changes
      && (!mine ==> s' == s && answer == Err(InvalidGrant))
      // reused: exactly the family revocation is committed
      && (mine && found.value.consumed ==>
            answer == Err(InvalidGrant) && s' ==
              s.(grants := s.grants[found.value.grantId := s.grants[found.value.grantId].(revokedAt := Some(now))]))
      // too wide a scope, or the grant ended before the tokens were issued: nothing changes
      && (mine && !found.value.consumed && !(scopes <= found.value.scopes) ==> s' == s && answer == Err(InvalidScope))
      && (mine && !found.value.consumed && scopes <= found.value.scopes &&
          !P.Active(s, found.value.grantId, later.checked) ==>
            s' == s && answer == Err(InvalidGrant))
      // success: one row consumed, two added, nothing else touched
      && (mine && !found.value.consumed && scopes <= found.value.scopes &&
          P.Active(s, found.value.grantId, later.checked) ==>
            answer.Ok? && s' == s.(tokens := s'.tokens) && s'.tokens.Keys == s.tokens.Keys + {access, refresh} &&
            s'.tokens[t] == s.tokens[t].(consumedAt := Some(now)) &&
            (forall x :: x in s.tokens && x != t ==> s'.tokens[x] == s.tokens[x]) &&
            s'.tokens[access].kind == Access && s'.tokens[refresh].kind == Refresh &&
            s'.tokens[access].grantId == s'.tokens[refresh].grantId == found.value.grantId &&
            s'.tokens[access].scopes == s'.tokens[refresh].scopes == scopes)
  {
    if t in s.tokens && P.Active(s, s.tokens[t].grantId, later.checked) {
      var s' := P.ExchangeRefresh(s, clientId, t, scopes, access, refresh, now, later).0;
      assert P.ExchangeRefresh(s, clientId, t, scopes, access, refresh, now, later).1.Ok? ==>
        s'.tokens.Keys == s.tokens.Keys + {access, refresh};
    }
  }

  /** A failed code exchange spends the code but leaves no row behind. */
  lemma FailedCodeExchangeLeavesNoRow(s: Server, clientId: ClientId, c: CodeId, names: P.Fresh, now: Time,
          later: P.Readings)
    ensures
      var (s', answer) := P.ExchangeCode(s, clientId, c, names, now, later);
      answer.Err? ==>
        s'.grants == s.grants && s'.tokens == s.tokens &&
        (c in s'.codes ==> s.codes[c].clientId != clientId)
  {
  }

  // --- Lifetimes ---

  lemma {:induction false} CappedIsLeast(limit: Time, expiries: seq<Time>)
    ensures
      var least := Capped(limit, expiries);
      least <= limit && (forall i :: 0 <= i < |expiries| ==> least <= expiries[i]) &&
        (least == limit || least in expiries)
  {
    if expiries != [] {
      CappedIsLeast(limit, expiries[..|expiries| - 1]);
    }
  }

  /** A stored grant's expiry is the least of its own limit and the expiries of every upstream
      refresh credential ever stored in it. */
  lemma GrantExpiryIsLeast(m: State, g: GrantId)
    requires Reachable(m) && g in m.s.grants
    ensures g in m.h.grants && g in m.h.stored
    ensures
      var expiry, limit := m.s.grants[g].expiresAt, m.h.grants[g].limit;
      expiry <= limit && (forall i :: 0 <= i < |m.h.stored[g]| ==> expiry <= m.h.stored[g][i]) &&
        (expiry == limit || expiry in m.h.stored[g])
  {
    ReachableInv(m);
    assert GrantOk(m.h, m.s.resource, g, m.s.grants[g]);
    CappedIsLeast(m.h.grants[g].limit, m.h.stored[g]);
  }

  /** Once a credential has been stored in a grant, the grant never again outlives it. */
  lemma SavedCredentialCapsGrant(m: State, g: GrantId, session: RelaySession, more: seq<Op>)
    requires Reachable(m) && Enabled(m, SaveSession(g, session)) && P.SaveSession(m.s, g, session, m.now).1
    ensures TokenExpiry(session.refresh, RefreshClaim).Some?
    ensures
      var m' := Run(Do(m, SaveSession(g, session)), more);
      g in m'.s.grants ==> m'.s.grants[g].expiresAt <= TokenExpiry(session.refresh, RefreshClaim).value
  {
    hide Inv, Do, Run;
    ReachableInv(m);
    SaveRecordedFor(m, g, session);
    var m1 := Do(m, SaveSession(g, session));
    DoKeeps(m, SaveSession(g, session));
    RunGrows(m1, more);
    RunKeeps(m1, more);
    var m' := Run(m1, more);
    assert m1.h.stored[g][|m.h.stored[g]|] == m'.h.stored[g][|m.h.stored[g]|];
    StoredCapsGrant(m', g, |m.h.stored[g]|);
  }

  lemma StoredCapsGrant(m: State, g: GrantId, i: nat)
    requires Inv(m) && g in m.h.stored && i < |m.h.stored[g]|
    ensures g in m.s.grants ==> m.s.grants[g].expiresAt <= m.h.stored[g][i]
  {
    if g in m.s.grants {
      assert GrantOk(m.h, m.s.resource, g, m.s.grants[g]);
      CappedIsLeast(m.h.grants[g].limit, m.h.stored[g]);
    }
  }

  /** What has been noted of a grant stays noted, in order, over every continuation. */
  lemma StoredIsKept(m: State, g: GrantId, more: seq<Op>)
    requires Reachable(m) && g in m.h.grants
    ensures
      var h := Run(m, more).h;
      g in m.h.stored && g in h.stored && Prefix(m.h.stored[g], h.stored[g]) && g in h.grants &&
        h.grants[g] == m.h.grants[g]
  {
    ReachableInv(m);
    RunGrows(m, more);
  }

  /** No token loads at or after its grant's expiry, and no access token loads 300 seconds or
      more after it was issued. */
  lemma NothingLoadsLate(m: State, t: Token, kind: TokenKind)
    requires Reachable(m) && P.FindToken(m.s, t, kind, m.now).Some?
    ensures m.s.tokens[t].grantId in m.s.grants && m.now < m.s.grants[m.s.tokens[t].grantId].expiresAt
    ensures t in m.h.tokens && m.h.tokens[t].at <= m.now && (kind == Access ==> m.now < m.h.tokens[t].at + ACCESS_TTL)
  {
    ReachableInv(m);
    assert RowOk(m.h, m.s.grants, t, m.s.tokens[t]);
    assert TokenRecOk(m.h, m.now, m.h.tokens[t]);
  }

  /** The lifetime reported with new tokens is what the access row has left, at most 300 seconds.
      It is positive exactly when the grant has not run out between the two readings of the
      clock; otherwise the access token never loads. */
  lemma ReportedLifetime(s: Server, g: GrantId, scopes: set<Scope>, access: Token, refresh: Token, at: P.Readings)
    requires access != refresh
    ensures
      match P.Issue(s, g, scopes, access, refresh, at)
      case Err(_) => !P.Active(s, g, at.checked)
      case Ok((s', reply)) =>
        P.Active(s, g, at.checked) && reply.expiresIn <= ACCESS_TTL &&
        s'.tokens[access].expiresAt == at.issued + reply.expiresIn <= s'.grants[g].expiresAt &&
          s'.tokens[refresh].expiresAt == s'.grants[g].expiresAt &&
        (1 <= reply.expiresIn <==> at.issued < s.grants[g].expiresAt) &&
        (reply.expiresIn < 1 ==> forall now :: now >= at.issued ==> P.FindToken(s', access, Access, now).None?)
  {
  }

  /** Every grant there can be has this flaw: in any reachable state where it is active, exchanging
      its newest token as it expires between the readings succeeds and reports a lifetime of zero. */
  lemma LifetimeCanBeZero(m: State, g: GrantId, access: Token, refresh: Token) returns (op: Op)
    requires Reachable(m) && g in m.s.grants && P.Active(m.s, g, m.now)
    requires access !in m.h.used && refresh !in m.h.used && access != refresh
    ensures op.ExchangeRefresh? && Unconsumed(m.s, g, op.t) && Enabled(m, op)
    ensures var answer := Perform(m.s, op, m.now).1;
            answer.Issued? && answer.tokens.Ok? && answer.tokens.value.expiresIn == 0
  {
    var t := ExactlyOneUnconsumed(m, g);
    UnconsumedOutlives(m, g, t);
    var expiry := m.s.grants[g].expiresAt;
    op := ExchangeRefresh(m.s.grants[g].clientId, t, {}, access, refresh, P.Readings(expiry - 1, expiry));
    assert P.FindToken(m.s, t, Refresh, m.now).Some?;
  }

  lemma UnconsumedOutlives(m: State, g: GrantId, t: Token)
    requires Reachable(m) && g in m.s.grants && Unconsumed(m.s, g, t)
    ensures m.s.tokens[t].expiresAt >= m.s.grants[g].expiresAt
  {
    ReachableInv(m);
    assert RotationOk(m.s.grants, m.s.tokens, m.h, g);
    UnconsumedIsNewest(m.s, m.h, t);
  }

  // --- Scopes ---

  /** A loaded token's scopes lie within those of the token it was exchanged for, its code's,
      the approved request's, and the client's registered scopes among the supported ones. */
  lemma ScopesNeverWiden(m: State, t: Token, kind: TokenKind)
    requires Reachable(m) && P.FindToken(m.s, t, kind, m.now).Some?
    ensures
      var scopes := P.FindToken(m.s, t, kind, m.now).value.scopes;
      t in m.h.tokens && scopes == m.h.tokens[t].scopes &&
      var rec := m.h.tokens[t];
      (rec.parent.Some? ==> rec.parent.value in m.h.tokens && scopes <= m.h.tokens[rec.parent.value].scopes) &&
      rec.grant in m.h.grants && m.h.grants[rec.grant].code in m.h.codes &&
      var code := m.h.codes[m.h.grants[rec.grant].code];
      scopes <= code.scopes && code.request in m.h.requests &&
      var request := m.h.requests[code.request];
      code.scopes == request.scopes && request.client in m.s.clients &&
      request.client == P.FindToken(m.s, t, kind, m.now).value.clientId &&
      request.scopes <= m.s.clients[request.client].scopes * SCOPES
  {
    ReachableInv(m);
    var g := m.s.tokens[t].grantId;
    assert RowOk(m.h, m.s.grants, t, m.s.tokens[t]);
    assert TokenRecOk(m.h, m.now, m.h.tokens[t]);
    assert GrantOk(m.h, m.s.resource, g, m.s.grants[g]);
    assert GrantRecOk(m.h, m.now, m.h.grants[g]);
    var c := m.h.grants[g].code;
    assert CodeRecOk(m.h, m.now, c, m.h.codes[c]);
    assert RequestRecOk(m.s.clients, m.now, m.h.requests[m.h.codes[c].request]);
  }

  // --- The authorization flow is linear ---

  predicate Decides(m: State, op: Op) {
    op.Decide? && Enabled(m, op) && var answer := P.Decide(m.s, op.r, op.login, op.verdict, op.c, m.now).1;
      answer.Denied? || answer.Approved?
  }

  lemma DecisionRecorded(m: State, op: Op) returns (i: nat)
    requires Decides(m, op)
    ensures op.login.Some?
    ensures var h := Do(m, op).h;
      i < |h.decisions| && h.decisions[i].request == op.r && h.decisions[i].login == op.login.value
  {
    hide P.Decide, Record;
    i := |m.h.decisions|;
    DecisionNeedsLogin(m.s, op.r, op.login, op.verdict, op.c, m.now);
    RecordsDecision(m, op, P.Decide(m.s, op.r, op.login, op.verdict, op.c, m.now).1);
  }

  lemma RecordsDecision(m: State, op: Op, decided: Decided)
    requires op.Decide? && op.login.Some? && (decided.Denied? || decided.Approved?)
    ensures
      var decisions := Record(m, op, DecidedAs(decided)).decisions;
      |decisions| == |m.h.decisions| + 1 && decisions[|m.h.decisions|].request == op.r &&
        decisions[|m.h.decisions|].login == op.login.value
  {
    hide Record, RecordDecision, NewNames;
    var code := if decided.Approved? then Some(decided.code) else None;
    RecordIsDecision(m, op, decided);
    DecisionAppended(m.h.(used := m.h.used + NewNames(op)), m.s, op.r, op.login.value, code, m.now);
  }

  lemma RecordIsDecision(m: State, op: Op, decided: Decided)
    requires op.Decide? && op.login.Some? && (decided.Denied? || decided.Approved?)
    ensures
      Record(m, op, DecidedAs(decided)) ==
      RecordDecision(m.h.(used := m.h.used + NewNames(op)), m.s, op.r, op.login.value,
                     if decided.Approved? then Some(decided.code) else None, m.now)
  {
    hide RecordDecision, NewNames, RecordRequest, RecordLogin, RecordGrant, RecordRotation, RecordSave;
  }

  lemma DecisionAppended(h: History, s: Server, r: RequestId, l: LoginId, code: Option<CodeId>, now: Time)
    ensures RecordDecision(h, s, r, l, code, now).decisions == h.decisions + [Decision(r, l, code)]
  {
    hide RecordedCodes;
  }

  lemma DecisionNeedsLogin(s: Server, r: RequestId, login: Option<LoginId>, verdict: Verdict, c: CodeId, now: Time)
    ensures var decided := P.Decide(s, r, login, verdict, c, now).1;
      decided.Denied? || decided.Approved? ==> login.Some?
    ensures var decided := P.Decide(s, r, login, verdict, c, now).1; decided.Approved? ==> decided.code == c
  {
    hide P.GetRequest, P.ConsumeRequest, P.CreateCode, P.DropLogin;
  }

  lemma DecidedIsSpent(m: State, i: nat)
    requires Inv(m) && i < |m.h.decisions|
    ensures m.h.decisions[i].request !in m.s.requests && m.h.decisions[i].login !in m.s.logins
  {
    var r, l := m.h.decisions[i].request, m.h.decisions[i].login;
    assert r in m.s.requests ==> RequestOk(m.h, r, m.s.requests[r]);
    assert l in m.s.logins ==> LoginOk(m.h, l, m.s.logins[l]);
  }

  /** A decided request can never be decided again, and neither can its login decide another. */
  lemma DecidedAtMostOnce(m: State, first: Op, between: seq<Op>, second: Op)
    requires Reachable(m) && Decides(m, first)
    requires second.Decide? && (second.r == first.r || second.login == first.login)
    ensures !Decides(Run(Do(m, first), between), second)
  {
    ReachableInv(m);
    hide Inv;
    var i := DecisionRecorded(m, first);
    var m1 := Do(m, first);
    DoKeeps(m, first);
    RunGrows(m1, between);
    RunKeeps(m1, between);
    var m2 := Run(m1, between);
    assert m2.h.decisions[i] == m1.h.decisions[i];
    DecidedIsSpent(m2, i);
  }

  predicate CreatesGrant(m: State, op: Op) {
    op.ExchangeCode? && Enabled(m, op) && P.ExchangeCode(m.s, op.clientId, op.c, op.names, m.now, op.later).1.Ok?
  }

  lemma GrantRecordedFor(m: State, op: Op)
    requires CreatesGrant(m, op)
    ensures
      var h, g := Do(m, op).h, op.names.grant;
      op.c in m.s.codes && g in h.grants && g in h.stored &&
      h.grants[g].code == op.c && h.grants[g].at == m.now && h.grants[g].limit == m.now + m.s.grantTtl &&
      Some(h.stored[g][0]) == TokenExpiry(m.s.codes[op.c].session.refresh, RefreshClaim)
  {
  }

  /** The expiry of a credential that was saved is among those noted for its grant. */
  lemma SaveRecordedFor(m: State, g: GrantId, session: RelaySession)
    requires Inv(m) && Enabled(m, SaveSession(g, session)) && P.SaveSession(m.s, g, session, m.now).1
    ensures g in m.h.stored && TokenExpiry(session.refresh, RefreshClaim).Some?
    ensures g in Do(m, SaveSession(g, session)).h.stored
    ensures Do(m, SaveSession(g, session)).h.stored[g] ==
      m.h.stored[g] + [TokenExpiry(session.refresh, RefreshClaim).value]
  {
    hide Inv, Do, P.SaveSession;
    SavedFacts(m.s, g, session, m.now);
    StoredGrantFacts(m, g);
    SavingRecords(m, g, session);
    ExpiryIsNoted(m.h, g, session);
  }

  lemma SavedFacts(s: Server, g: GrantId, session: RelaySession, now: Time)
    requires P.SaveSession(s, g, session, now).1
    ensures g in s.grants && TokenExpiry(session.refresh, RefreshClaim).Some?
  {
  }

  lemma SavingRecords(m: State, g: GrantId, session: RelaySession)
    requires Enabled(m, SaveSession(g, session))
    ensures
      Do(m, SaveSession(g, session)).h ==
      RecordSave(m.h.(used := m.h.used + {}), g, session, P.SaveSession(m.s, g, session, m.now).1)
  {
    hide P.SaveSession, RecordSave;
  }

  lemma ExpiryIsNoted(h: History, g: GrantId, session: RelaySession)
    requires g in h.grants && h.grants[g].code in h.codes && g in h.stored &&
      TokenExpiry(session.refresh, RefreshClaim).Some?
    ensures
      var stored := RecordSave(h.(used := h.used + {}), g, session, true).stored;
      g in stored && stored[g] == h.stored[g] + [TokenExpiry(session.refresh, RefreshClaim).value]
  {
  }

  lemma StoredGrantFacts(m: State, g: GrantId)
    requires Inv(m) && g in m.s.grants
    ensures g in m.h.grants && g in m.h.stored && m.h.grants[g].code in m.h.codes
  {
    assert GrantOk(m.h, m.s.resource, g, m.s.grants[g]);
  }

  lemma SpentCodeIsGone(m: State, g: GrantId)
    requires Inv(m) && g in m.h.grants
    ensures m.h.grants[g].code !in m.s.codes
  {
    var c := m.h.grants[g].code;
    assert c in m.s.codes ==> CodeOk(m.h, c, m.s.codes[c]);
  }

  /** A code that produced a grant never produces another. */
  lemma CodeExchangedAtMostOnce(m: State, first: Op, between: seq<Op>, second: Op)
    requires Reachable(m) && CreatesGrant(m, first) && second.ExchangeCode? && second.c == first.c
    ensures !CreatesGrant(Run(Do(m, first), between), second)
  {
    ReachableInv(m);
    assert Enabled(m, first) && first.ExchangeCode?;
    hide Inv, Run, Do, CreatesGrant;
    GrantRecordedFor(m, first);
    var m1 := Do(m, first);
    DoKeeps(m, first);
    RunGrows(m1, between);
    RunKeeps(m1, between);
    var m2 := Run(m1, between);
    assert m2.h.grants[first.names.grant] == m1.h.grants[first.names.grant];
    SpentCodeIsGone(m2, first.names.grant);
    GrantNeedsCode(m2, second);
  }

  lemma GrantNeedsCode(m: State, op: Op)
    ensures CreatesGrant(m, op) ==> op.c in m.s.codes
  {
  }

  /** A grant carries the user of the login that approved its request, and is created within
      360 seconds of that request. */
  lemma GrantComesFromItsFlow(m: State, g: GrantId)
    requires Reachable(m) && g in m.s.grants
    ensures g in m.h.grants && m.h.grants[g].code in m.h.codes
    ensures
      var grant, rec, code := m.s.grants[g], m.h.grants[g], m.h.codes[m.h.grants[g].code];
      code.request in m.h.requests && code.login in m.h.logins &&
      grant.subject == m.h.logins[code.login] == grant.session.userId &&
        grant.clientId == m.h.requests[code.request].client &&
      m.h.requests[code.request].at <= code.at <= rec.at < m.h.requests[code.request].at + 360
  {
    ReachableInv(m);
    assert GrantOk(m.h, m.s.resource, g, m.s.grants[g]);
    assert GrantRecOk(m.h, m.now, m.h.grants[g]);
    var c := m.h.grants[g].code;
    assert CodeRecOk(m.h, m.now, c, m.h.codes[c]);
  }

  lemma CodesShareNothing(m: State, c: CodeId, c': CodeId)
    requires Inv(m) && c in m.h.codes && c' in m.h.codes && c != c'
    ensures m.h.codes[c].request != m.h.codes[c'].request && m.h.codes[c].login != m.h.codes[c'].login
  {
    assert CodeRecOk(m.h, m.now, c, m.h.codes[c]) && CodeRecOk(m.h, m.now, c', m.h.codes[c']);
    var i :| 0 <= i < |m.h.decisions| && m.h.decisions[i] ==
      Decision(m.h.codes[c].request, m.h.codes[c].login, Some(c));
    var j :| 0 <= j < |m.h.decisions| && m.h.decisions[j] ==
      Decision(m.h.codes[c'].request, m.h.codes[c'].login, Some(c'));
    assert i != j;
  }

  lemma CredentialsDiffer(m: State, g: GrantId, g': GrantId)
    requires Inv(m) && g in m.s.grants && g' in m.s.grants && g != g'
    ensures m.s.grants[g].session.refresh.id != m.s.grants[g'].session.refresh.id
  {
    assert GrantOk(m.h, m.s.resource, g, m.s.grants[g]) && GrantOk(m.h, m.s.resource, g', m.s.grants[g']);
    assert m.h.grants[g].code != m.h.grants[g'].code;
    CodesShareNothing(m, m.h.grants[g].code, m.h.grants[g'].code);
  }

  /** Any two grants ever created come from different codes, requests and logins; while both are
      stored they hold different upstream credentials. */
  lemma GrantsShareNothing(m: State, g: GrantId, g': GrantId)
    requires Reachable(m) && g in m.h.grants && g' in m.h.grants && g != g'
    ensures m.h.grants[g].code != m.h.grants[g'].code
    ensures m.h.grants[g].code in m.h.codes && m.h.grants[g'].code in m.h.codes
    ensures
      var code, code' := m.h.codes[m.h.grants[g].code], m.h.codes[m.h.grants[g'].code];
      code.request != code'.request && code.login != code'.login
    ensures g in m.s.grants && g' in m.s.grants ==>
      m.s.grants[g].session.refresh.id != m.s.grants[g'].session.refresh.id
  {
    ReachableInv(m);
    assert GrantRecOk(m.h, m.now, m.h.grants[g]) && GrantRecOk(m.h, m.now, m.h.grants[g']);
    CodesShareNothing(m, m.h.grants[g].code, m.h.grants[g'].code);
    if g in m.s.grants && g' in m.s.grants { CredentialsDiffer(m, g, g'); }
  }

  /** The grants the invariant speaks of include every stored one. */
  lemma StoredGrantIsRecorded(m: State, g: GrantId)
    requires Reachable(m) && g in m.s.grants
    ensures g in m.h.grants
  {
    ReachableInv(m);
    assert GrantOk(m.h, m.s.resource, g, m.s.grants[g]);
  }

  // --- Death is permanent, identity is fixed ---

  lemma StepStaysDead(m: State, op: Op, g: GrantId)
    requires Inv(m) && g in m.h.grants && !P.Active(m.s, g, m.now)
    ensures !P.Active(Step(m, op).s, g, Step(m, op).now)
  {
    hide Inv, GrantsAge, P.Active;
    NamesAreUsed(m, g);
    StepGrows(m, op);
    if Enabled(m, op) {
      DoneIsPerformed(m, op);
      PerformAges(m.s, op, m.now);
      NewNamesAreNew(m, op, g);
      hide Step, Perform, Enabled, NewNames;
      AgedStaysDead(m.s, Perform(m.s, op, m.now).0, NewNames(op), g, m.now, Step(m, op).now);
    }
  }

  lemma NamesAreUsed(m: State, g: GrantId)
    requires Inv(m) && g in m.h.grants
    ensures g in m.h.used
  {
  }

  lemma NewNamesAreNew(m: State, op: Op, g: nat)
    requires Enabled(m, op) && g in m.h.used
    ensures g !in NewNames(op)
  {
  }

  lemma DoneIsPerformed(m: State, op: Op)
    requires Enabled(m, op)
    ensures Step(m, op).s == Perform(m.s, op, m.now).0 && DistinctNames(op)
  {
    hide Perform, Record;
  }

  lemma AgedStaysDead(s: Server, s': Server, born: set<nat>, g: GrantId, now: Time, later: Time)
    requires GrantsAge(s, s', born) && g !in born && now <= later && !P.Active(s, g, now)
    ensures !P.Active(s', g, later)
  {
    assert g in s'.grants ==> Ages(s.grants[g], s'.grants[g]);
  }

  lemma {:induction false} StaysDead(m: State, ops: seq<Op>, g: GrantId)
    requires Inv(m) && g in m.h.grants && !P.Active(m.s, g, m.now)
    ensures !P.Active(Run(m, ops).s, g, Run(m, ops).now)
    decreases |ops|
  {
    hide Inv;
    if ops != [] {
      StepStaysDead(m, ops[0], g);
      StepGrows(m, ops[0]);
      StepKeeps(m, ops[0]);
      StaysDead(Step(m, ops[0]), ops[1..], g);
    }
  }

  /** Once revoked, expired or deleted, a grant never becomes live again. */
  lemma DeathIsPermanent(m: State, ops: seq<Op>, g: GrantId)
    requires Reachable(m) && g in m.h.grants && !P.Active(m.s, g, m.now)
    ensures !P.Active(Run(m, ops).s, g, Run(m, ops).now)
  {
    ReachableInv(m);
    StaysDead(m, ops, g);
  }

  /** Nothing of a dead grant can be used: no token loads, no session loads or is saved, and no
      upstream refresh begins. */
  lemma DeadGrantIsUseless(m: State, g: GrantId, session: RelaySession)
    requires Reachable(m) && g in m.h.grants && !P.Active(m.s, g, m.now)
    ensures forall t, kind {:trigger P.FindToken(m.s, t, kind, m.now)} ::
              t in m.h.tokens && m.h.tokens[t].grant == g ==> P.FindToken(m.s, t, kind, m.now).None?
    ensures P.LoadSession(m.s, g, m.now).1.None? && !P.BeginRefresh(m.s, g, m.now).1 &&
      !P.SaveSession(m.s, g, session, m.now).1
  {
    ReachableInv(m);
    assert g in m.s.grants ==> GrantOk(m.h, m.s.resource, g, m.s.grants[g]);
    forall t, kind | t in m.h.tokens && m.h.tokens[t].grant == g ensures P.FindToken(m.s, t, kind, m.now).None? {
      assert t in m.s.tokens ==> RowOk(m.h, m.s.grants, t, m.s.tokens[t]);
    }
  }

  /** While stored, a grant's client, subject and workspace never change. */
  lemma IdentityIsFixed(m: State, ops: seq<Op>, g: GrantId)
    requires Reachable(m) && g in m.s.grants && g in Run(m, ops).s.grants
    ensures
      var before, after := m.s.grants[g], Run(m, ops).s.grants[g];
      after.clientId == before.clientId && after.subject == before.subject && after.workspaceId == before.workspaceId
  {
    ReachableInv(m);
    RunKeeps(m, ops);
    RunGrows(m, ops);
    var m' := Run(m, ops);
    assert GrantOk(m.h, m.s.resource, g, m.s.grants[g]) && GrantOk(m'.h, m'.s.resource, g, m'.s.grants[g]);
  }

  /** The identity-mismatch branch of `load_session` is unreachable: an active grant that is
      not pending always loads, untouched, the session of its own subject and workspace. */
  lemma SessionAlwaysMatches(m: State, g: GrantId)
    requires Reachable(m) && P.Active(m.s, g, m.now)
    ensures
      var (s', loaded) := P.LoadSession(m.s, g, m.now);
      if m.s.grants[g].refreshPending then loaded.None? && s' == P.RevokeGrant(m.s, g, m.now)
      else s' == m.s && loaded == Some(m.s.grants[g].session) &&
           loaded.value.userId == m.s.grants[g].subject && loaded.value.workspaceId == m.s.grants[g].workspaceId
  {
    ReachableInv(m);
    assert GrantOk(m.h, m.s.resource, g, m.s.grants[g]);
  }
}
