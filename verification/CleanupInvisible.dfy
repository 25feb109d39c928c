/** Cleanup never changes an answer.

    `Quiet` performs the same operations without ever sweeping expired entries. A run of the
    real provider, with its throttled cleanup inside operations and explicit cleanups anywhere,
    gives answer for answer what the quiet run gives.
  */
module CleanupInvisible {
  import opened Basics
  import opened OAuthTypes
  import opened Machine
  import opened Invariant
  import G = GrantTheorems
  import P = ProviderModel

  // --- The provider that never cleans up ---

  function QuietAuthorize(s: Server, clientId: ClientId, req: AuthorizationRequest, r: RequestId,
          now: Time): (Server, Result<RequestId, OAuthError>)
  {
    if clientId !in s.clients then (s, Err(InvalidClient)) else
    var client := s.clients[clientId];
    var scopes := P.RequestedScopes(client, req.scopes);
    if !(scopes <= SCOPES * client.scopes) then (s, Err(InvalidScope))
    else if req.redirectUri !in client.redirectUris then (s, Err(InvalidRequest))
    else if !P.ValidChallenge(req.challenge) then (s, Err(InvalidRequest))
    else if req.resource != s.resource then (s, Err(InvalidTarget))
    else (s.(requests := s.requests[r := Pending(clientId, Params(scopes, req.redirectUri, req.challenge, req.resource),
      now + REQUEST_TTL)]), Ok(r))
  }

  function QuietSaveLogin(s: Server, previous: Option<LoginId>, session: RelaySession, l: LoginId, now: Time): Server {
    s.(logins := P.DropLogin(s, previous).logins[l := Login(session.userId, session, now + LOGIN_TTL)])
  }

  function QuietDecide(s: Server, r: RequestId, loginId: Option<LoginId>, verdict: Verdict, c: CodeId,
          now: Time): (Server, Decided)
  {
    if SeeRequest(s, r, now).None? then (s, RequestExpired)
    else if loginId.None? || SeeLogin(s, loginId.value, now).None? then (s, LoginRequired)
    else if verdict == Unreadable then (s, InvalidDecision)
    else
      var s1 := s.(requests := P.Without(s.requests, r), logins := P.Without(s.logins, loginId.value));
      if verdict == Deny then (s1, Denied)
      else
        var pending, login := s.requests[r], s.logins[loginId.value];
        (s1.(codes := s.codes[c := Code(pending.clientId, pending.params, login.userId, login.session,
          now + CODE_TTL)]), Approved(c))
  }

  function QuietGetCode(s: Server, c: CodeId, clientId: ClientId, now: Time): Option<Code> {
    var code := SeeCode(s, c, now);
    if code.Some? && code.value.clientId == clientId then code else None
  }

  function QuietExchangeCode(s: Server, clientId: ClientId, c: CodeId, names: P.Fresh, now: Time,
          later: P.Readings): (Server, Result<Tokens, OAuthError>)
  {
    var code := QuietGetCode(s, c, clientId, now);
    if code.None? then (s, Err(InvalidGrant)) else
    var s1 := s.(codes := P.Without(s.codes, c));
    if !P.Exchangeable(s, code.value, now) then (s1, Err(InvalidGrant)) else
    var s2 := s1.(grants := s1.grants[names.grant := P.NewGrant(s1, code.value, now)]);
    match P.Issue(s2, names.grant, code.value.params.scopes, names.access, names.refresh, later)
    case Err(e) => (s1, Err(e))
    case Ok((s3, reply)) => (s3, Ok(reply))
  }

  function QuietLoadRefresh(s: Server, clientId: ClientId, t: Token, now: Time): (Server, Option<TokenInfo>) {
    var found := P.FindToken(s, t, Refresh, now);
    if found.None? || found.value.clientId != clientId then (s, None)
    else if found.value.consumed then (P.RevokeGrant(s, found.value.grantId, now), None)
    else (s, found)
  }

  function QuietRevokeToken(s: Server, clientId: ClientId, t: Token, now: Time): Server {
    var access := P.FindToken(s, t, Access, now);
    var (s1, token) := if access.Some? then (s, access) else QuietLoadRefresh(s, clientId, t, now);
    if token.Some? && token.value.clientId == clientId then P.RevokeGrant(s1, token.value.grantId, now) else s1
  }

  function Quiet(s: Server, op: Op, now: Time): (Server, Answer) {
    match op
    case Authorize(clientId, req, r) => var (s', a) := QuietAuthorize(s, clientId, req, r, now); (s', RequestCreated(a))
    case ShowRequest(r) => (s, RequestShown(SeeRequest(s, r, now)))
    case ShowLogin(l) => (s, LoginShown(SeeLogin(s, l, now)))
    case SaveLogin(previous, session, l) => (QuietSaveLogin(s, previous, session, l, now), Done)
    case Decide(r, login, verdict, c) => var (s', a) := QuietDecide(s, r, login, verdict, c, now); (s', DecidedAs(a))
    case ShowCode(c, clientId) => (s, CodeShown(QuietGetCode(s, c, clientId, now)))
    case ExchangeCode(clientId, c, names, later) =>
      var (s', a) := QuietExchangeCode(s, clientId, c, names, now, later); (s', Issued(a))
    case LoadAccess(t) => (s, TokenShown(P.FindToken(s, t, Access, now)))
    case LoadRefresh(clientId, t) => var (s', a) := QuietLoadRefresh(s, clientId, t, now); (s', TokenShown(a))
    case RevokeToken(clientId, t) => (QuietRevokeToken(s, clientId, t, now), Done)
    case Cleanup => (s, Done)
    case _ => Perform(s, op, now)
  }

  // --- What can be seen of a state ---

  function SeeRequest(s: Server, r: RequestId, now: Time): Option<Pending> {
    if r in s.requests && s.requests[r].expiresAt > now then Some(s.requests[r]) else None
  }

  function SeeLogin(s: Server, l: LoginId, now: Time): Option<Login> {
    if l in s.logins && s.logins[l].expiresAt > now then Some(s.logins[l]) else None
  }

  function SeeCode(s: Server, c: CodeId, now: Time): Option<Code> {
    if c in s.codes && s.codes[c].expiresAt > now then Some(s.codes[c]) else None
  }

  function SeeGrant(s: Server, g: GrantId, now: Time): Option<Grant> {
    if g in s.grants && s.grants[g].expiresAt > now then Some(s.grants[g]) else None
  }

  function SeeToken(s: Server, t: Token, now: Time): Option<TokenRow> {
    if t in s.tokens && SeeGrant(s, s.tokens[t].grantId, now).Some? &&
      (s.tokens[t].kind == Access ==> s.tokens[t].expiresAt > now)
    then Some(s.tokens[t]) else None
  }

  ghost predicate AlikeStores(a: Server, b: Server, now: Time) {
    && (forall r {:trigger SeeRequest(a, r, now)} {:trigger SeeRequest(b, r, now)} ::
      SeeRequest(a, r, now) == SeeRequest(b, r, now))
    && (forall l {:trigger SeeLogin(a, l, now)} {:trigger SeeLogin(b, l, now)} ::
      SeeLogin(a, l, now) == SeeLogin(b, l, now))
    && (forall c {:trigger SeeCode(a, c, now)} {:trigger SeeCode(b, c, now)} ::
      SeeCode(a, c, now) == SeeCode(b, c, now))
  }

  ghost predicate AlikeRows(a: Server, b: Server, now: Time) {
    && (forall g {:trigger SeeGrant(a, g, now)} {:trigger SeeGrant(b, g, now)} ::
      SeeGrant(a, g, now) == SeeGrant(b, g, now))
    && (forall t {:trigger SeeToken(a, t, now)} {:trigger SeeToken(b, t, now)} ::
      SeeToken(a, t, now) == SeeToken(b, t, now))
  }

  ghost predicate SameSettings(a: Server, b: Server) {
    a.resource == b.resource && a.grantTtl == b.grantTtl && a.clients == b.clients
  }

  /** Two states no operation at or after `now` can tell apart. */
  ghost predicate Alike(a: Server, b: Server, now: Time) {
    SameSettings(a, b) && AlikeStores(a, b, now) && AlikeRows(a, b, now)
  }

  lemma AlikeTransitive(a: Server, b: Server, c: Server, now: Time)
    requires Alike(a, b, now) && Alike(b, c, now)
    ensures Alike(a, c, now)
  {
  }

  lemma AlikeLater(a: Server, b: Server, now: Time, later: Time)
    requires Alike(a, b, now) && now <= later
    ensures Alike(a, b, later)
  {
    forall r ensures SeeRequest(a, r, later) == SeeRequest(b, r, later) {
      assert SeeRequest(a, r, now) == SeeRequest(b, r, now);
    }
    forall l ensures SeeLogin(a, l, later) == SeeLogin(b, l, later) {
      assert SeeLogin(a, l, now) == SeeLogin(b, l, now);
    }
    forall c ensures SeeCode(a, c, later) == SeeCode(b, c, later) { assert SeeCode(a, c, now) == SeeCode(b, c, now); }
    forall g ensures SeeGrant(a, g, later) == SeeGrant(b, g, later) {
      assert SeeGrant(a, g, now) == SeeGrant(b, g, now);
    }
    forall t ensures SeeToken(a, t, later) == SeeToken(b, t, later) {
      assert SeeToken(a, t, now) == SeeToken(b, t, now);
      assert t in a.tokens ==> SeeGrant(a, a.tokens[t].grantId, now) == SeeGrant(b, a.tokens[t].grantId, now);
      assert t in b.tokens ==> SeeGrant(a, b.tokens[t].grantId, now) == SeeGrant(b, b.tokens[t].grantId, now);
    }
  }

  lemma SweptStoresUnseen(s: Server, now: Time)
    ensures AlikeStores(s.(requests := P.LiveRequests(s.requests, now), codes := P.LiveCodes(s.codes, now),
      logins := P.LiveLogins(s.logins, now)), s, now)
  {
  }

  lemma SweptRowsUnseen(s: Server, s': Server, now: Time)
    requires s'.grants == P.LiveGrants(s.grants, now) && s'.tokens == P.LiveTokens(s.tokens, s.grants, now)
    ensures AlikeRows(s', s, now)
  {
  }

  lemma StoresFrame(a: Server, a': Server, b: Server, b': Server, now: Time)
    requires AlikeStores(a, b, now)
    requires a'.requests == a.requests && a'.logins == a.logins && a'.codes == a.codes
    requires b'.requests == b.requests && b'.logins == b.logins && b'.codes == b.codes
    ensures AlikeStores(a', b', now)
  {
    assert forall r ::
        SeeRequest(a', r, now) == SeeRequest(a, r, now) && SeeRequest(b', r, now) == SeeRequest(b, r, now);
    assert forall l :: SeeLogin(a', l, now) == SeeLogin(a, l, now) && SeeLogin(b', l, now) == SeeLogin(b, l, now);
    assert forall c :: SeeCode(a', c, now) == SeeCode(a, c, now) && SeeCode(b', c, now) == SeeCode(b, c, now);
  }

  lemma RowsFrame(a: Server, a': Server, b: Server, b': Server, now: Time)
    requires AlikeRows(a, b, now)
    requires a'.grants == a.grants && a'.tokens == a.tokens && b'.grants == b.grants && b'.tokens == b.tokens
    ensures AlikeRows(a', b', now)
  {
    assert forall g :: SeeGrant(a', g, now) == SeeGrant(a, g, now) && SeeGrant(b', g, now) == SeeGrant(b, g, now);
    assert forall t :: SeeToken(a', t, now) == SeeToken(a, t, now) && SeeToken(b', t, now) == SeeToken(b, t, now);
  }

  lemma AlikeReflexive(s: Server, now: Time)
    ensures Alike(s, s, now)
  {
  }

  /** A cleanup removes nothing that can be seen. */
  lemma CleanupUnseen(s: Server, now: Time)
    ensures Alike(P.Cleanup(s, now), s, now)
  {
    var s1 := s.(requests := P.LiveRequests(s.requests, now), codes := P.LiveCodes(s.codes, now),
      logins := P.LiveLogins(s.logins, now));
    SweptStoresUnseen(s, now);
    AlikeReflexive(s, now);
    hide AlikeStores, AlikeRows;
    var s' := P.Cleanup(s, now);
    StoresFrame(s1, s', s, s, now);
    if now >= s.nextCleanup {
      SweptRowsUnseen(s, s', now);
    } else {
      RowsFrame(s, s', s, s, now);
    }
  }

  lemma AlikeAfterCleanup(a: Server, b: Server, now: Time)
    requires Alike(a, b, now)
    ensures Alike(P.Cleanup(a, now), b, now)
  {
    CleanupUnseen(a, now);
    hide Alike;
    AlikeTransitive(P.Cleanup(a, now), a, b, now);
  }

  // --- Effects on both sides ---

  /** The grants named by a side's token rows; a grant name outside `used` is new to it. */
  ghost predicate Known(s: Server, used: set<nat>) {
    forall t {:trigger s.tokens[t]} :: t in s.tokens ==> s.tokens[t].grantId in used
  }

  lemma FindAlike(a: Server, b: Server, t: Token, kind: TokenKind, now: Time)
    requires Alike(a, b, now)
    ensures P.FindToken(a, t, kind, now) == P.FindToken(b, t, kind, now)
  {
    assert SeeToken(a, t, now) == SeeToken(b, t, now);
    assert t in a.tokens ==> SeeGrant(a, a.tokens[t].grantId, now) == SeeGrant(b, a.tokens[t].grantId, now);
    assert t in b.tokens ==> SeeGrant(a, b.tokens[t].grantId, now) == SeeGrant(b, b.tokens[t].grantId, now);
  }

  /** Writing the same grant row on both sides, when both or neither could see it before. */
  lemma PutGrantAlike(a: Server, b: Server, g: GrantId, grant: Grant, used: set<nat>, now: Time)
    requires AlikeRows(a, b, now) && Known(a, used) && Known(b, used)
    requires SeeGrant(a, g, now).Some? || g !in used
    ensures AlikeRows(a.(grants := a.grants[g := grant]), b.(grants := b.grants[g := grant]), now)
  {
    var a', b' := a.(grants := a.grants[g := grant]), b.(grants := b.grants[g := grant]);
    assert SeeGrant(a, g, now) == SeeGrant(b, g, now);
    forall x ensures SeeGrant(a', x, now) == SeeGrant(b', x, now) {
      assert SeeGrant(a, x, now) == SeeGrant(b, x, now);
    }
    forall t ensures SeeToken(a', t, now) == SeeToken(b', t, now) {
      assert SeeToken(a, t, now) == SeeToken(b, t, now);
      assert t in a.tokens ==> SeeGrant(a, a.tokens[t].grantId, now) == SeeGrant(b, a.tokens[t].grantId, now);
      assert t in b.tokens ==> SeeGrant(a, b.tokens[t].grantId, now) == SeeGrant(b, b.tokens[t].grantId, now);
    }
  }

  lemma PutTokenAlike(a: Server, b: Server, t: Token, row: TokenRow, now: Time)
    requires AlikeRows(a, b, now)
    ensures AlikeRows(a.(tokens := a.tokens[t := row]), b.(tokens := b.tokens[t := row]), now)
  {
    var a', b' := a.(tokens := a.tokens[t := row]), b.(tokens := b.tokens[t := row]);
    forall x ensures SeeGrant(a', x, now) == SeeGrant(b', x, now) {
      assert SeeGrant(a, x, now) == SeeGrant(b, x, now);
    }
    forall x ensures SeeToken(a', x, now) == SeeToken(b', x, now) {
      assert SeeToken(a, x, now) == SeeToken(b, x, now);
      assert SeeGrant(a, row.grantId, now) == SeeGrant(b, row.grantId, now);
    }
  }

  /** A change to a row only one side still keeps cannot be seen. */
  lemma UnseenGrantAlike(a: Server, b: Server, g: GrantId, grant: Grant, now: Time)
    requires AlikeRows(a, b, now) && g in a.grants && a.grants[g].expiresAt <= now && grant.expiresAt <= now
    ensures AlikeRows(a.(grants := a.grants[g := grant]), b, now)
  {
    var a' := a.(grants := a.grants[g := grant]);
    forall x ensures SeeGrant(a', x, now) == SeeGrant(b, x, now) { assert SeeGrant(a, x, now) == SeeGrant(b, x, now); }
    forall t ensures SeeToken(a', t, now) == SeeToken(b, t, now) { assert SeeToken(a, t, now) == SeeToken(b, t, now); }
  }

  lemma RowsSymmetric(a: Server, b: Server, now: Time)
    requires AlikeRows(a, b, now)
    ensures AlikeRows(b, a, now)
  {
  }

  lemma RevokeSeenAlike(a: Server, b: Server, g: GrantId, used: set<nat>, now: Time)
    requires AlikeRows(a, b, now) && Known(a, used) && Known(b, used) && SeeGrant(a, g, now).Some?
    ensures AlikeRows(P.RevokeGrant(a, g, now), P.RevokeGrant(b, g, now), now)
  {
    assert SeeGrant(a, g, now) == SeeGrant(b, g, now);
    hide AlikeRows, Known;
    PutGrantAlike(a, b, g, a.grants[g].(revokedAt := Some(now)), used, now);
  }

  lemma RevokeUnseenAlike(a: Server, b: Server, g: GrantId, now: Time)
    requires AlikeRows(a, b, now) && SeeGrant(a, g, now).None?
    ensures AlikeRows(P.RevokeGrant(a, g, now), b, now)
  {
    hide AlikeRows;
    if g in a.grants && a.grants[g].revokedAt.None? {
      UnseenGrantAlike(a, b, g, a.grants[g].(revokedAt := Some(now)), now);
    }
  }

  lemma RevokeAlike(a: Server, b: Server, g: GrantId, used: set<nat>, now: Time)
    requires Alike(a, b, now) && Known(a, used) && Known(b, used)
    ensures Alike(P.RevokeGrant(a, g, now), P.RevokeGrant(b, g, now), now)
  {
    assert SeeGrant(a, g, now) == SeeGrant(b, g, now);
    var a', b' := P.RevokeGrant(a, g, now), P.RevokeGrant(b, g, now);
    hide AlikeStores, AlikeRows, Known;
    StoresFrame(a, a', b, b', now);
    if SeeGrant(a, g, now).Some? {
      RevokeSeenAlike(a, b, g, used, now);
    } else {
      RevokeUnseenAlike(a, b, g, now);
      RowsSymmetric(a', b, now);
      RevokeUnseenAlike(b, a', g, now);
      RowsSymmetric(b', a', now);
    }
  }

  lemma ActiveAlike(a: Server, b: Server, g: GrantId, now: Time)
    requires Alike(a, b, now)
    ensures P.Active(a, g, now) <==> P.Active(b, g, now)
    ensures P.Active(a, g, now) ==> a.grants[g] == b.grants[g] && SeeGrant(a, g, now).Some?
  {
    assert SeeGrant(a, g, now) == SeeGrant(b, g, now);
  }

  lemma LoadSessionAlike(a: Server, b: Server, g: GrantId, used: set<nat>, now: Time)
    requires Alike(a, b, now) && Known(a, used) && Known(b, used)
    ensures P.LoadSession(a, g, now).1 == P.LoadSession(b, g, now).1 &&
      Alike(P.LoadSession(a, g, now).0, P.LoadSession(b, g, now).0, now)
  {
    ActiveAlike(a, b, g, now);
    RevokeAlike(a, b, g, used, now);
  }

  lemma BeginRefreshAlike(a: Server, b: Server, g: GrantId, used: set<nat>, now: Time)
    requires Alike(a, b, now) && Known(a, used) && Known(b, used)
    ensures P.BeginRefresh(a, g, now).1 == P.BeginRefresh(b, g, now).1 &&
      Alike(P.BeginRefresh(a, g, now).0, P.BeginRefresh(b, g, now).0, now)
  {
    assert SeeGrant(a, g, now) == SeeGrant(b, g, now);
    hide AlikeStores, AlikeRows;
    StoresFrame(a, P.BeginRefresh(a, g, now).0, b, P.BeginRefresh(b, g, now).0, now);
    if P.CanBeginRefresh(a, g, now) {
      PutGrantAlike(a, b, g, a.grants[g].(refreshPending := true), used, now);
    }
  }

  lemma SaveSessionAlike(a: Server, b: Server, g: GrantId, session: RelaySession, used: set<nat>, now: Time)
    requires Alike(a, b, now) && Known(a, used) && Known(b, used)
    ensures P.SaveSession(a, g, session, now).1 == P.SaveSession(b, g, session, now).1
    ensures Alike(P.SaveSession(a, g, session, now).0, P.SaveSession(b, g, session, now).0, now)
  {
    assert SeeGrant(a, g, now) == SeeGrant(b, g, now);
    RevokeAlike(a, b, g, used, now);
    hide AlikeStores, AlikeRows, Known, P.RevokeGrant;
    if P.SaveSession(a, g, session, now).1 {
      var a', b' := P.SaveSession(a, g, session, now).0, P.SaveSession(b, g, session, now).0;
      StoresFrame(a, a', b, b', now);
      PutGrantAlike(a, b, g, a'.grants[g], used, now);
    }
  }

  lemma LoadRefreshAlike(a: Server, b: Server, clientId: ClientId, t: Token, used: set<nat>, now: Time)
    requires Alike(a, b, now) && Known(a, used) && Known(b, used)
    ensures P.LoadRefresh(a, clientId, t, now).1 == QuietLoadRefresh(b, clientId, t, now).1
    ensures Alike(P.LoadRefresh(a, clientId, t, now).0, QuietLoadRefresh(b, clientId, t, now).0, now)
  {
    AlikeAfterCleanup(a, b, now);
    var a1 := P.Cleanup(a, now);
    FindAlike(a1, b, t, Refresh, now);
    assert Known(a1, used);
    hide Alike, Known;
    var found := P.FindToken(b, t, Refresh, now);
    if found.Some? { RevokeAlike(a1, b, found.value.grantId, used, now); }
  }

  lemma SweptIsKnown(s: Server, used: set<nat>, now: Time)
    requires Known(s, used)
    ensures Known(P.Cleanup(s, now), used)
  {
  }

  lemma RevokeKnown(s: Server, g: GrantId, used: set<nat>, now: Time)
    requires Known(s, used)
    ensures Known(P.RevokeGrant(s, g, now), used)
  {
    assert P.RevokeGrant(s, g, now).tokens == s.tokens;
  }

  lemma LoadRefreshKnown(s: Server, clientId: ClientId, t: Token, used: set<nat>, now: Time)
    requires Known(s, used)
    ensures Known(P.Cleanup(s, now), used) && Known(QuietLoadRefresh(s, clientId, t, now).0, used) &&
      Known(P.LoadRefresh(s, clientId, t, now).0, used)
  {
    var s1 := P.Cleanup(s, now);
    SweptIsKnown(s, used, now);
    hide Known;
    var found, found1 := P.FindToken(s, t, Refresh, now), P.FindToken(s1, t, Refresh, now);
    if found.Some? { RevokeKnown(s, found.value.grantId, used, now); }
    if found1.Some? { RevokeKnown(s1, found1.value.grantId, used, now); }
  }

  lemma RevokeTokenAlike(a: Server, b: Server, clientId: ClientId, t: Token, used: set<nat>, now: Time)
    requires Alike(a, b, now) && Known(a, used) && Known(b, used)
    ensures Alike(P.RevokeToken(a, clientId, t, now), QuietRevokeToken(b, clientId, t, now), now)
  {
    hide Alike, Known, P.LoadRefresh, QuietLoadRefresh;
    AlikeAfterCleanup(a, b, now);
    var a1 := P.Cleanup(a, now);
    FindAlike(a1, b, t, Access, now);
    SweptIsKnown(a, used, now);
    LoadRefreshKnown(a1, clientId, t, used, now);
    LoadRefreshKnown(b, clientId, t, used, now);
    LoadRefreshAlike(a1, b, clientId, t, used, now);
    var access := P.FindToken(b, t, Access, now);
    if access.Some? {
      RevokeAlike(a1, b, access.value.grantId, used, now);
    } else {
      var a2, b2 := P.LoadRefresh(a1, clientId, t, now).0, QuietLoadRefresh(b, clientId, t, now);
      if b2.1.Some? { RevokeAlike(a2, b2.0, b2.1.value.grantId, used, now); }
    }
  }

  lemma IssueAlike(a: Server, b: Server, g: GrantId, scopes: set<Scope>, access: Token, refresh: Token, at: P.Readings)
    requires Alike(a, b, at.checked) && at.checked <= at.issued
    ensures
      match (P.Issue(a, g, scopes, access, refresh, at), P.Issue(b, g, scopes, access, refresh, at))
      case (Ok((a', reply)), Ok((b', reply'))) => reply == reply' && Alike(a', b', at.issued)
      case (Err(e), Err(e')) => e == e'
      case _ => false
  {
    ActiveAlike(a, b, g, at.checked);
    hide AlikeStores, AlikeRows;
    if P.Active(a, g, at.checked) {
      var a', b' := P.Issue(a, g, scopes, access, refresh, at).value.0,
        P.Issue(b, g, scopes, access, refresh, at).value.0;
      var a1, b1 := a.(tokens := a.tokens[access := a'.tokens[access]]),
        b.(tokens := b.tokens[access := a'.tokens[access]]);
      StoresFrame(a, a', b, b', at.checked);
      if access != refresh {
        PutTokenAlike(a, b, access, a'.tokens[access], at.checked);
        PutTokenAlike(a1, b1, refresh, a'.tokens[refresh], at.checked);
      } else {
        PutTokenAlike(a, b, refresh, a'.tokens[refresh], at.checked);
        assert a.tokens[access := a'.tokens[access]] == a'.tokens && b.tokens[access := a'.tokens[access]] == b'.tokens;
      }
      AlikeLater(a', b', at.checked, at.issued);
    }
  }

  lemma GetCodeAlike(a: Server, b: Server, c: CodeId, clientId: ClientId, now: Time)
    requires Alike(a, b, now)
    ensures P.GetCode(a, c, clientId, now).1 == QuietGetCode(b, c, clientId, now)
  {
    assert SeeCode(a, c, now) == SeeCode(b, c, now);
  }

  lemma SweptCodesAlike(a: Server, b: Server, codes: map<CodeId, Code>, now: Time)
    requires AlikeStores(a, b, now) && codes == P.LiveCodes(a.codes, now)
    ensures AlikeStores(a.(codes := codes), b, now)
  {
    var a' := a.(codes := codes);
    forall r ensures SeeRequest(a', r, now) == SeeRequest(b, r, now) {
      assert SeeRequest(a, r, now) == SeeRequest(b, r, now);
    }
    forall l ensures SeeLogin(a', l, now) == SeeLogin(b, l, now) { assert SeeLogin(a, l, now) == SeeLogin(b, l, now); }
    forall c ensures SeeCode(a', c, now) == SeeCode(b, c, now) { assert SeeCode(a, c, now) == SeeCode(b, c, now); }
  }

  lemma DropCodeAlike(a: Server, b: Server, c: CodeId, now: Time)
    requires AlikeStores(a, b, now)
    ensures AlikeStores(a.(codes := P.Without(a.codes, c)), b.(codes := P.Without(b.codes, c)), now)
  {
    var a', b' := a.(codes := P.Without(a.codes, c)), b.(codes := P.Without(b.codes, c));
    forall r ensures SeeRequest(a', r, now) == SeeRequest(b', r, now) {
      assert SeeRequest(a, r, now) == SeeRequest(b, r, now);
    }
    forall l ensures SeeLogin(a', l, now) == SeeLogin(b', l, now) { assert SeeLogin(a, l, now) == SeeLogin(b, l, now); }
    forall x ensures SeeCode(a', x, now) == SeeCode(b', x, now) { assert SeeCode(a, x, now) == SeeCode(b, x, now); }
  }

  lemma ShowCodeAlike(a: Server, b: Server, c: CodeId, clientId: ClientId, now: Time)
    requires Alike(a, b, now)
    ensures P.GetCode(a, c, clientId, now).1 == QuietGetCode(b, c, clientId, now) &&
      Alike(P.GetCode(a, c, clientId, now).0, b, now)
  {
    GetCodeAlike(a, b, c, clientId, now);
    hide AlikeStores, AlikeRows;
    var a' := P.GetCode(a, c, clientId, now).0;
    SweptCodesAlike(a, b, a'.codes, now);
    RowsFrame(a, a', b, b, now);
  }

  lemma ConsumeCodeAlike(a: Server, b: Server, c: CodeId, clientId: ClientId, now: Time)
    requires Alike(a, b, now)
    ensures
      var found := QuietGetCode(b, c, clientId, now);
      P.ConsumeCode(a, c, clientId, now).1 == found &&
      Alike(P.ConsumeCode(a, c, clientId, now).0, if found.Some? then b.(codes := P.Without(b.codes, c)) else b, now)
  {
    ShowCodeAlike(a, b, c, clientId, now);
    hide AlikeStores, AlikeRows;
    var a1 := P.GetCode(a, c, clientId, now).0;
    if QuietGetCode(b, c, clientId, now).Some? {
      var b' := b.(codes := P.Without(b.codes, c));
      DropCodeAlike(a1, b, c, now);
      RowsFrame(a1, P.ConsumeCode(a, c, clientId, now).0, b, b', now);
    }
  }

  lemma ExchangeCodeAlike(a: Server, b: Server, clientId: ClientId, c: CodeId, names: P.Fresh, used: set<nat>,
          now: Time, later: P.Readings)
    requires Alike(a, b, now) && Known(a, used) && Known(b, used) && names.grant !in used &&
      now <= later.checked <= later.issued
    ensures P.ExchangeCode(a, clientId, c, names, now, later).1 ==
      QuietExchangeCode(b, clientId, c, names, now, later).1
    ensures Alike(P.ExchangeCode(a, clientId, c, names, now, later).0,
      QuietExchangeCode(b, clientId, c, names, now, later).0, later.issued)
  {
    ConsumeCodeAlike(a, b, c, clientId, now);
    var found := QuietGetCode(b, c, clientId, now);
    var a1, b1 := P.ConsumeCode(a, c, clientId, now).0, if found.Some? then b.(codes := P.Without(b.codes, c)) else b;
    assert a1.tokens == a.tokens;
    assert Known(a1, used) && Known(b1, used);
    hide AlikeStores, AlikeRows, Known;
    AlikeLater(a1, b1, now, later.issued);
    if found.Some? && P.Exchangeable(b, found.value, now) {
      var grant := P.NewGrant(b1, found.value, now);
      var a2, b2 := a1.(grants := a1.grants[names.grant := grant]), b1.(grants := b1.grants[names.grant := grant]);
      assert P.NewGrant(a1, found.value, now) == grant;
      StoresFrame(a1, a2, b1, b2, now);
      PutGrantAlike(a1, b1, names.grant, grant, used, now);
      AlikeLater(a2, b2, now, later.checked);
      IssueAlike(a2, b2, names.grant, found.value.params.scopes, names.access, names.refresh, later);
    }
  }

  lemma ConsumeAlike(a: Server, b: Server, t: Token, now: Time)
    requires Alike(a, b, now) && SeeToken(a, t, now).Some? && t in a.tokens && t in b.tokens
    ensures Alike(P.Consume(a, t, now), P.Consume(b, t, now), now)
  {
    assert SeeToken(a, t, now) == SeeToken(b, t, now);
    hide AlikeStores, AlikeRows;
    StoresFrame(a, P.Consume(a, t, now), b, P.Consume(b, t, now), now);
    PutTokenAlike(a, b, t, a.tokens[t].(consumedAt := Some(now)), now);
  }

  lemma FoundIsSeen(s: Server, t: Token, kind: TokenKind, now: Time)
    requires P.FindToken(s, t, kind, now).Some?
    ensures t in s.tokens && SeeToken(s, t, now).Some? &&
      P.FindToken(s, t, kind, now).value.grantId == s.tokens[t].grantId
  {
  }

  lemma ExchangeRefreshAlike(a: Server, b: Server, clientId: ClientId, t: Token, scopes: set<Scope>, access: Token,
          refresh: Token, used: set<nat>, now: Time, later: P.Readings)
    requires Alike(a, b, now) && Known(a, used) && Known(b, used) && now <= later.checked <= later.issued
    ensures
      var (a', answer) := P.ExchangeRefresh(a, clientId, t, scopes, access, refresh, now, later);
      var (b', answer') := P.ExchangeRefresh(b, clientId, t, scopes, access, refresh, now, later);
      answer == answer' && Alike(a', b', later.issued)
  {
    FindAlike(a, b, t, Refresh, now);
    AlikeLater(a, b, now, later.issued);
    hide Alike, Known;
    var found := P.FindToken(a, t, Refresh, now);
    if found.Some? {
      FoundIsSeen(a, t, Refresh, now);
      FoundIsSeen(b, t, Refresh, now);
      var g := found.value.grantId;
      RevokeAlike(a, b, g, used, now);
      AlikeLater(P.RevokeGrant(a, g, now), P.RevokeGrant(b, g, now), now, later.issued);
      ConsumeAlike(a, b, t, now);
      var a1, b1 := P.Consume(a, t, now), P.Consume(b, t, now);
      AlikeLater(a1, b1, now, later.checked);
      IssueAlike(a1, b1, g, scopes, access, refresh, later);
    }
  }

  // --- Requests and logins ---

  lemma PutRequestAlike(a: Server, b: Server, r: RequestId, p: Pending, now: Time)
    requires AlikeStores(a, b, now)
    ensures AlikeStores(a.(requests := P.LiveRequests(a.requests, now)[r := p]), b.(requests := b.requests[r := p]),
      now)
  {
    var a', b' := a.(requests := P.LiveRequests(a.requests, now)[r := p]), b.(requests := b.requests[r := p]);
    forall x ensures SeeRequest(a', x, now) == SeeRequest(b', x, now) {
      assert SeeRequest(a, x, now) == SeeRequest(b, x, now);
    }
    forall l ensures SeeLogin(a', l, now) == SeeLogin(b', l, now) { assert SeeLogin(a, l, now) == SeeLogin(b, l, now); }
    forall c ensures SeeCode(a', c, now) == SeeCode(b', c, now) { assert SeeCode(a, c, now) == SeeCode(b, c, now); }
  }

  lemma AuthorizeAlike(a: Server, b: Server, clientId: ClientId, req: AuthorizationRequest, r: RequestId, now: Time)
    requires Alike(a, b, now)
    ensures P.Authorize(a, clientId, req, r, now).1 == QuietAuthorize(b, clientId, req, r, now).1
    ensures Alike(P.Authorize(a, clientId, req, r, now).0, QuietAuthorize(b, clientId, req, r, now).0, now)
  {
    AlikeAfterCleanup(a, b, now);
    hide AlikeStores, AlikeRows;
    if QuietAuthorize(b, clientId, req, r, now).1.Ok? {
      var a1 := P.Cleanup(a, now);
      var p := Pending(clientId, Params(P.RequestedScopes(a.clients[clientId], req.scopes), req.redirectUri,
        req.challenge, req.resource), now + REQUEST_TTL);
      PutRequestAlike(a1, b, r, p, now);
      RowsFrame(a1, P.Authorize(a, clientId, req, r, now).0, b, QuietAuthorize(b, clientId, req, r, now).0, now);
    }
  }

  lemma DropUnseenRequestAlike(a: Server, b: Server, r: RequestId, now: Time)
    requires AlikeStores(a, b, now) && SeeRequest(a, r, now).None?
    ensures AlikeStores(a.(requests := P.Without(a.requests, r)), b, now)
  {
    var a' := a.(requests := P.Without(a.requests, r));
    forall x ensures SeeRequest(a', x, now) == SeeRequest(b, x, now) {
      assert SeeRequest(a, x, now) == SeeRequest(b, x, now);
    }
    forall l ensures SeeLogin(a', l, now) == SeeLogin(b, l, now) { assert SeeLogin(a, l, now) == SeeLogin(b, l, now); }
    forall c ensures SeeCode(a', c, now) == SeeCode(b, c, now) { assert SeeCode(a, c, now) == SeeCode(b, c, now); }
  }

  lemma DropUnseenLoginAlike(a: Server, b: Server, l: LoginId, now: Time)
    requires AlikeStores(a, b, now) && SeeLogin(a, l, now).None?
    ensures AlikeStores(a.(logins := P.Without(a.logins, l)), b, now)
  {
    var a' := a.(logins := P.Without(a.logins, l));
    forall r ensures SeeRequest(a', r, now) == SeeRequest(b, r, now) {
      assert SeeRequest(a, r, now) == SeeRequest(b, r, now);
    }
    forall x ensures SeeLogin(a', x, now) == SeeLogin(b, x, now) { assert SeeLogin(a, x, now) == SeeLogin(b, x, now); }
    forall c ensures SeeCode(a', c, now) == SeeCode(b, c, now) { assert SeeCode(a, c, now) == SeeCode(b, c, now); }
  }

  lemma GetRequestAlike(a: Server, b: Server, r: RequestId, now: Time)
    requires Alike(a, b, now)
    ensures P.GetRequest(a, r, now).1 == SeeRequest(b, r, now) && Alike(P.GetRequest(a, r, now).0, b, now)
  {
    assert SeeRequest(a, r, now) == SeeRequest(b, r, now);
    hide AlikeStores, AlikeRows;
    RowsFrame(a, P.GetRequest(a, r, now).0, b, b, now);
    if SeeRequest(a, r, now).None? { DropUnseenRequestAlike(a, b, r, now); }
  }

  lemma GetLoginAlike(a: Server, b: Server, l: LoginId, now: Time)
    requires Alike(a, b, now)
    ensures P.GetLogin(a, l, now).1 == SeeLogin(b, l, now) && Alike(P.GetLogin(a, l, now).0, b, now)
  {
    assert SeeLogin(a, l, now) == SeeLogin(b, l, now);
    hide AlikeStores, AlikeRows;
    RowsFrame(a, P.GetLogin(a, l, now).0, b, b, now);
    if SeeLogin(a, l, now).None? { DropUnseenLoginAlike(a, b, l, now); }
  }

  lemma SaveLoginAlike(a: Server, b: Server, previous: Option<LoginId>, session: RelaySession, l: LoginId, now: Time)
    requires Alike(a, b, now)
    ensures Alike(P.SaveLogin(a, previous, session, l, now), QuietSaveLogin(b, previous, session, l, now), now)
  {
    var a', b' := P.SaveLogin(a, previous, session, l, now), QuietSaveLogin(b, previous, session, l, now);
    RowsFrame(a, a', b, b', now);
    hide AlikeRows;
    forall r ensures SeeRequest(a', r, now) == SeeRequest(b', r, now) {
      assert SeeRequest(a, r, now) == SeeRequest(b, r, now);
    }
    forall x ensures SeeLogin(a', x, now) == SeeLogin(b', x, now) { assert SeeLogin(a, x, now) == SeeLogin(b, x, now); }
    forall c ensures SeeCode(a', c, now) == SeeCode(b', c, now) { assert SeeCode(a, c, now) == SeeCode(b, c, now); }
  }

  lemma DropLoginAlike(a: Server, b: Server, l: LoginId, now: Time)
    requires Alike(a, b, now)
    ensures Alike(P.DropLogin(a, Some(l)), P.DropLogin(b, Some(l)), now)
  {
    var a', b' := P.DropLogin(a, Some(l)), P.DropLogin(b, Some(l));
    RowsFrame(a, a', b, b', now);
    hide AlikeRows;
    forall r ensures SeeRequest(a', r, now) == SeeRequest(b', r, now) {
      assert SeeRequest(a, r, now) == SeeRequest(b, r, now);
    }
    forall x ensures SeeLogin(a', x, now) == SeeLogin(b', x, now) { assert SeeLogin(a, x, now) == SeeLogin(b, x, now); }
    forall c ensures SeeCode(a', c, now) == SeeCode(b', c, now) { assert SeeCode(a, c, now) == SeeCode(b, c, now); }
  }

  lemma SpendAlike(a: Server, b: Server, r: RequestId, l: LoginId, now: Time)
    requires AlikeStores(a, b, now)
    ensures AlikeStores(a.(requests := P.Without(a.requests, r), logins := P.Without(a.logins, l)),
                        b.(requests := P.Without(b.requests, r), logins := P.Without(b.logins, l)), now)
  {
    var a' := a.(requests := P.Without(a.requests, r), logins := P.Without(a.logins, l));
    var b' := b.(requests := P.Without(b.requests, r), logins := P.Without(b.logins, l));
    forall x ensures SeeRequest(a', x, now) == SeeRequest(b', x, now) {
      assert SeeRequest(a, x, now) == SeeRequest(b, x, now);
    }
    forall x ensures SeeLogin(a', x, now) == SeeLogin(b', x, now) { assert SeeLogin(a, x, now) == SeeLogin(b, x, now); }
    forall c ensures SeeCode(a', c, now) == SeeCode(b', c, now) { assert SeeCode(a, c, now) == SeeCode(b, c, now); }
  }

  lemma PutCodeAlike(a: Server, b: Server, c: CodeId, code: Code, now: Time)
    requires AlikeStores(a, b, now)
    ensures AlikeStores(a.(codes := P.LiveCodes(a.codes, now)[c := code]), b.(codes := b.codes[c := code]), now)
  {
    var a', b' := a.(codes := P.LiveCodes(a.codes, now)[c := code]), b.(codes := b.codes[c := code]);
    forall r ensures SeeRequest(a', r, now) == SeeRequest(b', r, now) {
      assert SeeRequest(a, r, now) == SeeRequest(b, r, now);
    }
    forall l ensures SeeLogin(a', l, now) == SeeLogin(b', l, now) { assert SeeLogin(a, l, now) == SeeLogin(b, l, now); }
    forall x ensures SeeCode(a', x, now) == SeeCode(b', x, now) { assert SeeCode(a, x, now) == SeeCode(b, x, now); }
  }

  /** When a decision is taken, the real handler leaves exactly what the quiet one does, but
      for swept codes. */
  lemma DecideShape(s: Server, r: RequestId, l: LoginId, verdict: Verdict, c: CodeId, now: Time)
    requires SeeRequest(s, r, now).Some? && SeeLogin(s, l, now).Some? && verdict != Unreadable
    ensures
      var s1 := s.(requests := P.Without(s.requests, r), logins := P.Without(s.logins, l));
      var pending, login := s.requests[r], s.logins[l];
      var code := Code(pending.clientId, pending.params, login.userId, login.session, now + CODE_TTL);
      P.Decide(s, r, Some(l), verdict, c, now) ==
      if verdict == Deny then (s1, Denied) else (s1.(codes := P.LiveCodes(s.codes, now)[c := code]), Approved(c))
  {
  }

  lemma DecideTakenAlike(a: Server, b: Server, r: RequestId, l: LoginId, verdict: Verdict, c: CodeId, now: Time)
    requires Alike(a, b, now) && SeeRequest(b, r, now).Some? && SeeLogin(b, l, now).Some? && verdict != Unreadable
    ensures P.Decide(a, r, Some(l), verdict, c, now).1 == QuietDecide(b, r, Some(l), verdict, c, now).1
    ensures Alike(P.Decide(a, r, Some(l), verdict, c, now).0, QuietDecide(b, r, Some(l), verdict, c, now).0, now)
  {
    assert SeeRequest(a, r, now) == SeeRequest(b, r, now) && SeeLogin(a, l, now) == SeeLogin(b, l, now);
    DecideShape(a, r, l, verdict, c, now);
    SpendAlike(a, b, r, l, now);
    hide AlikeStores, AlikeRows, P.Decide;
    var a1 := a.(requests := P.Without(a.requests, r), logins := P.Without(a.logins, l));
    var b1 := b.(requests := P.Without(b.requests, r), logins := P.Without(b.logins, l));
    RowsFrame(a, P.Decide(a, r, Some(l), verdict, c, now).0, b, QuietDecide(b, r, Some(l), verdict, c, now).0, now);
    if verdict != Deny {
      var pending, login := a.requests[r], a.logins[l];
      PutCodeAlike(a1, b1, c, Code(pending.clientId, pending.params, login.userId, login.session, now + CODE_TTL), now);
    }
  }

  lemma DecideAlike(a: Server, b: Server, r: RequestId, login: Option<LoginId>, verdict: Verdict, c: CodeId, now: Time)
    requires Alike(a, b, now)
    ensures P.Decide(a, r, login, verdict, c, now).1 == QuietDecide(b, r, login, verdict, c, now).1
    ensures Alike(P.Decide(a, r, login, verdict, c, now).0, QuietDecide(b, r, login, verdict, c, now).0, now)
  {
    GetRequestAlike(a, b, r, now);
    var a1 := P.GetRequest(a, r, now).0;
    hide Alike;
    if SeeRequest(b, r, now).Some? && login.Some? {
      GetLoginAlike(a1, b, login.value, now);
      if SeeLogin(b, login.value, now).Some? && verdict != Unreadable {
        DecideTakenAlike(a, b, r, login.value, verdict, c, now);
      }
    }
  }

  // --- Every operation, every run ---

  lemma RestartAlike(a: Server, b: Server, grantTtl: int, now: Time)
    requires Alike(a, b, now)
    ensures Alike(P.Restart(a, grantTtl), P.Restart(b, grantTtl), now)
  {
    RowsFrame(a, P.Restart(a, grantTtl), b, P.Restart(b, grantTtl), now);
    hide AlikeRows;
  }

  lemma RegisterAlike(a: Server, b: Server, clientId: ClientId, reg: Registration, now: Time)
    requires Alike(a, b, now)
    ensures P.Register(a, clientId, reg).1 == P.Register(b, clientId, reg).1
    ensures Alike(P.Register(a, clientId, reg).0, P.Register(b, clientId, reg).0, now)
  {
    hide P.SafeRedirect, P.UriTexts, AlikeRows, AlikeStores;
    var a', b' := P.Register(a, clientId, reg).0, P.Register(b, clientId, reg).0;
    assert a' == a.(clients := a'.clients) && b' == b.(clients := b'.clients) && a'.clients == b'.clients;
    hide P.Register;
    RowsFrame(a, a', b, b', now);
    StoresFrame(a, a', b, b', now);
    hide AlikeRows, AlikeStores;
  }

  /** What `Enabled` asks of an operation, with only the used names at hand. */
  predicate Sensible(op: Op, used: set<nat>, now: Time) {
    match op
    case Wait(until) => until >= now
    case ExchangeCode(_, _, names, later) => names.grant !in used && now <= later.checked <= later.issued
    case ExchangeRefresh(_, _, _, _, _, later) => now <= later.checked <= later.issued
    case _ => true
  }

  lemma PerformAlike(a: Server, b: Server, op: Op, used: set<nat>, now: Time)
    requires Alike(a, b, now) && Known(a, used) && Known(b, used) && Sensible(op, used, now)
    ensures Perform(a, op, now).1 == Quiet(b, op, now).1
    ensures Alike(Perform(a, op, now).0, Quiet(b, op, now).0, NextNow(op, now))
  {
    hide Alike, Known, P.Register, P.Authorize, P.Decide, P.SaveLogin, P.ExchangeCode, P.ExchangeRefresh, P.RevokeToken,
      P.LoadRefresh, P.LoadSession, P.BeginRefresh, P.SaveSession;
    hide QuietAuthorize, QuietDecide, QuietSaveLogin, QuietExchangeCode, QuietRevokeToken, QuietLoadRefresh;
    AlikeAfterCleanup(a, b, now);
    match op
    case Wait(until) => AlikeLater(a, b, now, until);
    case Register(clientId, reg) => RegisterAlike(a, b, clientId, reg, now);
    case Authorize(clientId, req, r) => AuthorizeAlike(a, b, clientId, req, r, now);
    case ShowRequest(r) => GetRequestAlike(a, b, r, now);
    case ShowLogin(l) => GetLoginAlike(a, b, l, now);
    case SaveLogin(previous, session, l) => SaveLoginAlike(a, b, previous, session, l, now);
    case DropLogin(l) => DropLoginAlike(a, b, l, now);
    case Decide(r, login, verdict, c) => DecideAlike(a, b, r, login, verdict, c, now);
    case ShowCode(c, clientId) => ShowCodeAlike(P.Cleanup(a, now), b, c, clientId, now);
    case ExchangeCode(clientId, c, names, later) => ExchangeCodeAlike(a, b, clientId, c, names, used, now, later);
    case LoadAccess(t) => FindAlike(P.Cleanup(a, now), b, t, Access, now);
    case LoadRefresh(clientId, t) => LoadRefreshAlike(a, b, clientId, t, used, now);
    case ExchangeRefresh(clientId, t, scopes, access, refresh, later) =>
      ExchangeRefreshAlike(a, b, clientId, t, scopes, access, refresh, used, now, later);
    case RevokeToken(clientId, t) => RevokeTokenAlike(a, b, clientId, t, used, now);
    case RevokeGrant(g) => RevokeAlike(a, b, g, used, now);
    case LoadSession(g) => LoadSessionAlike(a, b, g, used, now);
    case BeginRefresh(g) => BeginRefreshAlike(a, b, g, used, now);
    case SaveSession(g, session) => SaveSessionAlike(a, b, g, session, used, now);
    case Cleanup =>
    case Restart(grantTtl) => RestartAlike(a, b, grantTtl, now);
  }

  lemma SameTokensKnown(s: Server, s': Server, used: set<nat>, more: set<nat>)
    requires Known(s, used) && s'.tokens == s.tokens
    ensures Known(s', used + more)
  {
  }

  /** Without an exchange, the token rows after an operation are those before it or those a
      cleanup leaves. */
  lemma PerformTokens(s: Server, op: Op, now: Time)
    requires !op.ExchangeCode? && !op.ExchangeRefresh? && !op.RevokeToken?
    ensures Perform(s, op, now).0.tokens == s.tokens || Perform(s, op, now).0.tokens == P.Cleanup(s, now).tokens
    ensures Quiet(s, op, now).0.tokens == s.tokens
  {
    hide *;
    if op.SaveSession? || op.BeginRefresh? || op.LoadSession? || op.RevokeGrant? {
      SessionTokens(s, op, now);
    } else {
      QuietTokens(s, op, now);
      PlainTokens(s, op, now);
    }
  }

  lemma PlainTokens(s: Server, op: Op, now: Time)
    requires !op.ExchangeCode? && !op.ExchangeRefresh? && !op.RevokeToken?
    requires !op.SaveSession? && !op.BeginRefresh? && !op.LoadSession? && !op.RevokeGrant?
    ensures Perform(s, op, now).0.tokens == s.tokens || Perform(s, op, now).0.tokens == P.Cleanup(s, now).tokens
  {
    hide *;
    if CleansUp(op) { SweptTokens(s, op, now); } else { StoreTokens(s, op, now); }
  }

  predicate CleansUp(op: Op) {
    op.Authorize? || op.ShowCode? || op.LoadAccess? || op.LoadRefresh? || op.Cleanup?
  }

  lemma SweptTokens(s: Server, op: Op, now: Time)
    requires CleansUp(op)
    ensures Perform(s, op, now).0.tokens == s.tokens || Perform(s, op, now).0.tokens == P.Cleanup(s, now).tokens
  {
    hide P.Cleanup, P.LiveRequests, P.RequestedScopes, P.ValidChallenge;
  }

  lemma StoreTokens(s: Server, op: Op, now: Time)
    requires !op.ExchangeCode? && !op.ExchangeRefresh? && !op.RevokeToken? && !CleansUp(op)
    requires !op.SaveSession? && !op.BeginRefresh? && !op.LoadSession? && !op.RevokeGrant?
    ensures Perform(s, op, now).0.tokens == s.tokens
  {
    hide P.Cleanup, P.SafeRedirect, P.UriTexts, P.LiveLogins, P.LiveCodes, P.LiveRequests, P.Without;
  }

  lemma QuietTokens(s: Server, op: Op, now: Time)
    requires !op.ExchangeCode? && !op.ExchangeRefresh? && !op.RevokeToken?
    requires !op.SaveSession? && !op.BeginRefresh? && !op.LoadSession? && !op.RevokeGrant?
    ensures Quiet(s, op, now).0.tokens == s.tokens
  {
    hide P.Cleanup;
  }

  lemma SessionTokens(s: Server, op: Op, now: Time)
    requires op.SaveSession? || op.BeginRefresh? || op.LoadSession? || op.RevokeGrant?
    ensures Perform(s, op, now).0.tokens == s.tokens && Quiet(s, op, now) == Perform(s, op, now)
  {
  }

  lemma RevokeTokenKnown(s: Server, clientId: ClientId, t: Token, used: set<nat>, now: Time)
    requires Known(s, used)
    ensures Known(P.RevokeToken(s, clientId, t, now), used) && Known(QuietRevokeToken(s, clientId, t, now), used)
  {
    hide Known;
    var s1 := P.Cleanup(s, now);
    LoadRefreshKnown(s, clientId, t, used, now);
    LoadRefreshKnown(s1, clientId, t, used, now);
    var (s2, token) := if P.LoadAccess(s, t, now).1.Some? then P.LoadAccess(s, t, now)
      else P.LoadRefresh(s1, clientId, t, now);
    if token.Some? { RevokeKnown(s2, token.value.grantId, used, now); }
    var access := P.FindToken(s, t, Access, now);
    var (s3, token') := if access.Some? then (s, access) else QuietLoadRefresh(s, clientId, t, now);
    if token'.Some? { RevokeKnown(s3, token'.value.grantId, used, now); }
  }

  lemma AddedIsKnown(s: Server, s': Server, used: set<nat>, access: Token, accessRow: TokenRow, refresh: Token,
          refreshRow: TokenRow)
    requires Known(s, used) && s'.tokens == s.tokens[access := accessRow][refresh := refreshRow]
    requires accessRow.grantId in used && refreshRow.grantId in used
    ensures Known(s', used)
  {
  }

  lemma IssuedIsKnown(s: Server, g: GrantId, scopes: set<Scope>, access: Token, refresh: Token, used: set<nat>,
          at: P.Readings)
    requires Known(s, used) && g in used
    ensures
      var r := P.Issue(s, g, scopes, access, refresh, at);
      r.Ok? ==> Known(r.value.0, used)
  {
    hide Known;
    if P.Active(s, g, at.checked) {
      var limit := s.grants[g].expiresAt;
      AddedIsKnown(s, P.Issue(s, g, scopes, access, refresh, at).value.0, used,
                   access, TokenRow(Access, g, scopes, Min(at.issued + ACCESS_TTL, limit), None), refresh,
                     TokenRow(Refresh, g, scopes, limit, None));
    }
  }

  lemma ExchangeCodeKnown(s: Server, clientId: ClientId, c: CodeId, names: P.Fresh, used: set<nat>, now: Time,
          later: P.Readings)
    requires Known(s, used)
    ensures
      var used' := used + {names.grant, names.access, names.refresh};
      Known(P.ExchangeCode(s, clientId, c, names, now, later).0, used') &&
        Known(QuietExchangeCode(s, clientId, c, names, now, later).0, used')
  {
    var used' := used + {names.grant, names.access, names.refresh};
    var a1, b1 := P.ConsumeCode(s, c, clientId, now).0, s.(codes := P.Without(s.codes, c));
    SameTokensKnown(s, s, used, used');
    SameTokensKnown(s, a1, used, used');
    SameTokensKnown(s, b1, used, used');
    assert used + used' == used';
    var code := QuietGetCode(s, c, clientId, now);
    if code.Some? {
      var scopes := code.value.params.scopes;
      var a2, b2 := a1.(grants := a1.grants[names.grant := P.NewGrant(a1, code.value, now)]),
        b1.(grants := b1.grants[names.grant := P.NewGrant(b1, code.value, now)]);
      SameTokensKnown(a1, a2, used', {});
      SameTokensKnown(b1, b2, used', {});
      assert used' + {} == used';
      hide Known;
      IssuedIsKnown(a2, names.grant, scopes, names.access, names.refresh, used', later);
      IssuedIsKnown(b2, names.grant, scopes, names.access, names.refresh, used', later);
    }
  }

  lemma ExchangeRefreshKnown(s: Server, clientId: ClientId, t: Token, scopes: set<Scope>, access: Token, refresh: Token,
          used: set<nat>, now: Time, later: P.Readings)
    requires Known(s, used)
    ensures Known(P.ExchangeRefresh(s, clientId, t, scopes, access, refresh, now, later).0, used)
  {
    var found := P.FindToken(s, t, Refresh, now);
    if found.Some? {
      var g := found.value.grantId;
      assert g == s.tokens[t].grantId && g in used;
      SameTokensKnown(s, P.RevokeGrant(s, g, now), used, {});
      assert used + {} == used;
      assert Known(P.Consume(s, t, now), used);
      hide Known;
      IssuedIsKnown(P.Consume(s, t, now), g, scopes, access, refresh, used, later);
    }
  }

  lemma KnownMore(s: Server, used: set<nat>, more: set<nat>)
    requires Known(s, used)
    ensures Known(s, used + more)
  {
  }

  lemma PerformKnown(s: Server, op: Op, used: set<nat>, now: Time)
    requires Known(s, used)
    ensures Known(Perform(s, op, now).0, used + NewNames(op)) && Known(Quiet(s, op, now).0, used + NewNames(op))
  {
    hide Known;
    match op
    case ExchangeCode(clientId, c, names, later) => ExchangeCodeKnown(s, clientId, c, names, used, now, later);
    case ExchangeRefresh(clientId, t, scopes, access, refresh, later) =>
      ExchangeRefreshKnown(s, clientId, t, scopes, access, refresh, used, now, later);
      KnownMore(P.ExchangeRefresh(s, clientId, t, scopes, access, refresh, now, later).0, used, {access, refresh});
    case RevokeToken(clientId, t) =>
      RevokeTokenKnown(s, clientId, t, used, now);
      assert used + {} == used;
    case _ =>
      SweptIsKnown(s, used, now);
      PerformTokens(s, op, now);
      hide Perform, Quiet;
      var s' := Perform(s, op, now).0;
      SameTokensKnown(s, Quiet(s, op, now).0, used, NewNames(op));
      SameTokensKnown(if s'.tokens == s.tokens then s else P.Cleanup(s, now), s', used, NewNames(op));
  }

  predicate AllSensible(ops: seq<Op>, used: set<nat>, now: Time)
    decreases |ops|
  {
    ops == [] || (Sensible(ops[0], used, now) && AllSensible(ops[1..], used + NewNames(ops[0]), NextNow(ops[0], now)))
  }

  /** The answers of the real provider to everything but the explicit cleanups. */
  function Answers(s: Server, ops: seq<Op>, now: Time): seq<Answer>
    decreases |ops|
  {
    if ops == [] then []
    else
      var (s', answer) := Perform(s, ops[0], now);
      (if ops[0].Cleanup? then [] else [answer]) + Answers(s', ops[1..], NextNow(ops[0], now))
  }

  function QuietAnswers(s: Server, ops: seq<Op>, now: Time): seq<Answer>
    decreases |ops|
  {
    if ops == [] then []
    else [Quiet(s, ops[0], now).1] + QuietAnswers(Quiet(s, ops[0], now).0, ops[1..], NextNow(ops[0], now))
  }

  function WithoutCleanups(ops: seq<Op>): seq<Op> {
    if ops == [] then []
    else if ops[0].Cleanup? then WithoutCleanups(ops[1..])
    else [ops[0]] + WithoutCleanups(ops[1..])
  }

  lemma {:induction false} AlikeAnswers(a: Server, b: Server, ops: seq<Op>, used: set<nat>, now: Time)
    requires Alike(a, b, now) && Known(a, used) && Known(b, used) && AllSensible(ops, used, now)
    ensures Answers(a, ops, now) == QuietAnswers(b, WithoutCleanups(ops), now)
    decreases |ops|
  {
    if ops != [] {
      PerformAlike(a, b, ops[0], used, now);
      PerformKnown(a, ops[0], used, now);
      PerformKnown(b, ops[0], used, now);
      assert ops[0].Cleanup? ==> Quiet(b, ops[0], now).0 == b;
      hide Alike, Known, Perform, Quiet;
      AlikeAnswers(Perform(a, ops[0], now).0, Quiet(b, ops[0], now).0, ops[1..], used + NewNames(ops[0]),
        NextNow(ops[0], now));
    }
  }

  /** Answer for answer, the provider that cleans up, at any points whatever, agrees with the
      one that never does. */
  lemma CleanupIsInvisible(s: Server, ops: seq<Op>, used: set<nat>, now: Time)
    requires Known(s, used) && AllSensible(ops, used, now)
    ensures Answers(s, ops, now) == QuietAnswers(s, WithoutCleanups(ops), now)
  {
    AlikeReflexive(s, now);
    AlikeAnswers(s, s, ops, used, now);
  }

  /** In particular from every state the provider can reach. */
  lemma CleanupIsInvisibleInEveryRun(m: State, ops: seq<Op>)
    requires G.Reachable(m) && AllSensible(ops, m.h.used, m.now)
    ensures Answers(m.s, ops, m.now) == QuietAnswers(m.s, WithoutCleanups(ops), m.now)
  {
    G.ReachableInv(m);
    ReachableIsKnown(m);
    CleanupIsInvisible(m.s, ops, m.h.used, m.now);
  }

  lemma ReachableIsKnown(m: State)
    requires Inv(m)
    ensures Known(m.s, m.h.used)
  {
    forall t | t in m.s.tokens ensures m.s.tokens[t].grantId in m.h.used {
      assert RowOk(m.h, m.s.grants, t, m.s.tokens[t]);
      assert GrantOk(m.h, m.s.resource, m.s.tokens[t].grantId, m.s.grants[m.s.tokens[t].grantId]);
    }
  }
}
