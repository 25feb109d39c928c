/** What the token endpoint hands out is what the client gets to use: the tokens of a reply load as
    what they are called, for their grant, exactly as long as they should. */
module TokenTheorems {
  import opened Basics
  import opened OAuthTypes
  import opened Machine
  import opened Invariant
  import opened Preservation
  import opened GrantTheorems
  import P = ProviderModel

  /** Stored, not revoked and not run out. */
  predicate Alive(m: State, g: GrantId) {
    g in m.s.grants && m.s.grants[g].revokedAt.None? && m.now < m.s.grants[g].expiresAt
  }

  lemma AliveIsActive(m: State, g: GrantId)
    requires Inv(m)
    ensures Alive(m, g) <==> P.Active(m.s, g, m.now)
  {
    assert g in m.s.grants ==> GrantOk(m.h, m.s.resource, g, m.s.grants[g]);
  }

  /** The pair in a reply: at any time from its issue on, one loads as the grant's access token for
      300 seconds at most and the other as its refresh token, while the grant has not run out. */
  ghost predicate Works(s: Server, reply: Tokens, g: GrantId, grant: Grant, scopes: set<Scope>, issued: Time) {
    forall at {:trigger P.FindToken(s, reply.access, Access, at)} {:trigger P.FindToken(s, reply.refresh, Refresh,
      at)} ::
      at >= issued ==>
        P.FindToken(s, reply.access, Access, at) ==
          (if at < issued + 300 && at < grant.expiresAt
           then Some(TokenInfo(grant.clientId, grant.subject, scopes, Min(issued + 300, grant.expiresAt), g, false))
           else None) &&
        P.FindToken(s, reply.refresh, Refresh, at) ==
          (if at < grant.expiresAt
           then Some(TokenInfo(grant.clientId, grant.subject, scopes, grant.expiresAt, g, false))
           else None)
  }

  lemma IssuedPairWorks(s: Server, g: GrantId, scopes: set<Scope>, access: Token, refresh: Token, at: P.Readings)
    requires P.Issue(s, g, scopes, access, refresh, at).Ok? && access != refresh
    ensures
      var (s', reply) := P.Issue(s, g, scopes, access, refresh, at).value;
      g in s.grants && Works(s', reply, g, s.grants[g], scopes, at.issued) && reply.scopes == scopes &&
      reply.access == access && reply.refresh == refresh
  {
  }

  // --- Refreshing ---

  lemma ExchangeOwner(s: Server, clientId: ClientId, t: Token, scopes: set<Scope>, access: Token, refresh: Token,
          now: Time, later: P.Readings)
    requires P.ExchangeRefresh(s, clientId, t, scopes, access, refresh, now, later).1.Ok?
    ensures
      var (s', answer) := P.ExchangeRefresh(s, clientId, t, scopes, access, refresh, now, later);
      t in s.tokens && s.tokens[t].grantId in s.grants &&
      var g := s.tokens[t].grantId;
      s.grants[g].clientId == clientId && s'.grants == s.grants && scopes <= s.tokens[t].scopes &&
      P.Issue(P.Consume(s, t, now), g, scopes, access, refresh, later) == Ok((s', answer.value))
  {
  }

  /** A refresh that succeeds hands out a working pair for the same grant, client and user with the
      scopes asked for; both are new, and the refresh token is now the grant's newest. */
  lemma RefreshHandsOutTokens(m: State, op: Op)
    requires Reachable(m) && Exchanges(m, op)
    ensures
      var (m', reply) := (Do(m, op), Perform(m.s, op, m.now).1.tokens.value);
      op.t in m.s.tokens && m.s.tokens[op.t].grantId in m.s.grants &&
      var g := m.s.tokens[op.t].grantId;
      m.s.grants[g].clientId == op.clientId && op.scopes <= m.s.tokens[op.t].scopes && m'.s.grants == m.s.grants &&
      reply.scopes == op.scopes && Works(m'.s, reply, g, m.s.grants[g], op.scopes, op.later.issued) &&
      reply.access !in m.h.tokens && reply.refresh !in m.h.tokens &&
      g in m.h.issued && g in m'.h.issued && m'.h.issued[g] == m.h.issued[g] + [reply.refresh]
  {
    ReachableInv(m);
    NewAreUnrecorded(m, op);
    hide Inv, Works, P.Issue, P.ExchangeRefresh, Record, Reachable;
    assert Enabled(m, op) && op.access != op.refresh;
    ExchangedFacts(m.s, op.clientId, op.t, op.scopes, op.access, op.refresh, m.now, op.later);
    NewestUnconsumed(m, op.t);
    ExchangeOwner(m.s, op.clientId, op.t, op.scopes, op.access, op.refresh, m.now, op.later);
    IssuedPairWorks(P.Consume(m.s, op.t, m.now), m.s.tokens[op.t].grantId, op.scopes, op.access, op.refresh, op.later);
    RotationRecordedFor(m, op);
  }

  lemma NewAreUnrecorded(m: State, op: Op)
    requires Inv(m) && Enabled(m, op)
    ensures op.ExchangeRefresh? ==> op.access !in m.h.tokens && op.refresh !in m.h.tokens
    ensures op.ExchangeCode? ==>
      op.names.access !in m.h.tokens && op.names.refresh !in m.h.tokens && op.names.grant !in m.h.grants
  {
  }

  // --- The first exchange ---

  /** A code exchange that succeeds creates one active grant: for the code's client, user and
      session, running out with the session or the configured life, whichever is first. Its pair
      works and has the scopes of the code. */
  lemma CodeHandsOutTokens(m: State, op: Op)
    requires Reachable(m) && CreatesGrant(m, op)
    ensures
      var (m', reply) := (Do(m, op), Perform(m.s, op, m.now).1.tokens.value);
      op.c in m.s.codes &&
      var g, code := op.names.grant, m.s.codes[op.c];
      code.clientId == op.clientId && code.expiresAt > m.now &&
      TokenExpiry(code.session.refresh, RefreshClaim).Some? &&
      var life := Min(m.now + m.s.grantTtl, TokenExpiry(code.session.refresh, RefreshClaim).value);
      var grant := Grant(code.clientId, m.s.resource, code.subject, code.session.workspaceId, code.session, life, None,
        false);
      g !in m.h.grants && m'.s.grants == m.s.grants[g := grant] && reply.scopes == code.params.scopes &&
      Works(m'.s, reply, g, grant, code.params.scopes, op.later.issued) &&
      reply.access !in m.h.tokens && reply.refresh !in m.h.tokens &&
      g in m'.h.issued && m'.h.issued[g] == [reply.refresh]
  {
    ReachableInv(m);
    NewAreUnrecorded(m, op);
    assert Enabled(m, op) && op.names.access != op.names.refresh;
    CodeAnswer(m.s, op, m.now);
    CodeTokens(m.s, op.clientId, op.c, op.names, m.now, op.later);
    ExchangeCodeShape(m, op.clientId, op.c, op.names, op.later);
    var names := {op.names.grant, op.names.access, op.names.refresh};
    IssuedGrantRecorded(m.h.(used := m.h.used + names), m.s, op.c, op.names, m.now, op.later.issued);
    hide *;
    CodeIssues(m.s, op.clientId, op.c, op.names, m.now, op.later);
  }

  lemma CodeTokens(s: Server, clientId: ClientId, c: CodeId, names: P.Fresh, now: Time, later: P.Readings)
    requires P.ExchangeCode(s, clientId, c, names, now, later).1.Ok? && names.access != names.refresh
    ensures
      var (s', reply) := (P.ExchangeCode(s, clientId, c, names, now, later).0,
                          P.ExchangeCode(s, clientId, c, names, now, later).1.value);
      c in s.codes &&
      var code := s.codes[c];
      code.clientId == clientId && code.expiresAt > now && TokenExpiry(code.session.refresh, RefreshClaim).Some? &&
      var life := Min(now + s.grantTtl, TokenExpiry(code.session.refresh, RefreshClaim).value);
      var grant := Grant(clientId, s.resource, code.subject, code.session.workspaceId, code.session, life, None, false);
      s'.grants == s.grants[names.grant := grant] && reply.scopes == code.params.scopes &&
      Works(s', reply, names.grant, grant, code.params.scopes, later.issued) &&
      reply.access == names.access && reply.refresh == names.refresh
  {
    CodeIssues(s, clientId, c, names, now, later);
    var (s1, code) := (P.ConsumeCode(s, c, clientId, now).0, s.codes[c]);
    var s2 := s1.(grants := s1.grants[names.grant := P.NewGrant(s1, code, now)]);
    IssuedPairWorks(s2, names.grant, code.params.scopes, names.access, names.refresh, later);
    hide Works;
  }

  lemma CodeAnswer(s: Server, op: Op, now: Time)
    requires op.ExchangeCode?
    ensures Perform(s, op, now).1 == Issued(P.ExchangeCode(s, op.clientId, op.c, op.names, now, op.later).1)
  {
    hide P.ExchangeCode;
  }

  lemma IssuedGrantRecorded(h: History, s: Server, c: CodeId, names: P.Fresh, now: Time, later: Time)
    requires c in s.codes && TokenExpiry(s.codes[c].session.refresh, RefreshClaim).Some?
    ensures var h' := RecordGrant(h, s, c, names, now, later);
      names.grant in h'.issued && h'.issued[names.grant] == [names.refresh]
  {
  }

  lemma CodeIssues(s: Server, clientId: ClientId, c: CodeId, names: P.Fresh, now: Time, later: P.Readings)
    requires P.ExchangeCode(s, clientId, c, names, now, later).1.Ok?
    ensures
      c in s.codes && s.codes[c].expiresAt > now &&
      var code, s1 := s.codes[c], P.ConsumeCode(s, c, clientId, now).0;
      var s2 := s1.(grants := s1.grants[names.grant := P.NewGrant(s1, code, now)]);
      s1.grants == s.grants && s1.resource == s.resource && s1.grantTtl == s.grantTtl &&
      P.Issue(s2, names.grant, code.params.scopes, names.access, names.refresh, later) ==
      Ok((P.ExchangeCode(s, clientId, c, names, now, later).0,
        P.ExchangeCode(s, clientId, c, names, now, later).1.value))
  {
    hide P.Issue;
  }

  // --- When the exchanges succeed ---

  /** A refresh succeeds exactly when its token is the newest of a live grant of the client, asks
      for no more than the token has, and the grant lasts until `_issue` checks it. */
  lemma RefreshSucceedsIff(m: State, op: Op)
    requires Reachable(m) && op.ExchangeRefresh? && Enabled(m, op)
    ensures
      Exchanges(m, op) <==>
      (op.t in m.s.tokens && Unconsumed(m.s, m.s.tokens[op.t].grantId, op.t) && Alive(m, m.s.tokens[op.t].grantId) &&
       m.s.grants[m.s.tokens[op.t].grantId].clientId == op.clientId && op.scopes <= m.s.tokens[op.t].scopes &&
       op.later.checked < m.s.grants[m.s.tokens[op.t].grantId].expiresAt)
  {
    ReachableInv(m);
    if op.t in m.s.tokens {
      AliveIsActive(m, m.s.tokens[op.t].grantId);
      if Unconsumed(m.s, m.s.tokens[op.t].grantId, op.t) && m.s.tokens[op.t].grantId in m.s.grants {
        UnconsumedOutlives(m, m.s.tokens[op.t].grantId, op.t);
      }
    }
    hide Inv;
  }

  /** What a credential must look like: a refresh token of the upstream that has not run out. */
  predicate Usable(credential: Credential, now: Time) {
    credential.claims.Some? && credential.claims.value.claimType.RefreshClaim? &&
    now < credential.claims.value.exp && 0 < credential.claims.value.exp < 0x8000_0000_0000_0000
  }

  /** A code exchange succeeds exactly when the code is the client's, less than its life old and for
      this server, its session names a user and a workspace and can be refreshed, and the new grant
      lasts until `_issue` checks it. */
  lemma CodeSucceedsIff(m: State, op: Op)
    requires Reachable(m) && op.ExchangeCode? && Enabled(m, op)
    ensures !CreatesGrant(m, op) ==> Perform(m.s, op, m.now).1 == Issued(Err(InvalidGrant))
    ensures
      CreatesGrant(m, op) <==>
      (op.c in m.s.codes &&
       var code := m.s.codes[op.c];
       m.now < code.expiresAt && code.clientId == op.clientId && code.params.resource == m.s.resource &&
       code.session.userId != "" && code.session.workspaceId != "" && Usable(code.session.refresh, m.now) &&
       op.later.checked < m.now + m.s.grantTtl && op.later.checked < code.session.refresh.claims.value.exp)
  {
    ReachableInv(m);
    assert op.c in m.s.codes ==> CodeOk(m.h, op.c, m.s.codes[op.c]);
    CodeAccepted(m.s, op.clientId, op.c, op.names, m.now, op.later);
    CodeAnswer(m.s, op, m.now);
    hide Inv, P.ExchangeCode, Perform;
  }

  lemma CodeAccepted(s: Server, clientId: ClientId, c: CodeId, names: P.Fresh, now: Time, later: P.Readings)
    requires c in s.codes ==> s.codes[c].session.userId == s.codes[c].subject
    requires now <= later.checked
    ensures
      var answer := P.ExchangeCode(s, clientId, c, names, now, later).1;
      answer.Err? ==> answer == Err(InvalidGrant)
    ensures
      P.ExchangeCode(s, clientId, c, names, now, later).1.Ok? <==>
      (c in s.codes &&
       var code := s.codes[c];
       now < code.expiresAt && code.clientId == clientId && code.params.resource == s.resource &&
       code.session.userId != "" && code.session.workspaceId != "" && Usable(code.session.refresh, now) &&
       later.checked < now + s.grantTtl && later.checked < code.session.refresh.claims.value.exp)
  {
  }
}
