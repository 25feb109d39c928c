/** One run of the provider, from the empty database to a grant: the states the theorems speak of
    exist, and so does the input for which the reported lifetime is zero. */
module SampleRun {
  import opened Basics
  import opened OAuthTypes
  import opened Machine
  import opened Evolution
  import opened GrantTheorems
  import P = ProviderModel

  const URI := RedirectUri("https://client.example/callback", "https", "client.example", "", "", "")
  const CHALLENGE := "AAAAAAAAAAAAAAAAAAAAAAAAAAAAAAAAAAAAAAAAAAA"
  const SESSION := RelaySession(
    Credential(1, Some(Claims(AccessClaim, 900))), Credential(2, Some(Claims(RefreshClaim, 90000))), "user",
      "workspace")
  const PARAMS := Params({"relay:read"}, URI.text, CHALLENGE, 7)

  const REGISTER: Op := Register(1, Registration(SCOPES, GRANT_TYPES, [URI]))
  const LOG_IN: Op := SaveLogin(None, SESSION, 2)
  const AUTHORIZE: Op := Authorize(1, AuthorizationRequest(Some({"relay:read"}), URI.text, CHALLENGE, 7), 3)
  const APPROVE: Op := Decide(3, Some(2), Approve, 4)
  const EXCHANGE: Op := ExchangeCode(1, 4, P.Fresh(5, 6, 7), P.Readings(0, 0))

  const START := Init(7, 3600, 0)

  /** The names generated so far and the settings, at time 0. */
  predicate At(m: State, used: set<nat>, lineage: set<nat>) {
    m.h.used == used && m.h.lineage.Keys == lineage && m.now == 0 && m.s.resource == 7 && m.s.grantTtl == 3600
  }

  lemma Registers(m: State)
    requires At(m, {}, {}) && m.s.clients == map[]
    ensures At(Step(m, REGISTER), {}, {}) && Step(m, REGISTER).s.clients == map[1 := Client(SCOPES, {URI.text})]
  {
    hide RecordSave, RecordDecision, RecordGrant, RecordRotation, RecordLogin, RecordRequest;
    assert [URI][0] == URI;
    assert P.UriTexts([URI]) == {URI.text};
  }

  lemma LogsIn(m: State)
    requires At(m, {}, {}) && 1 in m.s.clients
    ensures At(Step(m, LOG_IN), {2}, {2}) && Step(m, LOG_IN).s.clients == m.s.clients
    ensures 2 in Step(m, LOG_IN).s.logins && Step(m, LOG_IN).s.logins[2] == Login("user", SESSION, 600)
  {
    hide RecordSave, RecordDecision, RecordGrant, RecordRotation, RecordRequest;
  }

  lemma ChallengeIsValid()
    ensures P.ValidChallenge(CHALLENGE)
  {
  }

  lemma Authorizes(m: State)
    requires At(m, {2}, {2}) && 1 in m.s.clients && m.s.clients[1] == Client(SCOPES, {URI.text})
    requires 2 in m.s.logins && m.s.logins[2] == Login("user", SESSION, 600)
    ensures At(Step(m, AUTHORIZE), {2, 3}, {2}) && 2 in Step(m, AUTHORIZE).s.logins &&
      Step(m, AUTHORIZE).s.logins[2] == m.s.logins[2]
    ensures 3 in Step(m, AUTHORIZE).s.requests && Step(m, AUTHORIZE).s.requests[3] == Pending(1, PARAMS, 300)
  {
    hide RecordSave, RecordDecision, RecordGrant, RecordRotation, RecordLogin;
    hide P.ValidChallenge;
    ChallengeIsValid();
    assert {"relay:read"} <= SCOPES * SCOPES;
  }

  lemma Approves(m: State)
    requires At(m, {2, 3}, {2}) && 2 in m.s.logins && m.s.logins[2] == Login("user", SESSION, 600)
    requires 3 in m.s.requests && m.s.requests[3] == Pending(1, PARAMS, 300)
    ensures At(Step(m, APPROVE), {2, 3, 4}, {2})
    ensures 4 in Step(m, APPROVE).s.codes && Step(m, APPROVE).s.codes[4] == Code(1, PARAMS, "user", SESSION, 60)
  {
    hide RecordSave, RecordGrant, RecordRotation, RecordLogin, RecordRequest;
  }

  lemma Exchanges(m: State)
    requires At(m, {2, 3, 4}, {2}) && 4 in m.s.codes && m.s.codes[4] == Code(1, PARAMS, "user", SESSION, 60)
    ensures At(Step(m, EXCHANGE), {2, 3, 4, 5, 6, 7}, {2})
    ensures 5 in Step(m, EXCHANGE).s.grants
    ensures Step(m, EXCHANGE).s.grants[5] == Grant(1, 7, "user", "workspace", SESSION, 3600, None, false)
  {
    hide RecordSave, RecordDecision, RecordRotation, RecordLogin, RecordRequest;
  }

  const END := Step(Step(Step(Step(Step(START, REGISTER), LOG_IN), AUTHORIZE), APPROVE), EXCHANGE)

  lemma RunCons(m: State, op: Op, ops: seq<Op>)
    ensures Run(m, [op] + ops) == Run(Step(m, op), ops)
  {
    hide Step;
    assert ([op] + ops)[1..] == ops;
  }

  lemma RunsToEnd()
    ensures Run(START, [REGISTER] + ([LOG_IN] + ([AUTHORIZE] + ([APPROVE] + ([EXCHANGE] + []))))) == END
  {
    hide Step, Run, Init;
    RunCons(START, REGISTER, [LOG_IN] + ([AUTHORIZE] + ([APPROVE] + ([EXCHANGE] + []))));
    RunCons(Step(START, REGISTER), LOG_IN, [AUTHORIZE] + ([APPROVE] + ([EXCHANGE] + [])));
    RunCons(Step(Step(START, REGISTER), LOG_IN), AUTHORIZE, [APPROVE] + ([EXCHANGE] + []));
    RunCons(Step(Step(Step(START, REGISTER), LOG_IN), AUTHORIZE), APPROVE, [EXCHANGE] + []);
    RunCons(Step(Step(Step(Step(START, REGISTER), LOG_IN), AUTHORIZE), APPROVE), EXCHANGE, []);
    RunEmpty(END);
  }

  /** The run leads to an active grant. */
  lemma GrantIsReachable()
    ensures Reachable(END) && END.h.used == {2, 3, 4, 5, 6, 7} && END.now == 0
    ensures 5 in END.s.grants && P.Active(END.s, 5, END.now)
  {
    RunsToEnd();
    assert START == Init(7, 3600, 0);
    assert Reachable(END);
    hide Step;
    Registers(START);
    LogsIn(Step(START, REGISTER));
    Authorizes(Step(Step(START, REGISTER), LOG_IN));
    Approves(Step(Step(Step(START, REGISTER), LOG_IN), AUTHORIZE));
    Exchanges(Step(Step(Step(Step(START, REGISTER), LOG_IN), AUTHORIZE), APPROVE));
  }

  /** After that run the reported lifetime can be zero. */
  lemma LifetimeIsZero() returns (op: Op)
    ensures Reachable(END) && Enabled(END, op) && op.ExchangeRefresh?
    ensures var answer := Perform(END.s, op, END.now).1;
            answer.Issued? && answer.tokens.Ok? && answer.tokens.value.expiresIn == 0
  {
    GrantIsReachable();
    hide Step;
    op := LifetimeCanBeZero(END, 5, 8, 9);
  }
}
