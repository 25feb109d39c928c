/** One tool call end to end: the request session extends the list of credentials, the client
    redacts the tool's result with that same list. */
module ToolResults {
  import opened OAuthTypes
  import opened UserSession
  import opened Provider
  import opened RequestSession
  import opened Redaction
  import opened RedactionTheorems
  import M = Machine

  /** The list as the client sees it. Credentials are numbers in the model of the session; which
      strings they are is a parameter. */
  function Texts(credentials: seq<Secret>, text: Secret -> string): seq<string> {
    seq(|credentials|, i requires 0 <= i < |credentials| => text(credentials[i]))
  }

  /** A credential redaction can hide whatever else is on the list. */
  predicate CanBeHidden(word: string) {
    word != "" && BracketFree(word) && !Contains("redacted", word)
  }

  /** The credential is in no result that is redacted with a list it is on. */
  lemma ListedIsHidden(credentials: seq<Secret>, text: Secret -> string, c: Secret, v: Value)
    requires c in credentials && CanBeHidden(text(c))
    ensures Free(Sanitize(v, Texts(credentials, text)), text(c))
  {
    hide Free, Sanitize, BracketFree, Contains;
    var k :| 0 <= k < |credentials| && credentials[k] == c;
    SecretIsRemovedIff(Texts(credentials, text), k);
  }

  /** What can happen to a call, in any order: its own uninterrupted stretches, and another call of
      the same grant storing credentials it was given. */
  datatype Stretch =
    | Check
    | Verify
    | RefreshAnswered(refreshReply: RefreshReply)
    | MeAnswered(refreshed: bool, meReply: MeReply)
    | Elsewhere(stored: RelaySession)

  function Received(stretch: Stretch): set<Secret> {
    if stretch.RefreshAnswered? && stretch.refreshReply.Rotated?
    then {Upstream(stretch.refreshReply.access), Upstream(stretch.refreshReply.refresh)}
    else {}
  }

  method Continue(call: DelegatedRequestSession, stretch: Stretch, now: Time)
    requires call.Valid()
    modifies call, call.provider, call.provider.authorizationStore, call.provider.loginStore,
             call.provider.codeStore, call.provider.database
    ensures call.Valid() && old(call.handled) + Received(stretch) <= call.handled
    ensures stretch.Verify? ==>
      var loaded := Loaded(M.State(old(call.provider.View()), M.Init(0, 1, 0).h, now), call.token, call.grantId);
      loaded.Some? ==> BothOf(loaded.value) <= call.handled
  {
    ghost var m := M.State(call.provider.View(), M.Init(0, 1, 0).h, now);
    match stretch {
      case Check => var _ := call.CheckGrant(m, now);
      case Verify => var _ := call.StartVerify(m, now);
      case RefreshAnswered(reply) => var _ := call.FinishRefresh(m, reply, now);
      case MeAnswered(refreshed, reply) => var _ := call.FinishVerify(m, refreshed, reply, now);
      case Elsewhere(stored) => var _ := call.provider.SaveSession(call.grantId, stored, now);
    }
  }

  /** What the tool returned, as the caller gets it. */
  method Show(call: DelegatedRequestSession, result: Value, text: Secret -> string) returns (shown: Value)
    requires call.Valid()
    ensures forall c :: c in call.handled && CanBeHidden(text(c)) ==> Free(shown, text(c))
  {
    hide Free, Sanitize, CanBeHidden;
    var client := new RemoteRelayClient(Texts(call.credentials, text));
    shown := client.SanitizeResult(result);
    forall c | c in call.handled && CanBeHidden(text(c)) ensures Free(shown, text(c)) {
      ListedIsHidden(call.credentials, text, c, result);
    }
  }

  /** A whole call: however its stretches follow one another and whatever the upstream answers, the
      result shows none of the credentials the call was made with, loaded, sent or received. */
  method CallTool(provider: RelayOAuthProvider, grantId: GrantId, token: Token, session: RelaySession,
                  stretches: seq<(Stretch, Time)>, result: Value, text: Secret -> string)
    returns (shown: Value, ghost handled: set<Secret>)
    requires provider.database.saved.None?
    modifies provider, provider.authorizationStore, provider.loginStore, provider.codeStore, provider.database
    ensures {Bearer(token)} + BothOf(session) <= handled
    ensures forall i :: 0 <= i < |stretches| ==> Received(stretches[i].0) <= handled
    ensures forall c :: c in handled && CanBeHidden(text(c)) ==> Free(shown, text(c))
  {
    hide Free, CanBeHidden, Received, BothOf, Loaded;
    var call := new DelegatedRequestSession(provider, grantId, token, session);
    for i := 0 to |stretches|
      invariant call.Valid() && call.provider == provider && fresh(call)
      invariant {Bearer(token)} + BothOf(session) <= call.handled
      invariant forall j :: 0 <= j < i ==> Received(stretches[j].0) <= call.handled
    {
      Continue(call, stretches[i].0, stretches[i].1);
    }
    handled := call.handled;
    shown := Show(call, result, text);
  }
}
