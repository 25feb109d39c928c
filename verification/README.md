# Relay: models and proofs

Dafny models of four parts of Relay, with proofs about every run, every input and every
interleaving. `dafny verify dfyconfig.toml` checks all of it.

**The OAuth provider of the MCP server.** `ProviderModel` gives what each provider operation does to the
durable tables (clients, grants, tokens) and to the stores a restart loses (requests, logins, codes).
`Stores` and `Provider` are the classes that do it in place: dictionaries reassigned, rows updated,
transactions committed or rolled back; each method is proved to compute its function. `Machine` puts the
operations of all parties, clock ticks, explicit cleanups and restarts into one state machine with a
history. `Invariant`, `Preservation` and `Evolution` prove what every step keeps; `GrantTheorems` and
`CleanupInvisible` state what follows for whole runs: refresh-token rotation with reuse detection (section
6 of RFC 6749, section 4.14.2 of RFC 9700), linearity of the authorization flow (section 4.1.2 of RFC
6749), lifetimes, scopes, atomic exchange, and that cleanup cannot be seen. `TokenTheorems`, `TokenLife`,
`GrantLife` and `Housekeeping` say what the operations must achieve: when each succeeds, that the tokens
of a reply load as what they are called, how long, and the exact row every operation leaves of a live
grant. `FlowTheorems` and `FlowSuccess` do so for registration, consent, login and approval, up to the
theorem that the flow succeeds whatever others do in between. `SampleRun` is one run from the empty
database to a grant, so that the states spoken of exist.

**Delegated upstream sessions.** `UserSession` models tool calls as coroutines over the provider: an
atomic step is the code between two suspension points (lock, upstream reply, tool code). Locks live in a
weak table and may vanish and be recreated; calls may be cancelled, replies may be lost, other parties may
revoke, and the process may crash and restart at any step. `RequestSession` is the object behind one call,
method by method. `SessionSafety`, `SessionInvariant`, `SessionTheorems` and `SessionFatal` prove mutual
exclusion per grant, that each upstream refresh credential is posted at most once, that every upstream
call starts on a live grant, and that an interrupted refresh is final. `SessionOutcomes` and
`SystemOutcomes` say how every stretch and every answer of the upstream ends, and that a refusal ends the
grant for good. `ToolResults` joins the calls to the redactor: over any sequence of stretches of a call, its
result shows no credential that the call was made with, loaded, sent or received, given that tokens have
no brackets and are no part of the word "redacted".

**The payload viewer.** `PayloadLexer` is the regular expression as a leftmost scan over UTF-16 code
units, `PayloadTokens` the loop of `payloadTokens` and its windows, `PayloadSections` the paging,
`PayloadJson` a printer for `JSON.stringify(value, null, 2)` (section 25.5.2 of ECMA-262) and
`PayloadRoundTrip` the proof that the tokens say exactly what the payload holds. `PayloadMatches` relates
the scan to the pattern as a whole and `PayloadLayout` pins brackets, commas, escapes and indentation.

**Redaction and the document list.** `Redaction` and `RedactionTheorems` are the recursive redactor of
tool results; `SingleSecret` has the exact conditions for lists of one secret and `RedactionMeaning` says
which keys are masked and which stretches of a text are rewritten. `DocumentListModel`, `DocumentList` and
`DocumentListTheorems` are the "latest snapshot wins" protocol of the document list: a sequence number, a
promise chain and invalidation by mutations. `DocumentListOutcomes` has what each event does to the
screen, and that the chain has no dead end.

Where a promise is false of the code the condition is exact. A bracket-free secret is removed from every
result if and only if it is not part of the word "redacted" (`SecretIsRemovedIff`, and
`ShortSecretSurvives` for an input that shows the failure). One secret of any kind is removed if and only
if it `StaysAway` from the marker (`OneSecretIsRemovedIff`, `OneSecretIsIdempotentIff`); in company the
condition is another (`CompanyDecides`), and for whole lists see `RedactionIsSoundIff` and
`RedactionIsIdempotentIff`. The reported token lifetime is 1 to 300 seconds if and only if the grant does
not run out between the two clock readings of `_issue` (`ReportedLifetime`); it can be zero in every
reachable state with a live grant (`LifetimeCanBeZero`, `LifetimeIsZero` after a concrete run). The
refinement of whole-text tokens by a window's tokens is stated for non-empty windows, since an empty
window inside a match yields one empty token; spelling and colours hold for every window.

## Model

| member | source | states |
|---|---|---|
| GrantTheorems.ExactlyOneUnconsumed | service/mcp-server/oauth/provider.py:195-263 | in every reachable state a stored grant has one unconsumed refresh token, and no other |
| GrantTheorems.RowsPointAtGrants | service/mcp-server/oauth/database.py:83-86 | in every reachable state every token row belongs to a stored grant |
| GrantTheorems.ReuseDetected | service/mcp-server/oauth/provider.py:291-328 | while a grant is live its client can load one of all the refresh tokens ever issued for it if and only if it is the newest; loading or exchanging any other revokes exactly that grant |
| GrantTheorems.ExchangedAtMostOnce | service/mcp-server/oauth/provider.py:304-328 | whatever happens in between, no refresh token is successfully exchanged a second time |
| GrantTheorems.ExchangedTokenIsATrap | service/mcp-server/oauth/provider.py:291-302 | presenting an exchanged token at any later time revokes its grant if that is still live |
| GrantTheorems.ExchangeIsAtomic | service/mcp-server/oauth/provider.py:304-328 | all outcomes of a refresh exchange with the exact rows each leaves: failures change nothing, reuse commits only the revocation, success consumes one row and adds two; that the writes made in place before a failure are rolled back is proved of `Provider.RelayOAuthProvider.ExchangeRefreshToken`, which computes this |
| GrantTheorems.FailedCodeExchangeLeavesNoRow | service/mcp-server/oauth/provider.py:195-229 | a failed code exchange spends the code and leaves grants and tokens as they were; that the grant row written in place before the failure is rolled back is proved of `Provider.RelayOAuthProvider.ExchangeAuthorizationCode`, which computes this |
| TokenTheorems.RefreshHandsOutTokens | service/mcp-server/oauth/provider.py:231-328 | the tokens in the reply of a refresh work as what they are called: from the issue on, one loads as an access token for 300 seconds and the other as the refresh token, unconsumed and the newest of the grant, both with the grant's client and user and the scopes asked for, exactly until the grant runs out |
| TokenTheorems.RefreshSucceedsIff | service/mcp-server/oauth/provider.py:304-320 | a refresh succeeds exactly for the newest token of a live grant of the client, for no more scopes than the token has, if the grant lasts until `_issue` checks it |
| TokenTheorems.CodeHandsOutTokens | service/mcp-server/oauth/provider.py:195-263 | a code exchange creates exactly one grant, with the code's client, user and session and the lesser of the two lifetimes, and the tokens in its reply work with the code's scopes |
| TokenTheorems.CodeSucceedsIff | service/mcp-server/oauth/provider.py:195-229 | a code exchange succeeds exactly for the client's own unexpired code for this server, a session with user, workspace and a usable refresh credential, if the grant lasts until `_issue` checks it |
| TokenLife.AccessTokenLoadsIff | service/mcp-server/oauth/provider.py:265-289 | in every reachable state a name loads as an access token exactly when it was issued as one less than 300 seconds ago for a grant that is alive, and then shows that grant's client and user and its own scopes |
| GrantLife.RefreshTokenLoadsIff | service/mcp-server/oauth/provider.py:291-302 | in every reachable state a name loads as a refresh token exactly when it is the newest issued for a live grant of the client, and then shows the grant's user and its own scopes |
| GrantTheorems.GrantExpiryIsLeast | service/mcp-server/oauth/provider.py:118-137 | a stored grant expires at the least of its own limit and the expiries noted for it |
| GrantTheorems.StoredIsKept | service/mcp-server/oauth/provider.py:118-137 | the expiries noted for a grant stay noted, in order, and its limit stays the same, over every continuation |
| GrantTheorems.SavedCredentialCapsGrant | service/mcp-server/oauth/provider.py:118-137 | after a successful save every later state that stores the grant has it expire no later than the saved credential |
| GrantTheorems.GrantRecordedFor | service/mcp-server/oauth/provider.py:211-226 | the limit noted for a new grant is its creation time plus the grant lifetime, and the first noted expiry is that of the login's credential |
| GrantTheorems.SaveRecordedFor | service/mcp-server/oauth/provider.py:118-137 | every saved credential's expiry is noted for its grant |
| GrantTheorems.NothingLoadsLate | service/mcp-server/oauth/provider.py:270-277 | no token loads at or after its grant's expiry, no access token 300 or more seconds after its issue |
| GrantTheorems.ReportedLifetime | service/mcp-server/oauth/provider.py:231-263 | issuing fails exactly when the grant is not active at the first clock reading; the reported lifetime is what the access row has left and at most 300 seconds, and it is at least 1 if and only if the grant has not expired by the second reading, else the token never loads |
| GrantTheorems.LifetimeCanBeZero | service/mcp-server/oauth/provider.py:231-263 | in every reachable state with an active grant: exchanging its newest refresh token while it expires between the two readings succeeds and reports a lifetime of 0 |
| SampleRun.LifetimeIsZero | service/mcp-server/oauth/provider.py:231-263 | the same after a concrete run from the empty database: register, log in, authorize, approve, exchange the code |
| SampleRun.GrantIsReachable | service/mcp-server/oauth/provider.py:145-229 | that run is one the provider accepts at every step and ends with an active grant |
| GrantTheorems.ScopesNeverWiden | service/mcp-server/oauth/provider.py:175-189 | a loaded token's scopes lie within those of the token it was exchanged for, of the code, of the approved request, and of the client's registration among the supported ones |
| FlowTheorems.RegistersIff | service/mcp-server/oauth/provider.py:145-173 | registration succeeds exactly for a new id, supported grant types and allowed redirect URIs, and leaves a client with those URIs and scopes; any other is answered with its error and changes nothing |
| FlowTheorems.ClientsStay | service/mcp-server/oauth/provider.py:139-143 | a client stays as registered over every continuation |
| FlowTheorems.AuthorizesIff | service/mcp-server/oauth/provider.py:175-189 | a request is accepted exactly when its scopes are registered and known, its redirect URI registered, its challenge well formed and its resource this server; it then waits 300 seconds with the scopes it named, or with reading alone, if registered, when it named none; the error otherwise is that of the first check that fails |
| FlowTheorems.RequestWaits | service/mcp-server/oauth/storage.py:19-60 | a request is as it was made until it expires, over every continuation in which it is not decided and the server not restarted |
| FlowTheorems.LoginWaits | service/mcp-server/oauth/login.py:26-55 | so is a login that is neither used nor replaced |
| FlowTheorems.CodeWaits | service/mcp-server/oauth/codes.py:22-50 | so is a code that its own client does not exchange |
| FlowSuccess.DecisionIs | service/mcp-server/oauth/approval.py:51-123 | the approval handler's answers in the order of its checks; only an approval makes a code, with the request's parameters and the login's user and session, and only a decision uses up request and login |
| FlowSuccess.LoginIsKept | service/mcp-server/oauth/login.py:106-117 | a login keeps its session for 600 seconds and replaces the browser's previous one |
| FlowSuccess.FlowSucceeds | service/mcp-server/oauth/provider.py:175-263 | whatever others do in between, a request, login, approval and exchange in time end in working tokens for the client, the user who logged in and exactly the scopes consented to |
| GrantTheorems.DecidedAtMostOnce | service/mcp-server/oauth/approval.py:51-136 | a decided request is never decided again, and its login decides nothing else |
| GrantTheorems.CodeExchangedAtMostOnce | service/mcp-server/oauth/codes.py:46-50 | a code that yielded a grant never yields another |
| GrantTheorems.GrantComesFromItsFlow | service/mcp-server/oauth/provider.py:195-229 | a stored grant carries the user of the login that approved its request and was created less than 360 seconds after that request |
| GrantTheorems.GrantsShareNothing | service/mcp-server/oauth/approval.py:75-123 | any two grants ever created come from different codes, requests and logins; while both are stored they hold different upstream credentials |
| GrantTheorems.StoredGrantIsRecorded | service/mcp-server/oauth/provider.py:211-226 | every stored grant is among those ever created, so the statements about these speak of it |
| GrantTheorems.DeathIsPermanent | service/mcp-server/oauth/provider.py:78-89 | a grant that is revoked, expired or deleted never becomes active again, over any continuation |
| GrantLife.GrantRowAfter | service/mcp-server/oauth/provider.py:85-137 | the exact row every operation leaves of a live grant: revoked by a revocation, a reused refresh token, a load while a refresh is pending and an unusable credential, and by nothing else; pending, with the new session, or as it was |
| GrantLife.LivesOnIff | service/mcp-server/oauth/provider.py:78-137 | a grant outlives a step exactly when the step is none of those and the clock has not reached its expiry |
| GrantLife.EndedForGood | service/mcp-server/oauth/provider.py:78-89 | what one of them has ended is dead over every continuation |
| GrantLife.RevocationEnds | service/mcp-server/oauth/revocation.py:23-28 | a revocation ends, for good, the grant of an access token that still loads and of any refresh token ever issued for it, for the grant's own client only; other grants keep their rows |
| GrantLife.RefreshBeginsIff | service/mcp-server/oauth/provider.py:109-116 | in every reachable state an upstream refresh begins exactly when the grant is alive and none is pending, whatever its credentials; it sets that flag and changes nothing else |
| GrantLife.SessionIsSavedIff | service/mcp-server/oauth/provider.py:118-137 | a session is saved exactly with a usable refresh credential, for a live grant of the same identity, and is then what loads; an unusable credential ends the grant and another identity changes nothing |
| GrantLife.SessionLoadsIff | service/mcp-server/oauth/provider.py:91-107 | the stored session loads exactly while the grant is alive and no refresh is pending |
| GrantTheorems.DeadGrantIsUseless | service/mcp-server/oauth/provider.py:91-137 | no token of a dead grant loads, its session neither loads nor is saved, no upstream refresh begins |
| GrantTheorems.IdentityIsFixed | service/mcp-server/oauth/provider.py:118-137 | client, subject and workspace of a stored grant never change |
| GrantTheorems.SessionAlwaysMatches | service/mcp-server/oauth/provider.py:103-107 | the identity-mismatch branch of `load_session` is unreachable |
| Preservation.RunKeeps | service/mcp-server/oauth/provider.py:65-332 | the whole invariant holds after any sequence of requests, ticks, cleanups and restarts |
| Evolution.PerformAges | service/mcp-server/oauth/provider.py:85-137 | no operation makes a grant expire later, lose its revocation or change its identity, and none alters a token row but by consuming it |
| CleanupInvisible.PerformAlike | service/mcp-server/oauth/provider.py:65-76 | a bisimulation: from states that differ only in expired entries, each operation answers the same with and without cleanup and leaves such states again |
| CleanupInvisible.CleanupIsInvisible | service/mcp-server/oauth/provider.py:65-83 | answer for answer, a run with cleanups anywhere equals the run that never cleans up |
| CleanupInvisible.CleanupIsInvisibleInEveryRun | service/mcp-server/oauth/provider.py:65-83 | the same from every reachable state |
| Housekeeping.CleanupSweeps | service/mcp-server/oauth/provider.py:65-76 | a sweep removes exactly what has expired, from the tables at most once in 60 seconds |
| Housekeeping.LookUpsSweep | service/mcp-server/oauth/provider.py:175-302 | requests, look-ups and revocations leave nothing expired behind |
| Housekeeping.ShownUntilExpired | service/mcp-server/oauth/storage.py:50-60 | requests and logins are shown exactly until they expire |
| Housekeeping.CodeShownUntilExpired | service/mcp-server/oauth/codes.py:39-44 | a code is shown exactly until it expires, to its own client |
| Housekeeping.RestartLosesStores | service/mcp-server/oauth/provider.py:32-53 | a restart loses requests, logins and codes and no table |
| Stores.AuthorizationStore.Create | service/mcp-server/oauth/storage.py:19-35 | the new request joins the unexpired ones for 300 seconds |
| Stores.AuthorizationStore.Consume | service/mcp-server/oauth/storage.py:41-48 | the request is gone afterwards and returned if it had not expired |
| Stores.AuthorizationStore.Get | service/mcp-server/oauth/storage.py:50-60 | an unexpired request is returned and kept, an expired one dropped |
| Stores.LoginStore.Save | service/mcp-server/oauth/login.py:26-43 | the new login joins the unexpired ones for 600 seconds |
| Stores.LoginStore.Get | service/mcp-server/oauth/login.py:45-55 | an unexpired login is returned and kept, an expired one dropped |
| Stores.AuthorizationCodeStore.Create | service/mcp-server/oauth/codes.py:22-37 | the new code joins the unexpired ones for 60 seconds |
| Stores.AuthorizationCodeStore.Get | service/mcp-server/oauth/codes.py:39-44 | expired codes go; the code is returned to its own client only |
| Stores.AuthorizationCodeStore.Consume | service/mcp-server/oauth/codes.py:46-50 | a returned code is gone afterwards |
| Stores.OAuthDatabase.Rollback | service/mcp-server/oauth/database.py:105-113 | the tables are as they were when the transaction began |
| Stores.OAuthDatabase.DeleteExpired | service/mcp-server/oauth/provider.py:71-75 | expired grants go with all their tokens, other tokens only when they are expired access tokens |
| Provider.RelayOAuthProvider.constructor | service/mcp-server/oauth/provider.py:32-53 | a started provider has empty stores over the database's tables |
| Provider.RelayOAuthProvider.Cleanup | service/mcp-server/oauth/provider.py:65-76 | stores are swept at every call, tables at most once a minute |
| Provider.RelayOAuthProvider.RevokeGrant | service/mcp-server/oauth/provider.py:85-89 | only the first revocation of a grant sets its time |
| Provider.RelayOAuthProvider.LoadSession | service/mcp-server/oauth/provider.py:91-107 | an active grant's session loads unless a refresh is pending, which revokes |
| Provider.RelayOAuthProvider.BeginSessionRefresh | service/mcp-server/oauth/provider.py:109-116 | the pending flag is set only on a live grant that is not pending |
| Provider.RelayOAuthProvider.SaveSession | service/mcp-server/oauth/provider.py:118-137 | a live credential of the same identity is stored, the flag cleared and the expiry lowered |
| Provider.RelayOAuthProvider.RegisterClient | service/mcp-server/oauth/provider.py:145-173 | a client id registers once, with supported grant types and at least one redirect URI, all of them secure or loopback and free of fragments and credentials |
| Provider.RelayOAuthProvider.Authorize | service/mcp-server/oauth/provider.py:175-189 | scope, redirect, challenge and resource checks in order, then a new request |
| Provider.RelayOAuthProvider.LoadAuthorizationCode | service/mcp-server/oauth/provider.py:191-193 | cleans up and looks the code up for its client |
| Provider.RelayOAuthProvider.ExchangeAuthorizationCode | service/mcp-server/oauth/provider.py:195-229 | consumes the code; grant and both token rows are inserted together or not at all |
| Provider.RelayOAuthProvider.Issue | service/mcp-server/oauth/provider.py:231-263 | two rows for a grant active at the first clock reading, dated by the second; nothing otherwise |
| Provider.RelayOAuthProvider.FindToken | service/mcp-server/oauth/provider.py:270-277 | the joined look-up: right kind, unexpired row, active grant of this resource |
| Provider.RelayOAuthProvider.LoadAccessToken | service/mcp-server/oauth/provider.py:265-268 | cleans up and looks the access token up |
| Provider.RelayOAuthProvider.LoadRefreshToken | service/mcp-server/oauth/provider.py:291-302 | a consumed token of the presenting client revokes the grant |
| Provider.RelayOAuthProvider.ExchangeRefreshToken | service/mcp-server/oauth/provider.py:304-328 | the transaction of a refresh exchange, with the reuse error after the commit |
| Provider.RelayOAuthProvider.RevokeToken | service/mcp-server/oauth/revocation.py:23-27 | looks the token up either way, then revokes its grant for its own client |
| Provider.RelayOAuthProvider.Approve | service/mcp-server/oauth/approval.py:51-123 | one uninterrupted decision: consume the request, create the code, drop the login |
| Provider.RelayOAuthProvider.FinishLogin | service/mcp-server/oauth/login.py:112-117 | the browser's previous login is dropped and the new one saved |
| RequestSession.DelegatedRequestSession.CheckGrant | service/mcp-server/remote_server.py:142-145 | the call's access token still loads, for the same grant |
| RequestSession.DelegatedRequestSession.StartRefresh | service/mcp-server/user_session.py:81-91 | the flag is written before the credential is sent, and the credential sent is on the redaction list |
| RequestSession.DelegatedRequestSession.FinishRefresh | service/mcp-server/user_session.py:92-130 | all outcomes of the upstream's reply; rotated credentials join the redaction list even when they are then rejected |
| RequestSession.DelegatedRequestSession.StoreRotated | service/mcp-server/user_session.py:106-129 | rotated credentials are stored before the next upstream call, and only with time left |
| RequestSession.DelegatedRequestSession.StartVerify | service/mcp-server/user_session.py:132-143 | the session is reloaded under the lock, what was loaded joins the redaction list, and it is refreshed when at most 60 seconds remain |
| RequestSession.DelegatedRequestSession.FinishVerify | service/mcp-server/user_session.py:144-187 | all outcomes of the identity reply, with one refresh on a first 401 and a last check of the grant |
| ToolResults.ListedIsHidden | service/mcp-server/remote_server.py:85-119 | no result redacted with a list shows a credential on it whose text is bracket-free and not part of "redacted" |
| ToolResults.Continue | service/mcp-server/user_session.py:81-187 | whatever a stretch of a call does, everything handled so far and everything received or loaded in it is on the list afterwards |
| ToolResults.CallTool | service/mcp-server/remote_server.py:148-160 | over any sequence of stretches, with any upstream replies and with another call storing credentials in between, the redacted result shows none of the credentials the call was made with, loaded, sent or received that are bracket-free and not part of "redacted" |
| SessionTheorems.PlayKeeps | service/mcp-server/user_session.py:81-203 | locks, phases, tokens and posted credentials stay consistent over every interleaving, crash and restart |
| SessionTheorems.MutualExclusion | service/mcp-server/oauth/provider.py:58-63 | although lock objects are weakly held and recreated, at most one call per grant is in an upstream exchange |
| SessionTheorems.HeldLocksAreInUse | service/mcp-server/user_session.py:132-187 | in every reachable state a held lock belongs to a running call that is in an upstream exchange, and is that call's own lock |
| SessionTheorems.CredentialPostedAtMostOnce | service/mcp-server/user_session.py:81-141 | over every run each upstream refresh credential is posted at most once |
| SessionTheorems.UpstreamCallsStartWell | service/mcp-server/user_session.py:132-203 | every upstream call starts while its grant is neither revoked nor expired; a tool's request also with a live access token of the grant that holds the tool's scope |
| SessionTheorems.RequestFollowsIdentity | service/mcp-server/user_session.py:160-195 | a tool's request starts in the very step in which the upstream identity was found to be the grant's subject and workspace |
| SessionTheorems.EnterContextKeeps | service/mcp-server/remote_server.py:137-140 | loading the session under the first use of the lock keeps everything consistent |
| SystemOutcomes.CallStarts | service/mcp-server/remote_server.py:125-137 | a call is admitted exactly with a live access token that has the tool's scope, and waits for the lock the grant's other calls refer to |
| SystemOutcomes.CallEnters | service/mcp-server/remote_server.py:137-140 | it gets in exactly when its grant is alive and no refresh is pending; a pending one ends the grant |
| SystemOutcomes.VerificationStarts | service/mcp-server/user_session.py:132-143 | with the lock, a live token and no refresh pending, a call asks for the identity when the stored access credential has more than 60 seconds left and otherwise posts the stored refresh credential; any other call gives up and frees the lock |
| SystemOutcomes.RefreshAnswers | service/mcp-server/user_session.py:92-130 | how each answer to a posted credential ends: only a rotated pair that lasts is stored and used, a rejection and an unusable credential end the grant, the rest leave it pending |
| SystemOutcomes.IdentityAnswers | service/mcp-server/user_session.py:144-187 | how each answer about the identity ends: the call goes on exactly when it is the session's own and the token is still live, a first refusal is met with a refresh, another identity or a second refusal ends the grant |
| SystemOutcomes.RefusalIsFinal | service/mcp-server/user_session.py:96-170 | after a rejected refresh, a refusal of the refreshed credential or a changed identity the grant is dead over every continuation of the system |
| SystemOutcomes.RequestBegins | service/mcp-server/user_session.py:192-193 | the tool's code verifies before each request, by the lock of the grant's other calls |
| SystemOutcomes.CallsMoveOn | service/mcp-server/user_session.py:192-203 | a finished request returns to the tool's code, a call that ends frees its lock, and a crash leaves neither calls nor locks |
| SessionFatal.InterruptedRefreshIsFatal | service/mcp-server/oauth/provider.py:91-116 | after a cancelled, lost, rejected or malformed refresh no continuation clears the flag or calls upstream for the grant, and loading its session fails and revokes it |
| PayloadLexer.StringMatchIsUnique | frontend/src/lib/executionPayload.js:47-48 | a string token ends at the only place where the pattern's string alternative can match |
| PayloadLexer.NumberIsMatch | frontend/src/lib/executionPayload.js:47-48 | what the scan takes as a number is a match of the pattern's number alternative: sign, whole part, fraction, exponent |
| PayloadLexer.NumberIsLongest | frontend/src/lib/executionPayload.js:47-48 | however the number alternative can match, the scan takes at least as much |
| PayloadLexer.NextMatchIsLeftmost | frontend/src/lib/executionPayload.js:50-52 | the scan finds the leftmost match, or none exists |
| PayloadMatches.NextMatchIs | frontend/src/lib/executionPayload.js:47-52 | the next match is the first place where any alternative of the pattern matches, with the longest match there, and missing exactly when none matches |
| PayloadMatches.KindIs | frontend/src/lib/executionPayload.js:61-71 | a match is a key exactly when a colon follows within 20 units after white space only, and else a string, null, boolean or number by what it is |
| PayloadTokens.PayloadTokens | frontend/src/lib/executionPayload.js:44-79 | the loop computes the window's tokens: they spell exactly the window, each unit in the kind it has in the whole text |
| PayloadTokens.WindowIsClippedWhole | frontend/src/lib/executionPayload.js:42-79 | the tokens of a non-empty window are the tokens of the whole text, cut to it |
| PayloadTokens.WindowReads | frontend/src/lib/executionPayload.js:44-79 | for every window, spelling and kinds agree with the whole text |
| PayloadRoundTrip.TokensReadPayload | frontend/src/lib/executionPayload.js:14-79 | printing any JSON value and reading its tokens without punctuation gives exactly its keys, strings, numbers, booleans and nulls, in order and of the right kind |
| PayloadRoundTrip.UnquotedQuoted | frontend/src/lib/executionPayload.js:14-16 | reading back a printed string gives the string, for control characters, quotes, surrogate pairs and lone surrogates |
| PayloadLayout.PayloadIsLaidOut | frontend/src/lib/executionPayload.js:14-16 | an array is its items' own texts, an object its keys and its values' own texts, between the right brackets, each on its line two spaces deeper, with commas between; an absent payload is null |
| PayloadLayout.WordsAreSpelled | frontend/src/lib/executionPayload.js:14-16 | null, true and false are those words |
| PayloadLayout.NumbersAreSpelled | frontend/src/lib/executionPayload.js:14-16 | a number is its sign, whole part, fraction and signed exponent |
| PayloadLayout.EscapesAre | frontend/src/lib/executionPayload.js:14-16 | the short escapes, the six-unit escapes with small digits, and no others |
| PayloadRoundTrip.TokensAreLexemes | frontend/src/lib/executionPayload.js:47-76 | without punctuation the tokens are the pattern's matches |
| PayloadSections.RequestedPageIsClamped | frontend/src/lib/executionPayload.js:23-24 | any requested page is shown as the nearest existing one |
| PayloadSections.SectionsAreContiguous | frontend/src/lib/executionPayload.js:32-34 | each section starts where the previous one ends, from the first unit to the last |
| PayloadSections.SectionsKeepPairs | frontend/src/lib/executionPayload.js:25-33 | no section begins or ends inside a surrogate pair, and none exceeds the size by more than one |
| PayloadSections.SectionsAreNonEmpty | frontend/src/lib/executionPayload.js:18-35 | with a size of two or more no section of a non-empty text is empty |
| PayloadSections.SectionsAreFull | frontend/src/lib/executionPayload.js:18-35 | every section but the last is as long as asked for, give or take one unit, and there are no more than needed |
| PayloadSections.SectionsPartitionText | frontend/src/lib/executionPayload.js:18-35 | all sections together are the text |
| PayloadSections.PagesPaintTheText | frontend/src/lib/executionPayload.js:18-79 | paging through a payload paints every unit once, in order, in its whole-text kind |
| Redaction.RemoteRelayClient.SanitizeString | service/mcp-server/remote_server.py:114-117 | secret after secret is replaced, in the list's order |
| Redaction.RemoteRelayClient.SanitizeResult | service/mcp-server/remote_server.py:89-119 | the recursion over dictionaries, lists and strings computes `Sanitize` |
| RedactionTheorems.ReplaceCreatesNothing | service/mcp-server/remote_server.py:114-117 | of a word that neither occurs in the marker nor overlaps it, replacing that word leaves no trace and replacing any other secret creates none |
| RedactionTheorems.SanitizeRemoves | service/mcp-server/remote_server.py:89-119 | a secret that contains a listed word which neither occurs in the marker nor overlaps it occurs in no string and no key of the output, whatever else is on the list |
| RedactionTheorems.RedactionIsSoundIff | service/mcp-server/remote_server.py:89-119 | for every list: if no output contains a secret then none is part of the marker; and conversely, unless a secret overlaps an end of the marker and no other secret inside it is removed |
| RedactionTheorems.BracketFreeSecrets | service/mcp-server/remote_server.py:89-119 | of secrets without brackets none overlaps the marker, and being part of it is being part of the word "redacted" |
| RedactionTheorems.SecretIsRemovedIff | service/mcp-server/remote_server.py:89-119 | a bracket-free secret, on any list, is absent from every output if and only if it is not part of "redacted" |
| RedactionTheorems.RedactionIsIdempotentIff | service/mcp-server/remote_server.py:89-119 | for every list: sanitizing twice equals sanitizing once when all secrets are covered; and, when those with a bracket are covered, if and only if none is part of the marker |
| SingleSecret.OneSecretIsRemovedIff | service/mcp-server/remote_server.py:114-117 | one secret, of any kind, is absent from every output if and only if the marker does not show it, it neither contains a marker nor begins in one, and wherever it could end in a marker an earlier match takes it |
| SingleSecret.OneSecretIsIdempotentIff | service/mcp-server/remote_server.py:114-117 | with one secret, sanitizing twice equals sanitizing once if and only if the secret stays away in that sense or is the marker itself |
| SingleSecret.CompanyDecides | service/mcp-server/remote_server.py:114-117 | a secret that comes back alone can stay away in a list: "]x" behind "xx" |
| RedactionTheorems.ShortSecretSurvives | service/mcp-server/remote_server.py:114-117 | a secret "red" survives its own redaction |
| RedactionTheorems.StraddlingSecretComesBack | service/mcp-server/remote_server.py:114-117 | a secret that overlaps an end of the marker can come back: "]x" |
| RedactionTheorems.StraddlingSecretStaysAway | service/mcp-server/remote_server.py:114-117 | and another one that overlaps it never does: "[[" |
| RedactionTheorems.CredentialFieldsAreRedacted | service/mcp-server/remote_server.py:91-109 | in a sanitized dictionary every credential field holds the marker, whatever the secrets |
| RedactionMeaning.MaskedIff | service/mcp-server/remote_server.py:89-110 | the value under a key is masked exactly when the key spells one of the nine listed fields in any mixture of cases, and is otherwise the sanitized value |
| RedactionMeaning.ReplaceRewritesMatches | service/mcp-server/remote_server.py:114-117 | a text is cut at the leftmost matches and joined with the marker; nothing else of it changes |
| RedactionMeaning.TextIsRewritten | service/mcp-server/remote_server.py:111-117 | so is every text and key, for one secret after the other |
| RedactionMeaning.ScrubInOrder | service/mcp-server/remote_server.py:114-117 | a list of secrets works like its first part and then its second |
| RedactionTheorems.StableIsFixed | service/mcp-server/remote_server.py:89-119 | a result without secrets and with masked credential fields is returned unchanged |
| RedactionTheorems.ListKeepsPlaces | service/mcp-server/remote_server.py:111-112 | each list element is sanitized in its place |
| RedactionTheorems.DictionaryKeepsEntries | service/mcp-server/remote_server.py:103-109 | each entry is found under its safe key unless a later key became the same |
| RedactionMeaning.DictionaryKeepsOrder | service/mcp-server/remote_server.py:102-109 | the sanitized keys stand where each first came up |
| DocumentList.DocumentList.Refresh | frontend/src/components/knowledge-bases/DocumentList.jsx:52-90 | a refresh takes a new version and appends a link to the chain |
| DocumentList.DocumentList.RunTask | frontend/src/components/knowledge-bases/DocumentList.jsx:54-58 | a link whose version is stale settles without a request |
| DocumentList.DocumentList.Answer | frontend/src/components/knowledge-bases/DocumentList.jsx:59-87 | documents, error and spinner change only for the newest version of a mounted component |
| DocumentList.DocumentList.Mount | frontend/src/components/knowledge-bases/DocumentList.jsx:92-94 | mounting requests a refresh |
| DocumentList.DocumentList.Unmount | frontend/src/components/knowledge-bases/DocumentList.jsx:95-101 | unmounting invalidates and aborts |
| DocumentList.DocumentList.Poll | frontend/src/components/knowledge-bases/DocumentList.jsx:109-116 | a poll refreshes only when nothing is in flight and no operation runs |
| DocumentList.DocumentList.Operate | frontend/src/components/knowledge-bases/DocumentList.jsx:125-133 | one operation per document; starting one invalidates what is in flight |
| DocumentList.DocumentList.MutationAnswered | frontend/src/components/knowledge-bases/DocumentList.jsx:134-160 | a successful deletion drops the row at once, and a refresh follows |
| DocumentListTheorems.PlayKeeps | frontend/src/components/knowledge-bases/DocumentList.jsx:51-166 | the chain settles in order, versions grow, aborted requests are stale and nothing deleted is in view, over every run |
| DocumentListTheorems.OneListRequestAtATime | frontend/src/components/knowledge-bases/DocumentList.jsx:51-58 | at most one list request is in flight, and the current controller is its |
| DocumentListTheorems.ShownResponseIsNewest | frontend/src/components/knowledge-bases/DocumentList.jsx:67-73 | a response that changes what is shown belongs to the newest refresh, and its request began after every mutation started or answered so far |
| DocumentListTheorems.NothingStaleAfterMutation | frontend/src/components/knowledge-bases/DocumentList.jsx:131-160 | once a delete or retry has been answered no response to an earlier request is ever shown |
| DocumentListTheorems.DeletedStaysDeleted | frontend/src/components/knowledge-bases/DocumentList.jsx:134-144 | a document whose deletion succeeded before the mounted component is never shown again |
| DocumentListTheorems.QuietShowsNewest | frontend/src/components/knowledge-bases/DocumentList.jsx:51-90 | when a mounted component is idle the newest refresh has been answered, the documents it loaded are shown without an error or the error it ended in is, and the spinner is off |
| DocumentListOutcomes.PollRefreshesIff | frontend/src/components/knowledge-bases/DocumentList.jsx:109-116 | a poll refreshes exactly when the page is visible, no list request is in flight and no operation runs, and else does nothing |
| DocumentListOutcomes.MutationShows | frontend/src/components/knowledge-bases/DocumentList.jsx:134-160 | a row leaves the screen exactly when its deletion succeeded; a failed deletion and a retry leave every row, and a mounted component refreshes either way |
| DocumentListOutcomes.OtherRowsStay | frontend/src/components/knowledge-bases/DocumentList.jsx:139-142 | removing a row keeps all others in their order |
| DocumentListOutcomes.OperationStarts | frontend/src/components/knowledge-bases/DocumentList.jsx:125-133 | a second operation on a document is ignored; a first one makes every refresh so far stale, aborts the one in flight and leaves the screen as it is |
| DocumentListOutcomes.MountingAndLeaving | frontend/src/components/knowledge-bases/DocumentList.jsx:92-103 | leaving aborts the request in flight and keeps the screen; coming back, or asking, queues a refresh |
| DocumentListOutcomes.OperationEndsIff | frontend/src/components/knowledge-bases/DocumentList.jsx:155-160 | an operation ends with the refresh it asked for and not before |
| DocumentListOutcomes.RunStartsIff | frontend/src/components/knowledge-bases/DocumentList.jsx:54-58 | a queued refresh sends its request exactly when it is the newest of a mounted component |
| DocumentListOutcomes.AnswerShowsIff | frontend/src/components/knowledge-bases/DocumentList.jsx:59-87 | what each answer shows: rows and no error, the error and the old rows, or nothing when stale or aborted |
| DocumentListOutcomes.CanAlwaysShow | frontend/src/components/knowledge-bases/DocumentList.jsx:51-90 | from every reachable state a mounted component can get to show what the server holds: the chain has no dead end |

## Left out

- HTTP transport, client authentication, PKCE hashing, origin, cookie and CSRF checks, HTML pages and audit logs: validated requests are the inputs of the steps.
- Cryptography, JWT decoding and SQLite internals: hashes are injective, encryption is a round trip, an upstream token carries its readable claims, and tables are maps with transactions; one process runs at a time.
- Time is an integer that does not run backwards and is read once per step, except in the two exchanges, where the look-up and both readings of `_issue` are separate; sub-second fractions are not modelled.
- Random names are new when generated, and the upstream hands out each refresh credential once; both are conditions on steps.
- Identifiers, tokens and codes are numbers; users and workspaces are strings because the code tests them for emptiness, and the login's user id is taken to be a string already.
- Server URLs of a session, redirect query strings, token metadata that is only echoed, and the consent page.
- Provider.RelayOAuthProvider.RegisterClient: redirect URIs arrive parsed, and client ids, being numbers, are never empty.
- The weak table of locks is a field of the coroutine system (`UserSession.SessionLock`), not of the provider class; whether an unreferenced lock object is still there is left to the environment.
- SessionTheorems.UpstreamCallsStartWell: a tool's code issues its requests one after the other, and a failed verification inside a tool is reported to its code, which may go on.
- SessionTheorems.RequestFollowsIdentity: the upstream's view of who is asking is the reply to `/auth/me`; what the upstream does between that reply and the request is outside.
- DocumentListTheorems.DeletedStaysDeleted: supposes that a successful reply comes after the server removed the document and that the server never reuses an id.
- DocumentList.DocumentList.Answer: the page number, row-level messages and everything React renders are not part of this model.
- PayloadTokens.PayloadTokens: `start` and `end` delimit a part of the text, as the viewer passes them; other values are not modelled.
- PayloadRoundTrip.TokensReadPayload: numbers are compared by their printed decimal form; how a double becomes decimal is not modelled, nor are `toJSON`, functions and symbols, which a payload decoded from JSON cannot hold.
- RedactionTheorems.RedactionIsSoundIff: lists of two and more with a secret that overlaps an end of the marker, like "]x" or "[[", and that no other one covers are not characterised: whether it comes back depends on the other secrets (`SingleSecret.CompanyDecides`). Lists of one are, exactly, by `SingleSecret.OneSecretIsRemovedIff`.
- RedactionTheorems.RedactionIsIdempotentIff: the converse is left open for lists of two and more with a bracketed secret that no other one covers; lists of one are settled by `SingleSecret.OneSecretIsIdempotentIff`.
- ToolResults.CallTool: a reply without both credentials carries none, as the code remembers none; the texts of the credentials are a parameter.
- Redaction: `str.lower` is modelled as far as it can produce an ASCII letter; values other than dictionaries, lists and strings are opaque.
- The execution dispatcher, relay client wrappers, configuration, migrations and deployment.
