/** What the document list's request protocol guarantees over every run. */
module DocumentListTheorems {
  import opened Basics
  import opened DocumentListModel

  // --- The invariant of the component ---

  /** The chain settles in order: whatever has started follows settled links only. */
  predicate Chained(tasks: seq<Task>) {
    forall i, j :: 0 <= i < j < |tasks| && !tasks[j].phase.Queued? ==> tasks[i].phase.Done?
  }

  predicate Versions(tasks: seq<Task>, sequence: nat) {
    (forall i :: 0 <= i < |tasks| ==> tasks[i].version <= sequence) &&
    forall i, j :: 0 <= i < j < |tasks| ==> tasks[i].version < tasks[j].version
  }

  /** The current controller is that of the one request in flight. */
  predicate Requesting(tasks: seq<Task>, request: Option<nat>) {
    (request.Some? ==> request.value < |tasks|) &&
    forall i :: 0 <= i < |tasks| ==> (tasks[i].phase.Listing? <==> request == Some(i))
  }

  predicate AbortedAreStale(tasks: seq<Task>, sequence: nat) {
    forall i :: 0 <= i < |tasks| && tasks[i].phase == Listing(true) ==> tasks[i].version < sequence
  }

  predicate ChainInv(tasks: seq<Task>, request: Option<nat>, sequence: nat) {
    Chained(tasks) && Versions(tasks, sequence) && Requesting(tasks, request) && AbortedAreStale(tasks, sequence)
  }

  ghost predicate Mutating(u: Ui) {
    exists id :: id in u.mutations && u.mutations[id].Sent?
  }

  predicate LastIsCurrent(u: Ui) {
    u.tasks != [] && u.tasks[|u.tasks| - 1].version == u.sequence
  }

  predicate Unsettled(u: Ui) {
    u.tasks != [] && !u.tasks[|u.tasks| - 1].phase.Done?
  }

  ghost predicate UiInv(u: Ui) {
    && ChainInv(u.tasks, u.request, u.sequence)
    && u.mutations.Keys == u.operations
    && (u.alive && !Mutating(u) ==> LastIsCurrent(u) && (u.refreshing ==> Unsettled(u)))
  }

  // --- The invariant of the whole ---

  ghost predicate FlightOk(s: State, i: nat) {
    i in s.flights && s.flights[i].begun > s.changedAt &&
    (s.flights[i].seen.Some? ==>
      Ids(s.flights[i].seen.value) !! s.gone && Ids(s.flights[i].seen.value) <= s.server.ever)
  }

  /** What is on the screen is what the last settled request brought. */
  predicate ShowsOutcome(s: State) {
    s.settled == s.ui.sequence && s.outcome.Some? &&
    match s.outcome.value
    case Loaded(docs) => s.ui.documents == Some(docs) && !s.ui.error
    case Failed => s.ui.error
    case Aborted => false
  }

  ghost predicate Inv(s: State) {
    && UiInv(s.ui)
    && s.changedAt <= s.clock
    && (forall i: nat {:trigger FlightOk(s, i)} :: Current(s.ui, i) && s.ui.tasks[i].phase.Listing? ==> FlightOk(s, i))
    && Ids(s.server.docs) <= s.server.ever && s.gone <= s.server.ever && s.gone !! Ids(s.server.docs)
    && (s.ui.documents.Some? ==> s.gone !! Ids(s.ui.documents.value))
    && (s.ui.alive && LastIsCurrent(s.ui) && !Unsettled(s.ui) ==> ShowsOutcome(s))
  }

  // --- Every move of the component ---

  function SetPhase(tasks: seq<Task>, i: nat, phase: Phase): seq<Task>
    requires i < |tasks|
  {
    tasks[i := tasks[i].(phase := phase)]
  }

  lemma VersionsStay(tasks: seq<Task>, i: nat, phase: Phase, sequence: nat, later: nat)
    requires i < |tasks| && Versions(tasks, sequence) && sequence <= later
    ensures Versions(SetPhase(tasks, i, phase), later)
  {
  }

  /** A queued link whose predecessor has settled starts, or settles at once. */
  lemma StartKeepsChain(tasks: seq<Task>, i: nat, sequence: nat)
    requires ChainInv(tasks, None, sequence) && i < |tasks| && tasks[i].phase.Queued? &&
      (forall k :: 0 <= k < i ==> tasks[k].phase.Done?)
    ensures ChainInv(SetPhase(tasks, i, Done), None, sequence) &&
      ChainInv(SetPhase(tasks, i, Listing(false)), Some(i), sequence)
  {
    VersionsStay(tasks, i, Done, sequence, sequence);
    VersionsStay(tasks, i, Listing(false), sequence, sequence);
    hide Versions;
  }

  lemma FinishKeepsChain(tasks: seq<Task>, i: nat, sequence: nat)
    requires ChainInv(tasks, Some(i), sequence) && i < |tasks|
    ensures ChainInv(SetPhase(tasks, i, Done), None, sequence)
  {
    VersionsStay(tasks, i, Done, sequence, sequence);
    hide Versions;
  }

  lemma AbortKeepsChain(tasks: seq<Task>, i: nat, sequence: nat)
    requires ChainInv(tasks, Some(i), sequence) && i < |tasks|
    ensures ChainInv(SetPhase(tasks, i, Listing(true)), Some(i), sequence + 1)
  {
    VersionsStay(tasks, i, Listing(true), sequence, sequence + 1);
    var tasks' := SetPhase(tasks, i, Listing(true));
    assert forall k :: 0 <= k < |tasks| ==> tasks'[k].version == tasks[k].version <= sequence;
    hide Versions;
  }

  lemma AppendKeepsChain(tasks: seq<Task>, request: Option<nat>, sequence: nat)
    requires ChainInv(tasks, request, sequence)
    ensures ChainInv(tasks + [Task(sequence + 1, Queued)], request, sequence + 1)
  {
  }

  /** Everything before a link that may start has settled, so nothing is in flight. */
  lemma ReadyMeansIdle(u: Ui, i: nat)
    requires ChainInv(u.tasks, u.request, u.sequence) && i < |u.tasks| && u.tasks[i].phase.Queued? &&
      (i > 0 ==> TaskDone(u, i - 1))
    ensures u.request.None? && forall k :: 0 <= k < i ==> u.tasks[k].phase.Done?
  {
    hide Versions, AbortedAreStale;
    assert forall k :: i < k < |u.tasks| ==> u.tasks[k].phase.Queued?;
    assert forall k :: 0 <= k < i - 1 ==> u.tasks[k].phase.Done?;
  }

  lemma RefreshKeeps(u: Ui)
    requires ChainInv(u.tasks, u.request, u.sequence) && u.mutations.Keys == u.operations
    ensures UiInv(Refresh(u)) && LastIsCurrent(Refresh(u)) && Unsettled(Refresh(u))
    ensures forall i :: 0 <= i < |u.tasks| ==> !Current(Refresh(u), i)
  {
    AppendKeepsChain(u.tasks, u.request, u.sequence);
  }

  lemma InvalidateKeeps(u: Ui)
    requires ChainInv(u.tasks, u.request, u.sequence) && u.mutations.Keys == u.operations && (u.alive ==> Mutating(u))
    ensures UiInv(Invalidate(u)) && forall i :: 0 <= i < |u.tasks| ==> !Current(Invalidate(u), i)
  {
    var v := Invalidate(u);
    if u.request.Some? {
      AbortKeepsChain(u.tasks, u.request.value, u.sequence);
    }
    MutatingDepends(u, v);
  }

  lemma MutatingDepends(u: Ui, v: Ui)
    requires u.mutations == v.mutations
    ensures Mutating(u) == Mutating(v)
  {
    assert forall id :: (id in u.mutations && u.mutations[id].Sent?) == (id in v.mutations && v.mutations[id].Sent?);
  }

  lemma RunTaskKeeps(u: Ui, i: nat)
    requires UiInv(u) && i < |u.tasks| && u.tasks[i].phase.Queued? && (i > 0 ==> TaskDone(u, i - 1))
    ensures UiInv(RunTask(u, i))
    ensures forall k :: 0 <= k < |u.tasks| && k != i ==> !(Current(u, k) && u.tasks[k].phase.Listing?)
  {
    ReadyMeansIdle(u, i);
    StartKeepsChain(u.tasks, i, u.sequence);
    MutatingDepends(u, RunTask(u, i));
    assert Versions(u.tasks, u.sequence) && Requesting(u.tasks, None);
    hide ChainInv, Mutating;
    if Current(u, i) { CurrentIsLast(u, i); }
  }

  lemma AnswerKeeps(u: Ui, i: nat, reply: Reply)
    requires UiInv(u) && i < |u.tasks| && u.tasks[i].phase.Listing?
    ensures UiInv(Answer(u, i, reply))
  {
    FinishKeepsChain(u.tasks, i, u.sequence);
    MutatingDepends(u, Answer(u, i, reply));
    hide ChainInv, Mutating;
  }

  /** Only the newest link can be current. */
  lemma CurrentIsLast(u: Ui, i: nat)
    requires Versions(u.tasks, u.sequence) && Current(u, i)
    ensures i == |u.tasks| - 1
  {
    var last := |u.tasks| - 1;
    assert forall k :: 0 <= k < last ==> u.tasks[k].version < u.tasks[last].version;
  }

  lemma OperateKeeps(u: Ui, id: DocId, action: Action)
    requires UiInv(u) && id !in u.operations
    ensures UiInv(Operate(u, id, action)) && forall i :: 0 <= i < |u.tasks| ==> !Current(Operate(u, id, action), i)
  {
    var v := u.(operations := u.operations + {id}, mutations := u.mutations[id := Sent(action)]);
    assert id in v.mutations && v.mutations[id].Sent?;
    InvalidateKeeps(v);
  }

  lemma AnsweredKeeps(u: Ui, id: DocId, ok: bool)
    requires UiInv(u) && id in u.mutations && u.mutations[id].Sent?
    ensures UiInv(MutationAnswered(u, id, ok)) && forall i :: 0 <= i < |u.tasks| ==>
      !Current(MutationAnswered(u, id, ok), i)
  {
    if u.alive {
      var deleted := ok && u.mutations[id].action.Delete? && u.documents.Some?;
      RefreshKeeps(u.(documents := if deleted then Some(WithoutDoc(u.documents.value, id)) else u.documents,
                      mutations := u.mutations[id := Awaiting(|u.tasks|)]));
    }
  }

  lemma EndKeeps(u: Ui, id: DocId)
    requires UiInv(u) && id in u.mutations && u.mutations[id].Awaiting?
    ensures UiInv(Forget(u, id))
  {
    var v := Forget(u, id);
    if Mutating(u) {
      var other :| other in u.mutations && u.mutations[other].Sent?;
      assert other in v.mutations && v.mutations[other].Sent?;
    }
    hide ChainInv;
  }

  // --- Every event ---

  /** No list request that may still be shown is in flight. */
  predicate Grounded(u: Ui) {
    forall i :: 0 <= i < |u.tasks| && u.tasks[i].phase.Listing? ==> !Current(u, i)
  }

  lemma GroundedInv(s: State)
    requires UiInv(s.ui) && Grounded(s.ui) && s.changedAt <= s.clock
    requires Ids(s.server.docs) <= s.server.ever && s.gone <= s.server.ever && s.gone !! Ids(s.server.docs)
    requires s.ui.documents.Some? ==> s.gone !! Ids(s.ui.documents.value)
    requires s.ui.alive && LastIsCurrent(s.ui) && !Unsettled(s.ui) ==> ShowsOutcome(s)
    ensures Inv(s)
  {
    hide UiInv;
  }

  lemma {:induction false} WithoutDocIds(docs: seq<Doc>, id: DocId)
    ensures Ids(WithoutDoc(docs, id)) == Ids(docs) - {id}
  {
    if docs != [] {
      WithoutDocIds(docs[1..], id);
      IdsSum(docs[..1], docs[1..]);
      IdsSum(if docs[0].id == id then [] else docs[..1], WithoutDoc(docs[1..], id));
      assert docs == docs[..1] + docs[1..];
      assert Ids(docs[..1]) == {docs[0].id} by { assert docs[..1][0] == docs[0]; }
    }
  }

  lemma IdsSum(a: seq<Doc>, b: seq<Doc>)
    ensures Ids(a + b) == Ids(a) + Ids(b)
  {
    forall id | id in Ids(a) + Ids(b) ensures id in Ids(a + b) {
      if id in Ids(a) {
        var i :| 0 <= i < |a| && a[i].id == id;
        assert (a + b)[i].id == id;
      } else {
        var i :| 0 <= i < |b| && b[i].id == id;
        assert (a + b)[|a| + i].id == id;
      }
    }
  }

  lemma TickKeeps(s: State)
    requires Inv(s)
    ensures Inv(s.(clock := s.clock + 1))
  {
    hide UiInv;
    var t := s.(clock := s.clock + 1);
    forall i: nat | Current(t.ui, i) && t.ui.tasks[i].phase.Listing? ensures FlightOk(t, i) {
      assert FlightOk(s, i);
    }
  }

  lemma RequestedKeeps(s: State, e: Event)
    requires Inv(s) && (e.Mounts? || e.Refreshes? || e.Polls?) && Offered(s, e)
    ensures Inv(Take(s, e))
  {
    RefreshKeeps(s.ui);
    RefreshKeeps(s.ui.(alive := true));
    hide ChainInv, Mutating;
    var t := Take(s, e);
    if t.ui != s.ui {
      GroundedInv(t);
    } else {
      TickKeeps(s);
    }
  }

  lemma UnmountsKeeps(s: State)
    requires Inv(s) && s.ui.alive
    ensures Inv(Take(s, Unmounts))
  {
    InvalidateKeeps(s.ui.(alive := false));
    hide ChainInv, Mutating;
    GroundedInv(Take(s, Unmounts));
  }

  lemma RunsKeeps(s: State, i: nat)
    requires Inv(s) && Offered(s, Runs(i))
    ensures Inv(Take(s, Runs(i)))
  {
    RunTaskKeeps(s.ui, i);
    hide ChainInv, Mutating;
    var t := Take(s, Runs(i));
    if Current(s.ui, i) { assert FlightOk(t, i); }
  }

  lemma ServerKeeps(s: State, e: Event)
    requires Inv(s) && (e.ServerReads? || e.ServerChanges?) && Offered(s, e)
    ensures Inv(Take(s, e))
  {
    hide UiInv;
    var t := Take(s, e);
    forall i: nat | Current(t.ui, i) && t.ui.tasks[i].phase.Listing? ensures FlightOk(t, i) {
      assert FlightOk(s, i);
    }
  }

  lemma AnswersKeeps(s: State, i: nat, reply: Reply)
    requires Inv(s) && Offered(s, Answers(i, reply))
    ensures Inv(Take(s, Answers(i, reply)))
  {
    AnswerKeeps(s.ui, i, reply);
    assert s.ui.request == Some(i) && AbortedAreStale(s.ui.tasks, s.ui.sequence) &&
      Versions(s.ui.tasks, s.ui.sequence) && Requesting(s.ui.tasks, s.ui.request);
    if Current(s.ui, i) {
      CurrentIsLast(s.ui, i);
      assert FlightOk(s, i);
    }
    hide UiInv;
    GroundedInv(Take(s, Answers(i, reply)));
  }

  lemma OperatesKeeps(s: State, id: DocId, action: Action)
    requires Inv(s) && Offered(s, Operates(id, action))
    ensures Inv(Take(s, Operates(id, action)))
  {
    if id !in s.ui.operations {
      OperateKeeps(s.ui, id, action);
      hide UiInv;
      GroundedInv(Take(s, Operates(id, action)));
    } else {
      TickKeeps(s);
    }
  }

  lemma MutationAnswersKeeps(s: State, id: DocId, ok: bool)
    requires Inv(s) && Offered(s, MutationAnswers(id, ok))
    ensures Inv(Take(s, MutationAnswers(id, ok)))
  {
    AnsweredKeeps(s.ui, id, ok);
    if s.ui.documents.Some? { WithoutDocIds(s.ui.documents.value, id); }
    hide UiInv;
    GroundedInv(Take(s, MutationAnswers(id, ok)));
  }

  lemma EndsKeeps(s: State, id: DocId)
    requires Inv(s) && Offered(s, OperationEnds(id))
    ensures Inv(Take(s, OperationEnds(id)))
  {
    EndKeeps(s.ui, id);
    hide UiInv;
    var t := Take(s, OperationEnds(id));
    forall i: nat | Current(t.ui, i) && t.ui.tasks[i].phase.Listing? ensures FlightOk(t, i) {
      assert FlightOk(s, i);
    }
  }

  lemma AdvanceKeeps(s: State, e: Event)
    requires Inv(s)
    ensures Inv(Advance(s, e))
  {
    hide Inv;
    if Offered(s, e) {
      match e
      case Unmounts => UnmountsKeeps(s);
      case Runs(i) => RunsKeeps(s, i);
      case ServerReads(_) => ServerKeeps(s, e);
      case ServerChanges(_) => ServerKeeps(s, e);
      case Answers(i, reply) => AnswersKeeps(s, i, reply);
      case Operates(id, action) => OperatesKeeps(s, id, action);
      case MutationAnswers(id, ok) => MutationAnswersKeeps(s, id, ok);
      case OperationEnds(id) => EndsKeeps(s, id);
      case _ => RequestedKeeps(s, e);
    }
  }

  lemma {:induction false} PlayKeeps(s: State, events: seq<Event>)
    requires Inv(s)
    ensures Inv(Play(s, events))
    decreases |events|
  {
    hide Inv, Advance;
    if events != [] {
      AdvanceKeeps(s, events[0]);
      PlayKeeps(Advance(s, events[0]), events[1..]);
    }
  }

  // --- Theorems ---

  ghost predicate Reachable(s: State) {
    exists docs, events :: s == Play(Start(docs), events)
  }

  lemma ReachableInv(s: State)
    requires Reachable(s)
    ensures Inv(s)
  {
    var docs, events :| s == Play(Start(docs), events);
    PlayKeeps(Start(docs), events);
  }

  /** At most one list request is in flight, and the controller at hand is its. */
  lemma OneListRequestAtATime(s: State, i: nat, j: nat)
    requires Reachable(s) && i < |s.ui.tasks| && j < |s.ui.tasks| && s.ui.tasks[i].phase.Listing? &&
      s.ui.tasks[j].phase.Listing?
    ensures i == j && s.ui.request == Some(i)
  {
    ReachableInv(s);
  }

  /** A response that changes what is shown belongs to the newest refresh, and its request began
      after every mutation that has started or been answered. */
  lemma ShownResponseIsNewest(s: State, i: nat, reply: Reply)
    requires Reachable(s) && Offered(s, Answers(i, reply)) && Take(s, Answers(i, reply)).ui.documents != s.ui.documents
    ensures i == |s.ui.tasks| - 1 && s.ui.tasks[i].version == s.ui.sequence && reply.Loaded?
    ensures s.flights[i].begun > s.changedAt
    ensures Take(s, Answers(i, reply)).ui.documents == Some(reply.docs)
  {
    ReachableInv(s);
    CurrentIsLast(s.ui, i);
    assert FlightOk(s, i);
  }

  lemma {:induction false} ChangesAreRemembered(s: State, events: seq<Event>)
    ensures s.changedAt <= s.clock ==> s.changedAt <= Play(s, events).changedAt && s.clock <= Play(s, events).clock
    ensures s.gone <= Play(s, events).gone
    decreases |events|
  {
    if events != [] {
      var t := Advance(s, events[0]);
      assert s.gone <= t.gone && (s.changedAt <= s.clock ==>
        s.changedAt <= t.changedAt <= t.clock && s.clock <= t.clock);
      hide Advance;
      ChangesAreRemembered(t, events[1..]);
    }
  }

  /** Once a delete or retry has been answered, no response to a request begun before is ever
      shown, whatever happens next. */
  lemma NothingStaleAfterMutation(s: State, id: DocId, ok: bool, more: seq<Event>, i: nat, reply: Reply)
    requires Reachable(s) && Offered(s, MutationAnswers(id, ok))
    requires
      var t := Play(Take(s, MutationAnswers(id, ok)), more);
      Offered(t, Answers(i, reply)) && i in t.flights && t.flights[i].begun <= s.clock
    ensures
      var t := Play(Take(s, MutationAnswers(id, ok)), more);
      Take(t, Answers(i, reply)).ui.documents == t.ui.documents
  {
    var s1 := Take(s, MutationAnswers(id, ok));
    var t := Play(s1, more);
    ReachableInv(s);
    AdvanceKeeps(s, MutationAnswers(id, ok));
    PlayKeeps(s1, more);
    ChangesAreRemembered(s1, more);
    hide UiInv, Take, Play, FlightOk;
    if Current(t.ui, i) { FlightIsFresh(t, i); }
    AnswerShows(t, i, reply);
  }

  lemma AnswerShows(s: State, i: nat, reply: Reply)
    requires Offered(s, Answers(i, reply)) && !Current(s.ui, i)
    ensures Take(s, Answers(i, reply)).ui.documents == s.ui.documents
  {
  }

  lemma FlightIsFresh(s: State, i: nat)
    requires Inv(s) && Current(s.ui, i) && s.ui.tasks[i].phase.Listing?
    ensures i in s.flights && s.flights[i].begun > s.changedAt
  {
    assert FlightOk(s, i);
  }

  /** A document whose deletion has succeeded before the component's eyes is not shown again. */
  lemma DeletedStaysDeleted(s: State, id: DocId, more: seq<Event>)
    requires Reachable(s) && Offered(s, MutationAnswers(id, true)) && SeesDeletion(s, id, true)
    ensures
      var t := Play(Take(s, MutationAnswers(id, true)), more);
      t.ui.documents.Some? ==> id !in Ids(t.ui.documents.value)
  {
    var s1 := Take(s, MutationAnswers(id, true));
    ReachableInv(s);
    AdvanceKeeps(s, MutationAnswers(id, true));
    PlayKeeps(s1, more);
    ChangesAreRemembered(s1, more);
    assert id in s1.gone;
    hide UiInv, Take, Play, FlightOk;
  }

  /** When the component is mounted and nothing is under way, the newest refresh has been answered,
      its documents, or the error it ended in, are what is shown, and the spinner is off. */
  lemma QuietShowsNewest(s: State)
    requires Reachable(s) && s.ui.alive && s.ui.operations == {} && forall i :: 0 <= i < |s.ui.tasks| ==>
      s.ui.tasks[i].phase.Done?
    ensures s.settled == s.ui.sequence && s.outcome.Some? && !s.outcome.value.Aborted?
    ensures s.outcome.value.Loaded? ==> s.ui.documents == Some(s.outcome.value.docs) && !s.ui.error
    ensures s.outcome.value.Failed? ==> s.ui.error
    ensures !s.ui.refreshing && s.ui.request.None?
  {
    ReachableInv(s);
    assert forall id :: id in s.ui.mutations ==> id in s.ui.operations;
  }
}
