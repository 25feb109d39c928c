/** What the document list does at each event, and that it can always get to show what the server
    holds. */
module DocumentListOutcomes {
  import opened Basics
  import opened DocumentListModel
  import opened DocumentListTheorems

  /** A list request is in flight. */
  predicate RequestInFlight(s: State) {
    exists i :: 0 <= i < |s.ui.tasks| && s.ui.tasks[i].phase.Listing?
  }

  /** One refresh more is waiting at the end of the chain, and it is the newest. */
  predicate Queues(u: Ui, u': Ui) {
    u'.sequence == u.sequence + 1 && |u'.tasks| == |u.tasks| + 1 && u'.tasks[..|u.tasks|] == u.tasks &&
    u'.tasks[|u.tasks|] == Task(u'.sequence, Queued)
  }

  /** What is on the screen. */
  predicate ShowsSame(u: Ui, u': Ui) {
    u'.documents == u.documents && u'.error == u.error
  }

  /** A poll refreshes exactly when the page is visible, no list request is in flight and no operation
      runs; otherwise it does nothing. */
  lemma PollRefreshesIff(s: State, hidden: bool)
    requires Reachable(s)
    ensures
      var u' := Take(s, Polls(hidden)).ui;
      if s.ui.alive && !hidden && !RequestInFlight(s) && s.ui.operations == {}
      then Queues(s.ui, u') && u' == s.ui.(sequence := u'.sequence, tasks := u'.tasks)
      else u' == s.ui
  {
    ReachableInv(s);
    assert s.ui.request.Some? ==> s.ui.tasks[s.ui.request.value].phase.Listing?;
  }

  lemma OneRow(doc: Doc, id: DocId)
    ensures WithoutDoc([doc], id) == if doc.id == id then [] else [doc]
  {
    assert [doc][..1] == [doc] && [doc][1..] == [];
  }

  lemma FirstOfSum(a: seq<Doc>, b: seq<Doc>)
    requires a != []
    ensures (a + b)[1..] == a[1..] + b && (a + b)[..1] == a[..1] && (a + b)[0] == a[0] && a + b != []
  {
  }

  /** The rows of other documents, in order: one row after the other is kept or dropped. */
  lemma {:induction false} OtherRowsStay(a: seq<Doc>, b: seq<Doc>, id: DocId)
    ensures WithoutDoc(a + b, id) == WithoutDoc(a, id) + WithoutDoc(b, id)
    ensures a != [] ==> WithoutDoc(a[..1], id) == if a[0].id == id then [] else [a[0]]
  {
    if a == [] {
      assert a + b == b;
    } else {
      OneRow(a[0], id);
      assert a[..1] == [a[0]];
      FirstOfSum(a, b);
      OtherRowsStay(a[1..], b, id);
      Regrouped(if a[0].id == id then [] else a[..1], WithoutDoc(a[1..], id), WithoutDoc(b, id));
    }
  }

  lemma Regrouped(a: seq<Doc>, b: seq<Doc>, c: seq<Doc>)
    ensures a + (b + c) == (a + b) + c
  {
  }

  /** An answered mutation takes its row off the screen exactly when a deletion succeeded; a failed
      deletion and a retry leave every row. Either way a mounted component refreshes, and keeps the
      operation until then; an unmounted one only forgets it. */
  lemma MutationShows(s: State, id: DocId, ok: bool)
    requires Reachable(s) && Offered(s, MutationAnswers(id, ok))
    ensures
      var u' := Take(s, MutationAnswers(id, ok)).ui;
      u'.error == s.ui.error &&
      if !s.ui.alive then u' == s.ui.(operations := s.ui.operations - {id}, mutations := s.ui.mutations - {id})
      else
        Queues(s.ui, u') && u'.operations == s.ui.operations && id in u'.operations &&
        u'.mutations == s.ui.mutations[id := Awaiting(|s.ui.tasks|)] &&
        u'.documents ==
          if ok && s.ui.mutations[id].action.Delete? && s.ui.documents.Some?
          then Some(WithoutDoc(s.ui.documents.value, id)) else s.ui.documents
  {
    ReachableInv(s);
    assert id in s.ui.mutations.Keys;
  }

  /** A second operation on a document is ignored while one runs. The first one makes every refresh
      so far stale and aborts the one in flight, and leaves the screen as it is. */
  lemma OperationStarts(s: State, id: DocId, action: Action)
    requires Reachable(s) && Offered(s, Operates(id, action))
    ensures
      var u' := Take(s, Operates(id, action)).ui;
      if id in s.ui.operations then u' == s.ui
      else
        ShowsSame(s.ui, u') && u'.operations == s.ui.operations + {id} &&
          u'.mutations == s.ui.mutations[id := Sent(action)] &&
        |u'.tasks| == |s.ui.tasks| && forall i :: 0 <= i < |u'.tasks| ==>
          !Current(u', i) &&
          u'.tasks[i] == if s.ui.tasks[i].phase.Listing? then s.ui.tasks[i].(phase := Listing(true)) else s.ui.tasks[i]
  {
    ReachableInv(s);
  }

  /** Leaving the page aborts the request in flight; coming back, or asking, queues a refresh. */
  lemma MountingAndLeaving(s: State)
    requires Reachable(s)
    ensures
      s.ui.alive ==>
        var u' := Take(s, Unmounts).ui;
        !u'.alive && ShowsSame(s.ui, u') && |u'.tasks| == |s.ui.tasks| &&
        forall i :: 0 <= i < |u'.tasks| ==>
          u'.tasks[i] == if s.ui.tasks[i].phase.Listing? then s.ui.tasks[i].(phase := Listing(true)) else s.ui.tasks[i]
    ensures
      !s.ui.alive ==>
        var u' := Take(s, Mounts).ui; u'.alive && Queues(s.ui, u') && ShowsSame(s.ui, u')
    ensures var u' := Take(s, Refreshes).ui; Queues(s.ui, u') && u' == s.ui.(sequence := u'.sequence, tasks := u'.tasks)
  {
    ReachableInv(s);
  }

  /** A queued refresh of a mounted component sends its request exactly when no newer refresh or
      mutation has made it stale; a stale one settles without a request. */
  lemma RunStartsIff(s: State, i: nat)
    requires Reachable(s) && Offered(s, Runs(i))
    ensures
      var u' := Take(s, Runs(i)).ui;
      ShowsSame(s.ui, u') && |u'.tasks| == |s.ui.tasks| &&
      (forall k :: 0 <= k < |u'.tasks| && k != i ==> u'.tasks[k] == s.ui.tasks[k]) &&
      if s.ui.alive && s.ui.tasks[i].version == s.ui.sequence
      then u'.tasks[i] == s.ui.tasks[i].(phase := Listing(false)) && u'.refreshing
      else u'.tasks[i] == s.ui.tasks[i].(phase := Done) && u'.refreshing == s.ui.refreshing
  {
  }

  /** The answer of the newest request shows what it loaded and clears the error, or shows the error
      and keeps the rows; a stale or aborted request shows nothing. Either way it is settled. */
  lemma AnswerShowsIff(s: State, i: nat, reply: Reply)
    requires Reachable(s) && Offered(s, Answers(i, reply))
    ensures
      var (u', newest) := (Take(s, Answers(i, reply)).ui, s.ui.alive && s.ui.tasks[i].version == s.ui.sequence);
      u'.tasks == s.ui.tasks[i := s.ui.tasks[i].(phase := Done)] && u'.request.None? &&
      (newest ==> !u'.refreshing && !reply.Aborted?) &&
      match reply
      case Loaded(docs) => if newest then u'.documents == Some(docs) && !u'.error else ShowsSame(s.ui, u')
      case Failed => u'.documents == s.ui.documents && u'.error == (newest || s.ui.error)
      case Aborted => ShowsSame(s.ui, u')
  {
    ReachableInv(s);
  }

  /** The operation ends with the refresh it asked for, and only then may another one start. */
  lemma OperationEndsIff(s: State, id: DocId)
    requires Reachable(s) && id in s.ui.operations && id in s.ui.mutations
    ensures
      Offered(s, OperationEnds(id)) <==>
        s.ui.mutations[id].Awaiting? && s.ui.mutations[id].task < |s.ui.tasks| &&
        s.ui.tasks[s.ui.mutations[id].task].phase.Done?
    ensures
      Offered(s, OperationEnds(id)) ==>
        Take(s, OperationEnds(id)).ui ==
        s.ui.(operations := s.ui.operations - {id}, mutations := s.ui.mutations - {id})
  {
  }

  // --- The chain never gets stuck ---

  /** How many links have not settled. */
  function Unfinished(tasks: seq<Task>): nat {
    if tasks == [] then 0 else Unfinished(tasks[..|tasks| - 1]) + if tasks[|tasks| - 1].phase.Done? then 0 else 1
  }

  lemma {:induction false} SettlingOne(tasks: seq<Task>, i: nat)
    requires i < |tasks| && !tasks[i].phase.Done?
    ensures Unfinished(tasks[i := tasks[i].(phase := Done)]) < Unfinished(tasks)
  {
    var last := |tasks| - 1;
    var tasks' := tasks[i := tasks[i].(phase := Done)];
    if i < last {
      assert tasks'[..last] == tasks[..last][i := tasks[i].(phase := Done)];
      SettlingOne(tasks[..last], i);
    } else {
      assert tasks'[..last] == tasks[..last];
    }
  }

  /** The first link that has not settled. */
  lemma {:induction false} FirstUnsettled(s: State) returns (i: nat)
    requires Unfinished(s.ui.tasks) > 0
    ensures i < |s.ui.tasks| && !s.ui.tasks[i].phase.Done? && forall k :: 0 <= k < i ==> s.ui.tasks[k].phase.Done?
  {
    NothingUnfinished(s.ui.tasks);
    i := 0;
    while s.ui.tasks[i].phase.Done?
      invariant i < |s.ui.tasks| && forall k :: 0 <= k < i ==> s.ui.tasks[k].phase.Done?
      decreases |s.ui.tasks| - i
    {
      i := i + 1;
    }
  }

  /** One event more. */
  lemma PlayOne(s: State, e: Event, more: seq<Event>)
    requires Offered(s, e)
    ensures Play(s, [e] + more) == Play(Take(s, e), more)
  {
    assert ([e] + more)[1..] == more;
    hide Take, Offered;
  }

  lemma {:induction false} PlayAppend(s: State, events: seq<Event>, more: seq<Event>)
    ensures Play(s, events + more) == Play(Play(s, events), more)
    decreases |events|
  {
    hide Advance;
    if events == [] {
      assert events + more == more;
    } else {
      assert (events + more)[1..] == events[1..] + more;
      PlayAppend(Advance(s, events[0]), events[1..], more);
    }
  }

  /** Mounted or not, with the same documents on the server, and one link less to settle. */
  predicate Nearer(s: State, s': State) {
    s'.ui.alive == s.ui.alive && s'.server == s.server && Unfinished(s'.ui.tasks) < Unfinished(s.ui.tasks)
  }

  lemma AnswerSettles(s: State, i: nat)
    requires Inv(s) && i < |s.ui.tasks| && s.ui.tasks[i].phase.Listing?
    ensures Offered(s, Answers(i, Failed))
    ensures var s' := Take(s, Answers(i, Failed)); Inv(s') && Nearer(s, s')
  {
    SettlingOne(s.ui.tasks, i);
    AdvanceKeeps(s, Answers(i, Failed));
    hide Inv;
  }

  /** The first link that has not settled can be made to. */
  lemma SettleFirst(s: State) returns (events: seq<Event>)
    requires Inv(s) && Unfinished(s.ui.tasks) > 0
    ensures var s' := Play(s, events); Inv(s') && Nearer(s, s')
  {
    var i := FirstUnsettled(s);
    if s.ui.tasks[i].phase.Listing? {
      AnswerSettles(s, i);
      events := [Answers(i, Failed)] + [];
      PlayOne(s, Answers(i, Failed), []);
    } else {
      var s1 := Take(s, Runs(i));
      AdvanceKeeps(s, Runs(i));
      PlayOne(s, Runs(i), []);
      PlayOne(s, Runs(i), [Answers(i, Failed)] + []);
      if s1.ui.tasks[i].phase.Done? {
        SettlingOne(s.ui.tasks, i);
        events := [Runs(i)] + [];
      } else {
        StartedIsUnfinished(s.ui.tasks, i);
        AnswerSettles(s1, i);
        PlayOne(s1, Answers(i, Failed), []);
        events := [Runs(i)] + ([Answers(i, Failed)] + []);
      }
    }
  }

  lemma {:induction false} StartedIsUnfinished(tasks: seq<Task>, i: nat)
    requires i < |tasks| && !tasks[i].phase.Done?
    ensures Unfinished(tasks[i := tasks[i].(phase := Listing(false))]) == Unfinished(tasks)
  {
    var last := |tasks| - 1;
    var tasks' := tasks[i := tasks[i].(phase := Listing(false))];
    if i < last {
      assert tasks'[..last] == tasks[..last][i := tasks[i].(phase := Listing(false))];
      StartedIsUnfinished(tasks[..last], i);
    } else {
      assert tasks'[..last] == tasks[..last];
    }
  }

  lemma {:induction false} NothingUnfinished(tasks: seq<Task>)
    ensures Unfinished(tasks) == 0 <==> forall i :: 0 <= i < |tasks| ==> tasks[i].phase.Done?
  {
    if tasks != [] { NothingUnfinished(tasks[..|tasks| - 1]); }
  }

  /** Every link of the chain can settle. */
  lemma {:induction false} ChainDrains(s: State) returns (events: seq<Event>)
    requires Inv(s)
    ensures
      var s' := Play(s, events);
      Inv(s') && s'.ui.alive == s.ui.alive && s'.server == s.server && Unfinished(s'.ui.tasks) == 0
    decreases Unfinished(s.ui.tasks)
  {
    hide Inv, Take, Offered;
    if Unfinished(s.ui.tasks) == 0 {
      events := [];
    } else {
      var first := SettleFirst(s);
      var rest := ChainDrains(Play(s, first));
      PlayAppend(s, first, rest);
      events := first + rest;
    }
  }

  predicate Shows(s: State, docs: seq<Doc>) {
    s.ui.documents == Some(docs) && !s.ui.error && !s.ui.refreshing
  }

  /** On a settled chain a refresh runs, is answered and shown. */
  lemma RefreshShows(s: State) returns (events: seq<Event>)
    requires Inv(s) && s.ui.alive && Unfinished(s.ui.tasks) == 0
    ensures Shows(Play(s, events), s.server.docs)
  {
    var n := |s.ui.tasks|;
    NothingUnfinished(s.ui.tasks);
    var s1 := Take(s, Refreshes);
    var s2 := Take(s1, Runs(n));
    var s3 := Take(s2, ServerReads(n));
    var last := [Answers(n, Loaded(s.server.docs))] + [];
    PlayOne(s3, Answers(n, Loaded(s.server.docs)), []);
    PlayOne(s2, ServerReads(n), last);
    PlayOne(s1, Runs(n), [ServerReads(n)] + last);
    PlayOne(s, Refreshes, [Runs(n)] + ([ServerReads(n)] + last));
    events := [Refreshes] + ([Runs(n)] + ([ServerReads(n)] + last));
  }

  /** However operations, polls and answers have interleaved, a mounted component can always get to
      show what the server holds: the chain has no dead end. */
  lemma CanAlwaysShow(s: State) returns (events: seq<Event>)
    requires Reachable(s) && s.ui.alive
    ensures Shows(Play(s, events), s.server.docs)
  {
    ReachableInv(s);
    hide Inv;
    var drain := ChainDrains(s);
    var show := RefreshShows(Play(s, drain));
    PlayAppend(s, drain, show);
    events := drain + show;
  }
}
