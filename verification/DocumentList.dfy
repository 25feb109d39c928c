/** The document list component: its refs and state, updated in place by its callbacks. Each
    method is the code between two awaits, proved to compute its function in
    `DocumentListModel`. */
module DocumentList {
  import opened Basics
  import opened DocumentListModel
  import M = DocumentListModel

  class DocumentList {
    var alive: bool
    var sequence: nat
    var tasks: seq<Task>                 // the promise chain and where its callbacks stand
    var request: Option<nat>
    var operations: set<DocId>
    var mutations: map<DocId, Mutation>  // where each running `operate` stands
    var documents: Option<seq<Doc>>
    var error: bool
    var refreshing: bool

    ghost function View(): Ui
      reads this
    {
      Ui(alive, sequence, tasks, request, operations, mutations, documents, error, refreshing)
    }

    constructor ()
      ensures View() == Mounting()
    {
      alive, sequence, tasks, request := false, 0, [], None;
      operations, mutations := {}, map[];
      documents, error, refreshing := None, false, false;
    }

    method Refresh() returns (task: nat)
      modifies this`sequence, this`tasks
      ensures View() == M.Refresh(old(View())) && task == |old(tasks)|
    {
      sequence := sequence + 1;
      task := |tasks|;
      tasks := tasks + [Task(sequence, Queued)];
    }

    /** Moves the sequence on and aborts the request in flight. */
    method Invalidate()
      modifies this`sequence, this`tasks
      ensures View() == M.Invalidate(old(View()))
    {
      sequence := sequence + 1;
      if request.Some? && request.value < |tasks| {
        tasks := tasks[request.value := tasks[request.value].(phase := Listing(true))];
      }
    }

    method Mount()
      modifies this`alive, this`sequence, this`tasks
      ensures View() == M.Mount(old(View()))
    {
      alive := true;
      var _ := Refresh();
    }

    method Unmount()
      modifies this`alive, this`sequence, this`tasks
      ensures View() == M.Unmount(old(View()))
    {
      alive := false;
      Invalidate();
    }

    method Poll(hidden: bool)
      modifies this`sequence, this`tasks
      ensures View() == M.Poll(old(View()), hidden)
    {
      if !hidden && request.None? && operations == {} {
        var _ := Refresh();
      }
    }

    predicate Newest(i: nat)
      requires i < |tasks|
      reads this
      ensures Newest(i) == Current(View(), i)
    {
      alive && tasks[i].version == sequence
    }

    method Settle(i: nat)
      requires i < |tasks|
      modifies this`tasks
      ensures View() == Finish(old(View()), i)
    {
      tasks := tasks[i := tasks[i].(phase := Done)];
    }

    /** The callback of link `i`, up to awaiting the list request. */
    method RunTask(i: nat)
      requires i < |tasks|
      modifies this`tasks, this`request, this`refreshing
      ensures View() == M.RunTask(old(View()), i)
    {
      if !Newest(i) {
        Settle(i);
        return;
      }
      tasks := tasks[i := tasks[i].(phase := Listing(false))];
      request := Some(i);
      refreshing := true;
    }

    /** The callback of link `i` once its request has settled. */
    method Answer(i: nat, reply: Reply)
      requires i < |tasks|
      modifies this`tasks, this`request, this`refreshing, this`documents, this`error
      ensures View() == M.Answer(old(View()), i, reply)
    {
      match reply {
        case Loaded(docs) =>
          if Newest(i) {
            documents := Some(docs);
            error := false;
          }
        case Failed =>
          if Newest(i) {
            error := true;
          }
        case Aborted =>
      }
      if request == Some(i) {
        request := None;
      }
      if Newest(i) {
        refreshing := false;
      }
      Settle(i);
    }

    method Operate(id: DocId, action: Action)
      modifies this`operations, this`mutations, this`sequence, this`tasks
      ensures View() == M.Operate(old(View()), id, action)
    {
      if id in operations {
        return;
      }
      operations := operations + {id};
      mutations := mutations[id := Sent(action)];
      // A snapshot begun before this mutation must not be shown.
      Invalidate();
    }

    /** `operate` once the server has answered: on success a deleted row goes at once, and either
        way a refresh follows. */
    method MutationAnswered(id: DocId, ok: bool)
      requires id in mutations && mutations[id].Sent?
      modifies this`documents, this`operations, this`mutations, this`sequence, this`tasks
      ensures View() == M.MutationAnswered(old(View()), id, ok)
    {
      if !alive {
        Forget(id);
        return;
      }
      if ok && mutations[id].action.Delete? && documents.Some? {
        documents := Some(WithoutDoc(documents.value, id));
      }
      var task := Refresh();
      mutations := mutations[id := Awaiting(task)];
    }

    method Forget(id: DocId)
      modifies this`operations, this`mutations
      ensures View() == M.Forget(old(View()), id)
    {
      operations := operations - {id};
      mutations := mutations - {id};
    }
  }
}
