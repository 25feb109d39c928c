/** The document list's request protocol: a sequence number, a chain of promises and mutations
    that invalidate what is in flight.

    A step is what runs between two awaits. `Ui` is the component's refs and state together with
    where its asynchronous callbacks stand; `State` adds the server and what has happened.
  */
module DocumentListModel {
  import opened Basics

  type DocId = nat

  datatype Doc = Doc(id: DocId, status: nat)

  /** One link of the promise chain: what one call of `refresh` appended. */
  datatype Phase = Queued | Listing(aborted: bool) | Done

  datatype Task = Task(version: nat, phase: Phase)

  datatype Action = Delete | Retry

  /** A mutation waits for the server, then for the refresh it has requested. */
  datatype Mutation = Sent(action: Action) | Awaiting(task: nat)

  datatype Ui = Ui(
    alive: bool,
    sequence: nat,
    tasks: seq<Task>,
    request: Option<nat>,
    operations: set<DocId>,
    mutations: map<DocId, Mutation>,
    documents: Option<seq<Doc>>,
    error: bool,
    refreshing: bool)

  datatype Reply = Loaded(docs: seq<Doc>) | Aborted | Failed

  function Mounting(): Ui {
    Ui(false, 0, [], None, {}, map[], None, false, false)
  }

  function Refresh(u: Ui): Ui {
    u.(sequence := u.sequence + 1, tasks := u.tasks + [Task(u.sequence + 1, Queued)])
  }

  function Abort(u: Ui): Ui {
    if u.request.Some? && u.request.value < |u.tasks|
    then u.(tasks := u.tasks[u.request.value := u.tasks[u.request.value].(phase := Listing(true))])
    else u
  }

  /** The sequence moves on and the request in flight, if any, is aborted. */
  function Invalidate(u: Ui): Ui {
    Abort(u.(sequence := u.sequence + 1))
  }

  function Mount(u: Ui): Ui {
    Refresh(u.(alive := true))
  }

  function Unmount(u: Ui): Ui {
    Invalidate(u.(alive := false))
  }

  function Poll(u: Ui, hidden: bool): Ui {
    if !hidden && u.request.None? && u.operations == {} then Refresh(u) else u
  }

  predicate Current(u: Ui, i: nat) {
    i < |u.tasks| && u.alive && u.tasks[i].version == u.sequence
  }

  function Finish(u: Ui, i: nat): Ui
    requires i < |u.tasks|
  {
    u.(tasks := u.tasks[i := u.tasks[i].(phase := Done)])
  }

  /** A link's callback starts: its predecessor has settled. */
  function RunTask(u: Ui, i: nat): Ui
    requires i < |u.tasks|
  {
    if !Current(u, i) then Finish(u, i)
    else u.(tasks := u.tasks[i := u.tasks[i].(phase := Listing(false))], request := Some(i), refreshing := true)
  }

  /** The rest of the callback once the list request has settled. */
  function Answer(u: Ui, i: nat, reply: Reply): Ui
    requires i < |u.tasks|
  {
    var current := Current(u, i);
    Finish(u, i).(
    documents := if current && reply.Loaded? then Some(reply.docs) else u.documents,
    error := if current && reply.Loaded? then false else if current && reply.Failed? then true else u.error,
    request := if u.request == Some(i) then None else u.request,
    refreshing := u.refreshing && !current)
  }

  function Operate(u: Ui, id: DocId, action: Action): Ui {
    if id in u.operations then u
    else Invalidate(u.(operations := u.operations + {id}, mutations := u.mutations[id := Sent(action)]))
  }

  function WithoutDoc(docs: seq<Doc>, id: DocId): seq<Doc> {
    if docs == [] then [] else (if docs[0].id == id then [] else docs[..1]) + WithoutDoc(docs[1..], id)
  }

  function Forget(u: Ui, id: DocId): Ui {
    u.(operations := u.operations - {id}, mutations := u.mutations - {id})
  }

  /** The rest of `operate` once the server has answered, up to awaiting its refresh. */
  function MutationAnswered(u: Ui, id: DocId, ok: bool): Ui
    requires id in u.mutations && u.mutations[id].Sent?
  {
    if !u.alive then Forget(u, id)
    else
      var deleted := ok && u.mutations[id].action.Delete? && u.documents.Some?;
      Refresh(u.(documents := if deleted then Some(WithoutDoc(u.documents.value, id)) else u.documents,
                 mutations := u.mutations[id := Awaiting(|u.tasks|)]))
  }

  // --- The component, the server and the network ---

  /** `ever` holds every id the server has used; it never uses one again. */
  datatype Server = Server(docs: seq<Doc>, ever: set<DocId>)

  function Ids(docs: seq<Doc>): set<DocId> {
    set i | 0 <= i < |docs| :: docs[i].id
  }

  /** A list request: when it began, and what the server read for it, once it has. */
  datatype Flight = Flight(begun: nat, seen: Option<seq<Doc>>)

  /** `changedAt` is when a mutation last started or was answered, `gone` the documents whose
      deletion the component has seen succeed, `settled` the version last shown and `outcome`
      the reply it got. */
  datatype State = State(
    ui: Ui,
    server: Server,
    flights: map<nat, Flight>,
    clock: nat,
    changedAt: nat,
    gone: set<DocId>,
    settled: nat,
    outcome: Option<Reply>)

  datatype Event =
    | Mounts
    | Unmounts
    | Refreshes
    | Polls(hidden: bool)
    | Runs(i: nat)
    | ServerReads(i: nat)
    | ServerChanges(docs: seq<Doc>)
    | Answers(i: nat, reply: Reply)
    | Operates(id: DocId, action: Action)
    | MutationAnswers(id: DocId, ok: bool)
    | OperationEnds(id: DocId)

  predicate TaskDone(u: Ui, i: nat) {
    i < |u.tasks| && u.tasks[i].phase.Done?
  }

  predicate Offered(s: State, e: Event) {
    match e
    case Mounts => !s.ui.alive
    case Unmounts => s.ui.alive
    case Runs(i) => i < |s.ui.tasks| && s.ui.tasks[i].phase.Queued? && (i > 0 ==> TaskDone(s.ui, i - 1))
    case ServerReads(i) => i < |s.ui.tasks| && s.ui.tasks[i].phase.Listing? && i in s.flights && s.flights[i].seen.None?
    case ServerChanges(docs) => Ids(docs) * s.server.ever <= Ids(s.server.docs)
    case Answers(i, reply) =>
      i < |s.ui.tasks| && s.ui.tasks[i].phase.Listing? &&
      (reply.Loaded? ==> i in s.flights && s.flights[i].seen == Some(reply.docs)) &&
      (reply.Aborted? ==> s.ui.tasks[i].phase.aborted)
    case Operates(id, _) => s.ui.alive && id in s.server.ever
    case MutationAnswers(id, ok) =>
      id in s.ui.mutations && s.ui.mutations[id].Sent? &&
      (ok && s.ui.mutations[id].action.Delete? ==> id in s.server.ever && id !in Ids(s.server.docs))
    case OperationEnds(id) =>
      id in s.ui.mutations && s.ui.mutations[id].Awaiting? && TaskDone(s.ui, s.ui.mutations[id].task)
    case _ => true
  }

  /** An answered deletion counts as seen when the component is still there. */
  predicate SeesDeletion(s: State, id: DocId, ok: bool) {
    s.ui.alive && ok && id in s.ui.mutations && s.ui.mutations[id].Sent? && s.ui.mutations[id].action.Delete?
  }

  function Take(s: State, e: Event): State
    requires Offered(s, e)
  {
    var clock := s.clock + 1;
    var t := s.(clock := clock);
    match e
    case Mounts => t.(ui := Mount(s.ui))
    case Unmounts => t.(ui := Unmount(s.ui))
    case Refreshes => t.(ui := Refresh(s.ui))
    case Polls(hidden) => t.(ui := if s.ui.alive then Poll(s.ui, hidden) else s.ui)
    case Runs(i) => t.(ui := RunTask(s.ui, i), flights := if Current(s.ui, i) then s.flights[i := Flight(clock, None)]
      else s.flights)
    case ServerReads(i) => t.(flights := s.flights[i := s.flights[i].(seen := Some(s.server.docs))])
    case ServerChanges(docs) => t.(server := Server(docs, s.server.ever + Ids(docs)))
    case Answers(i, reply) =>
      var shown := Current(s.ui, i) && !reply.Aborted?;
      t.(ui := Answer(s.ui, i, reply),
         settled := if shown then s.ui.sequence else s.settled, outcome := if shown then Some(reply) else s.outcome)
    case Operates(id, action) =>
      t.(ui := Operate(s.ui, id, action), changedAt := if id in s.ui.operations then s.changedAt else clock)
    case MutationAnswers(id, ok) =>
      t.(ui := MutationAnswered(s.ui, id, ok), changedAt := clock, gone := if SeesDeletion(s, id, ok) then s.gone + {id}
        else s.gone)
    case OperationEnds(id) => t.(ui := Forget(s.ui, id))
  }

  function Advance(s: State, e: Event): State {
    if Offered(s, e) then Take(s, e) else s
  }

  function Play(s: State, events: seq<Event>): State
    decreases |events|
  {
    if events == [] then s else Play(Advance(s, events[0]), events[1..])
  }

  function Start(docs: seq<Doc>): State {
    State(Mounting(), Server(docs, Ids(docs)), map[], 0, 0, {}, 0, None)
  }
}
