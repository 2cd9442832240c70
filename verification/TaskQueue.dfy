/** The linked task queue: any number of enqueuers, one worker, bounded `sync`,
    and the destructor, one atomic step at a time. */
module TaskQueue {
  import opened Segments

  type Error = int

  /** What was put into the queue; an empty function is dequeued but not called. */
  datatype Task = Empty | Call(id: nat)

  /** `frees` counts deletions; `maker` and `at` record the enqueuer and the
      place in `tail.exchange` order. */
  datatype Node = Node(task: Task, next: Option<nat>, frees: nat, maker: nat, at: Option<nat>)

  /** Where a client thread stands inside `enqueue`. */
  datatype Client =
    | Outside
    | Counted(task: Task)              // pending incremented
    | Holding(node: nat, task: Task)   // node allocated
    | InGap(node: nat, prev: nat)      // tail exchanged, prev->next not stored yet

  datatype Worker =
    | Top(curr: nat)
    | Loading(curr: nat)                                // done was read false
    | Found(curr: nat, next: nat)
    | Ran(curr: nat, next: nat, error: Option<Error>)
    | Deleted(next: nat, error: Option<Error>)          // curr freed
    | Moved(curr: nat, error: Option<Error>)            // head stored
    | Asleep(curr: nat)
    | Exited

  datatype Destructor = NotCalled | Stopping | Walking(node: Option<nat>)

  /** How one dequeued function ended: an empty one is skipped, any other is
      called and returns or throws. */
  datatype Ending = Skipped | Called(id: nat, result: Option<Error>)

  function ResultOf(e: Ending): Option<Error> {
    match e case Skipped => None case Called(_, result) => result
  }

  /** What happened: nodes in exchange order with what their enqueuers asked
      for, the endings in the order the worker met them, the outcomes it booked,
      how many of those an earlier `sync` has accounted for, and how many
      enqueues began. */
  datatype History = History(
    order: seq<nat>,
    asked: seq<Task>,
    ran: seq<Ending>,
    outcomes: seq<Option<Error>>,
    taken: nat,
    begun: nat,
    touchedFreed: bool)

  datatype State = State(
    nodes: seq<Node>,
    head: nat,
    tail: nat,
    done: bool,
    pending: int,
    firstException: Option<Error>,
    clients: seq<Client>,
    worker: Worker,
    destructor: Destructor,
    h: History)

  /** After the constructor: a dummy node, and `clients` threads outside. */
  function Init(clients: nat): State {
    State([Node(Empty, None, 0, 0, Some(0))], 0, 0, false, 0, None,
          Repeat(Outside, clients), Top(0), NotCalled, History([0], [Empty], [], [], 0, 0, false))
  }

  datatype Action =
    | Count(i: nat, task: Task)
    | Allocate(i: nat)
    | Exchange(i: nat)
    | Link(i: nat)
    | Sync(allowed: nat)
    | Work(result: Option<Error>)
    | Shutdown
    | Join
    | Walk

  // ----- node accesses -----

  predicate Freed(s: State, n: nat) { n >= |s.nodes| || s.nodes[n].frees > 0 }

  function Touch(s: State, n: nat): State {
    s.(h := s.h.(touchedFreed := s.h.touchedFreed || Freed(s, n)))
  }

  function Delete(s: State, n: nat): State
    requires n < |s.nodes|
  {
    Touch(s, n).(nodes := s.nodes[n := s.nodes[n].(frees := s.nodes[n].frees + 1)])
  }

  // ----- enqueue -----

  function CountStep(s: State, i: nat, task: Task): State
    requires i < |s.clients|
  {
    if s.clients[i] != Outside || s.destructor != NotCalled then s
    else s.(pending := s.pending + 1, clients := s.clients[i := Counted(task)], h := s.h.(begun := s.h.begun + 1))
  }

  function AllocateStep(s: State, i: nat): State
    requires i < |s.clients|
  {
    match s.clients[i]
    case Counted(task) =>
      s.(nodes := s.nodes + [Node(task, None, 0, i, None)], clients := s.clients[i := Holding(|s.nodes|, task)])
    case _ => s
  }

  function ExchangeStep(s: State, i: nat): State
    requires i < |s.clients|
  {
    match s.clients[i]
    case Holding(node, task) =>
      if node >= |s.nodes| then s
      else
        s.(tail := node,
           nodes := s.nodes[node := s.nodes[node].(at := Some(|s.h.order|))],
           clients := s.clients[i := InGap(node, s.tail)],
           h := s.h.(order := s.h.order + [node], asked := s.h.asked + [task]))
    case _ => s
  }

  function LinkStep(s: State, i: nat): State
    requires i < |s.clients|
  {
    match s.clients[i]
    case InGap(node, prev) =>
      if prev >= |s.nodes| then s
      else Touch(s, prev).(nodes := s.nodes[prev := s.nodes[prev].(next := Some(node))],
                           clients := s.clients[i := Outside])
    case _ => s
  }

  // ----- sync -----

  predicate SyncReady(s: State, allowed: nat) { s.pending <= allowed || s.done }

  /** The critical section; `s.firstException` is what the caller then throws. */
  function SyncStep(s: State, allowed: nat): State {
    if SyncReady(s, allowed) then s.(firstException := None, h := s.h.(taken := |s.h.outcomes|)) else s
  }

  // ----- worker -----

  function Finish(s: State, curr: nat, error: Option<Error>): State {
    s.(firstException := if error.Some? && s.firstException.None? then error else s.firstException,
       pending := s.pending - 1,
       worker := Top(curr),
       h := s.h.(outcomes := s.h.outcomes + [error]))
  }

  /** The call itself; its ending goes on record here, its error travels on in the worker. */
  function RunTask(s: State, curr: nat, next: nat, result: Option<Error>): State
    requires next < |s.nodes|
  {
    var t := Touch(s, next);
    match s.nodes[next].task
    case Empty => t.(worker := Ran(curr, next, None), h := t.h.(ran := t.h.ran + [Skipped]))
    case Call(id) => t.(worker := Ran(curr, next, result), h := t.h.(ran := t.h.ran + [Called(id, result)]))
  }

  function WorkStep(s: State, result: Option<Error>): State {
    match s.worker
    case Top(curr) => s.(worker := if s.done then Exited else Loading(curr))
    case Loading(curr) =>
      if curr >= |s.nodes| then Touch(s, curr)
      else
        Touch(s, curr).(worker := match s.nodes[curr].next case Some(n) => Found(curr, n) case None => Asleep(curr))
    case Found(curr, next) =>
      if next >= |s.nodes| then Touch(s, next) else RunTask(s, curr, next, result)
    case Ran(curr, next, error) =>
      if curr >= |s.nodes| then Touch(s, curr) else Delete(s, curr).(worker := Deleted(next, error))
    case Deleted(next, error) => s.(head := next, worker := Moved(next, error))
    case Moved(curr, error) => Finish(s, curr, error)
    case Asleep(curr) =>
      if curr >= |s.nodes| then Touch(s, curr)
      else if s.nodes[curr].next.Some? || s.done then Touch(s, curr).(worker := Top(curr))
      else s
    case Exited => s
  }

  // ----- destructor -----

  /** C++ lets the destructor begin only when no client is inside a method
      that still needs the object. */
  predicate ClientsOutside(s: State) { forall i :: 0 <= i < |s.clients| ==> s.clients[i] == Outside }

  function ShutdownStep(s: State): State {
    if s.destructor == NotCalled && ClientsOutside(s) then s.(done := true, destructor := Stopping) else s
  }

  function JoinStep(s: State): State {
    if s.destructor == Stopping && s.worker == Exited then s.(destructor := Walking(Some(s.head))) else s
  }

  function WalkStep(s: State): State {
    match s.destructor
    case Walking(Some(n)) =>
      if n >= |s.nodes| then Touch(s, n)
      else Delete(s, n).(destructor := Walking(s.nodes[n].next))
    case _ => s
  }

  function Next(s: State, a: Action): State {
    match a
    case Count(i, task) => if i < |s.clients| then CountStep(s, i, task) else s
    case Allocate(i) => if i < |s.clients| then AllocateStep(s, i) else s
    case Exchange(i) => if i < |s.clients| then ExchangeStep(s, i) else s
    case Link(i) => if i < |s.clients| then LinkStep(s, i) else s
    case Sync(allowed) => SyncStep(s, allowed)
    case Work(result) => WorkStep(s, result)
    case Shutdown => ShutdownStep(s)
    case Join => JoinStep(s)
    case Walk => WalkStep(s)
  }

  function Run(s: State, schedule: seq<Action>): State {
    if |schedule| == 0 then s else Next(Run(s, schedule[..|schedule| - 1]), schedule[|schedule| - 1])
  }
}
