/** The queue as the object it is: fields updated in place, one method per
    atomic region, each equal to its step and keeping the invariant. */
module TaskQueueObject {
  import opened Segments
  import opened TaskQueue
  import opened TaskQueueProofs

  class Queue {
    var nodes: seq<Node>               // the heap of nodes
    var head: nat
    var tail: nat
    var done: bool
    var pending: int
    var firstException: Option<Error>
    var clients: seq<Client>           // where each client thread stands
    var worker: Worker
    var destructor: Destructor
    var h: History                     // the record the contracts speak of

    ghost function View(): State
      reads this
    {
      State(nodes, head, tail, done, pending, firstException, clients, worker, destructor, h)
    }

    ghost predicate Valid()
      reads this
    {
      Inv(View())
    }

    constructor (threads: nat)
      ensures Valid() && View() == Init(threads)
    {
      nodes := [Node(Empty, None, 0, 0, Some(0))];
      head, tail, done, pending, firstException := 0, 0, false, 0, None;
      clients, worker, destructor := Repeat(Outside, threads), Top(0), NotCalled;
      h := History([0], [Empty], [], [], 0, 0, false);
      new;
      InitOk(threads);
    }

    /** `pending.fetch_add(1)` */
    method CountTask(i: nat, task: Task)
      requires Valid() && i < |clients| && clients[i] == Outside && destructor == NotCalled
      modifies this
      ensures Valid() && View() == Next(old(View()), Count(i, task))
    {
      hide Inv;
      StepKept(View(), Count(i, task));
      pending := pending + 1;
      clients := clients[i := Counted(task)];
      h := h.(begun := h.begun + 1);
    }

    /** `new Node(task)` */
    method AllocateNode(i: nat)
      requires Valid() && i < |clients| && clients[i].Counted?
      modifies this
      ensures Valid() && View() == Next(old(View()), Allocate(i))
    {
      hide Inv;
      StepKept(View(), Allocate(i));
      var node := |nodes|;
      nodes := nodes + [Node(clients[i].task, None, 0, i, None)];
      clients := clients[i := Holding(node, clients[i].task)];
    }

    /** `prev = tail.exchange(node)` */
    method ExchangeTail(i: nat)
      requires Valid() && i < |clients| && clients[i].Holding?
      modifies this
      ensures Valid() && View() == Next(old(View()), Exchange(i))
    {
      hide Inv;
      HeldNode(View(), i);
      StepKept(View(), Exchange(i));
      var node, task := clients[i].node, clients[i].task;
      var prev := tail;
      tail := node;
      nodes := nodes[node := nodes[node].(at := Some(|h.order|))];
      clients := clients[i := InGap(node, prev)];
      h := h.(order := h.order + [node], asked := h.asked + [task]);
    }

    /** `prev->next.store(node)`; `prev` has not been freed. */
    method LinkNode(i: nat)
      requires Valid() && i < |clients| && clients[i].InGap?
      modifies this
      ensures Valid() && View() == Next(old(View()), Link(i))
    {
      hide Inv;
      GapNode(View(), i);
      StepKept(View(), Link(i));
      var node, prev := clients[i].node, clients[i].prev;
      GapAlive(View(), i);
      assert nodes[prev].frees == 0;
      nodes := nodes[prev := nodes[prev].(next := Some(node))];
      clients := clients[i := Outside];
    }

    /** The locked region of `sync`, entered once its wait is satisfied; what is
        thrown is the first failure since the slot was last taken. */
    method TakeFirstException(allowed: nat) returns (thrown: Option<Error>)
      requires Valid() && (pending <= allowed || done)
      modifies this
      ensures Valid() && View() == Next(old(View()), Sync(allowed))
      ensures old(h.taken) <= |h.outcomes| && h.outcomes == old(h.outcomes)
      ensures IsFirst(h.outcomes, old(h.taken), thrown)
      ensures InOrder(h) && (!done ==> |h.outcomes| + allowed >= h.begun)
    {
      hide Inv;
      SyncPromise(View(), allowed);
      StepKept(View(), Sync(allowed));
      thrown := firstException;
      firstException := None;
      h := h.(taken := |h.outcomes|);
    }

    /** The worker looks at `done` or at `curr->next`, which has not been freed. */
    method Look()
      requires Valid() && (worker.Top? || worker.Loading? || worker.Asleep?)
      modifies this`worker
      ensures Valid() && View() == Next(old(View()), Work(None))
    {
      hide Inv;
      StepKept(View(), Work(None));
      WorkerNodes(View());
      match worker
      case Top(curr) =>
        if done { worker := Exited; } else { worker := Loading(curr); }
      case Loading(curr) =>
        match nodes[curr].next {
          case Some(next) => worker := Found(curr, next);
          case None => worker := Asleep(curr);
        }
      case Asleep(curr) =>
        if nodes[curr].next.Some? || done { worker := Top(curr); }
    }

    /** `next->task()`, which ends with `result`: the next request of the order,
        put on record as that request's ending. */
    method CallNext(result: Option<Error>)
      requires Valid() && worker.Found?
      modifies this
      ensures Valid() && View() == Next(old(View()), Work(result))
      ensures |h.ran| == |old(h.ran)| + 1 < |h.asked| && EndingOf(h.asked[|h.ran|], h.ran[|h.ran| - 1])
    {
      hide Inv, EndingOf, InOrder;
      StepKept(View(), Work(result));
      EndsNext(View(), result);
      WorkerNodes(View());
      var curr, next := worker.curr, worker.next;
      match nodes[next].task
      case Call(id) =>
        worker := Ran(curr, next, result);
        h := h.(ran := h.ran + [Called(id, result)]);
      case Empty =>
        worker := Ran(curr, next, None);
        h := h.(ran := h.ran + [Skipped]);
    }

    /** `delete curr`, then `head.store(next)`. */
    method Retire()
      requires Valid() && (worker.Ran? || worker.Deleted?)
      modifies this
      ensures Valid() && View() == Next(old(View()), Work(None))
      ensures old(worker.Ran?) ==> old(worker.curr) < |nodes| && nodes[old(worker.curr)].frees == 1
      ensures old(worker.Deleted?) ==> head < |nodes| && nodes[head].frees == 0
    {
      hide Inv;
      StepKept(View(), Work(None));
      if worker.Deleted? { HeadAlive(View()); }
      WorkerNodes(View());
      match worker
      case Ran(curr, next, error) =>
        nodes := nodes[curr := nodes[curr].(frees := nodes[curr].frees + 1)];
        worker := Deleted(next, error);
      case Deleted(next, error) =>
        head := next;
        worker := Moved(next, error);
    }

    /** The worker's locked region: what is booked is how the call of that place
        ended, and the slot holds the first failure since it was last taken. */
    method BookOutcome()
      requires Valid() && worker.Moved?
      modifies this
      ensures Valid() && View() == Next(old(View()), Work(None))
      ensures InOrder(h) && |h.outcomes| == |h.ran|
      ensures h.taken <= |h.outcomes| && IsFirst(h.outcomes, h.taken, firstException)
    {
      hide Inv;
      StepKept(View(), Work(None));
      Booked(View());
      var curr, error := worker.curr, worker.error;
      if error.Some? && firstException.None? { firstException := error; }
      pending := pending - 1;
      worker := Top(curr);
      h := h.(outcomes := h.outcomes + [error]);
    }

    /** `done = true`, by the destructor; no client may still be inside. */
    method StopWorker()
      requires Valid() && destructor == NotCalled && ClientsOutside(View())
      modifies this
      ensures Valid() && View() == Next(old(View()), Shutdown)
    {
      hide Inv;
      StepKept(View(), Shutdown);
      done := true;
      destructor := Stopping;
    }

    /** One turn of the destructor's loop. */
    method FreeOne(n: nat) returns (next: Option<nat>)
      requires Valid() && destructor == Walking(Some(n))
      modifies this
      ensures Valid() && destructor == Walking(next) && |nodes| == old(|nodes|) && |h.order| == old(|h.order|)
      ensures Left() < old(Left())
    {
      hide Inv, Gone;
      StepKept(View(), Walk);
      WalkAdvances(View(), n);
      next := nodes[n].next;
      nodes := nodes[n := nodes[n].(frees := nodes[n].frees + 1)];
      destructor := Walking(next);
    }

    /** Nodes of the order not yet deleted. */
    ghost function Left(): int
      reads this
    {
      |h.order| - Gone(worker, destructor, nodes, h.order, |h.outcomes|)
    }

    /** After `join`: the loop that frees what is left, from `head` on. */
    method FreeRemaining()
      requires Valid() && destructor == Stopping && worker == Exited
      modifies this
      ensures Valid() && destructor == Walking(None)
      ensures |nodes| == old(|nodes|) && forall n :: 0 <= n < |nodes| ==> nodes[n].frees == 1
    {
      hide Inv, Gone;
      StepKept(View(), TaskQueue.Join);
      var node := Some(head);
      destructor := Walking(node);
      while node.Some?
        invariant Valid() && destructor == Walking(node) && |nodes| == old(|nodes|)
        decreases Left()
      {
        NeverPast(View());
        node := FreeOne(node.value);
      }
      AllFreed(View());
    }
  }

  lemma EndsNext(s: State, result: Option<Error>)
    requires Inv(s) && s.worker.Found?
    ensures var t := WorkStep(s, result);
      |t.h.ran| == |s.h.ran| + 1 < |t.h.asked| && EndingOf(t.h.asked[|t.h.ran|], t.h.ran[|t.h.ran| - 1])
  {
    WorkerNodes(s);
    FoundPlace(s);
    hide OrderOk, LinksOk, HeldOk, ClientsOk, FreesOk, ErrorOk, DestructorOk, CountsOk, WorkerOk, AskedOk;
  }

  lemma NeverPast(s: State)
    requires Inv(s)
    ensures Gone(s.worker, s.destructor, s.nodes, s.h.order, |s.h.outcomes|) <= |s.h.order|
  {
    hide AskedOk, LinksOk, HeldOk, ClientsOk, RanOk, ErrorOk, CountsOk, FreesOk;
  }

  lemma HeadAlive(s: State)
    requires Inv(s) && s.worker.Deleted?
    ensures s.worker.next < |s.nodes| && s.nodes[s.worker.next].frees == 0
  {
    hide AskedOk, LinksOk, HeldOk, ClientsOk, RanOk, ErrorOk, CountsOk;
  }

  lemma Booked(s: State)
    requires Inv(s) && s.worker.Moved?
    ensures var t := WorkStep(s, None);
      && InOrder(t.h) && |t.h.outcomes| == |t.h.ran|
      && t.h.taken <= |t.h.outcomes| && IsFirst(t.h.outcomes, t.h.taken, t.firstException)
  {
    hide OrderOk, LinksOk, HeldOk, ClientsOk, FreesOk, FirstFailure, IsFirst, DestructorOk, CountsOk, WorkerOk;
    FailureAppend(s.h.outcomes, s.worker.error, s.h.taken);
    FirstFailureIsFirst(s.h.outcomes + [s.worker.error], s.h.taken);
    BookedRan(s.h.asked, s.worker, Top(s.worker.curr), s.h.ran, s.h.outcomes);
  }

  lemma GapAlive(s: State, i: nat)
    requires Inv(s) && i < |s.clients| && s.clients[i].InGap?
    ensures s.clients[i].prev < |s.nodes| && s.nodes[s.clients[i].prev].frees == 0
  {
    GapNode(s, i);
    ClosedWorker(s.worker, s.head, s.h.order, s.nodes, |s.h.outcomes|, s.destructor, 0, s.clients[i].prev);
  }
}
