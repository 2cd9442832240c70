/** What every run of the queue keeps. */
module TaskQueueProofs {
  import opened Segments
  import opened TaskQueue

  // ----- the invariant -----

  /** Exchange order and node records name each other. */
  ghost predicate OrderOk(nodes: seq<Node>, tail: nat, order: seq<nat>) {
    && |order| >= 1 && order[|order| - 1] == tail
    && (forall k :: 0 <= k < |order| ==> order[k] < |nodes| && nodes[order[k]].at == Some(k))
    && (forall n :: 0 <= n < |nodes| && nodes[n].at.Some? ==>
          nodes[n].at.value < |order| && order[nodes[n].at.value] == n)
  }

  /** The nodes carry what was asked for, place by place (nothing, for the dummy). */
  ghost predicate AskedOk(nodes: seq<Node>, order: seq<nat>, asked: seq<Task>) {
    && |asked| == |order|
    && forall k :: 0 <= k < |order| ==> order[k] < |nodes| && nodes[order[k]].task == asked[k]
  }

  /** A stored link leads to the next node in exchange order; a missing one is
      either at the tail or waits for the enqueuer inside the gap. */
  ghost predicate LinksOk(nodes: seq<Node>, order: seq<nat>, clients: seq<Client>) {
    && (forall k :: 0 <= k < |order| ==> order[k] < |nodes|)
    && (forall k :: 0 <= k < |order| - 1 ==>
          var node, prev := nodes[order[k + 1]], nodes[order[k]];
          prev.next == Some(order[k + 1])
          || (prev.next == None && node.maker < |clients| && clients[node.maker] == InGap(order[k + 1], order[k])))
    && (|order| > 0 ==> nodes[order[|order| - 1]].next == None)
  }

  /** A node outside the order is held by its maker. */
  ghost predicate HeldOk(nodes: seq<Node>, clients: seq<Client>) {
    forall n :: 0 <= n < |nodes| && nodes[n].at == None ==>
      nodes[n].maker < |clients| && clients[nodes[n].maker] == Holding(n, nodes[n].task) && nodes[n].next == None
  }

  ghost predicate ClientOk(nodes: seq<Node>, i: nat, c: Client) {
    match c
    case Outside => true
    case Counted(_) => true
    case Holding(n, task) => n < |nodes| && nodes[n].at == None && nodes[n].maker == i && nodes[n].task == task
    case InGap(n, p) =>
      && n < |nodes| && p < |nodes| && nodes[n].maker == i
      && nodes[n].at.Some? && nodes[p].at.Some? && nodes[n].at.value == nodes[p].at.value + 1
      && nodes[p].next == None
  }

  ghost predicate ClientsOk(nodes: seq<Node>, clients: seq<Client>) {
    forall i :: 0 <= i < |clients| ==> ClientOk(nodes, i, clients[i])
  }

  /** How many nodes of the exchange order have been deleted. */
  function Gone(w: Worker, d: Destructor, nodes: seq<Node>, order: seq<nat>, finished: nat): nat {
    match d
    case Walking(None) => |order|
    case Walking(Some(n)) => if n < |nodes| && nodes[n].at.Some? then nodes[n].at.value else 0
    case _ => if w.Deleted? || w.Moved? then finished + 1 else finished
  }

  ghost predicate FreesOk(nodes: seq<Node>, gone: nat) {
    forall n :: 0 <= n < |nodes| ==>
      nodes[n].frees == if nodes[n].at.Some? && nodes[n].at.value < gone then 1 else 0
  }

  function Ran(w: Worker, finished: nat): nat {
    if w.Ran? || w.Deleted? || w.Moved? then finished + 1 else finished
  }

  ghost predicate WorkerOk(w: Worker, head: nat, order: seq<nat>, nodes: seq<Node>, finished: nat)
  {
    && (forall k :: 0 <= k < |order| ==> order[k] < |nodes|)
    && finished < |order|
    && (forall k :: 0 <= k < finished ==> nodes[order[k]].next == Some(order[k + 1]))
    && match w
       case Top(curr) => curr == order[finished] && head == curr
       case Loading(curr) => curr == order[finished] && head == curr
       case Asleep(curr) => curr == order[finished] && head == curr
       case Exited => head == order[finished]
       case Found(curr, next) =>
         finished + 1 < |order| && curr == order[finished] && next == order[finished + 1] && head == curr
         && nodes[curr].next == Some(next)
       case Ran(curr, next, _) =>
         finished + 1 < |order| && curr == order[finished] && next == order[finished + 1] && head == curr
         && nodes[curr].next == Some(next)
       case Deleted(next, _) =>
         finished + 1 < |order| && next == order[finished + 1]
         && nodes[order[finished]].next == Some(next)
       case Moved(curr, _) =>
         finished + 1 < |order| && curr == order[finished + 1] && head == curr
         && nodes[order[finished]].next == Some(curr)
  }

  /** Clients that have counted their task but not yet taken their place. */
  function Unplaced(clients: seq<Client>): nat {
    if |clients| == 0 then 0
    else Unplaced(clients[..|clients| - 1])
         + (if clients[|clients| - 1].Counted? || clients[|clients| - 1].Holding? then 1 else 0)
  }

  ghost predicate CountsOk(pending: int, clients: seq<Client>, begun: nat, placed: nat, finished: nat) {
    && begun == placed + Unplaced(clients)
    && pending == begun - finished
  }

  /** The first failure in a list of outcomes. */
  function FirstFailure(outcomes: seq<Option<Error>>): (r: Option<Error>) {
    if |outcomes| == 0 then None
    else
      var earlier := FirstFailure(outcomes[..|outcomes| - 1]);
      if earlier.Some? then earlier else outcomes[|outcomes| - 1]
  }

  /** `e` is the failure at the first place from `from` on that has one, and none if no place has. */
  ghost predicate IsFirst(outcomes: seq<Option<Error>>, from: nat, e: Option<Error>) {
    match e
    case None => forall k :: from <= k < |outcomes| ==> outcomes[k] == None
    case Some(_) =>
      exists k :: from <= k < |outcomes| && outcomes[k] == e && forall j :: from <= j < k ==> outcomes[j] == None
  }

  /** The fold finds the first place. */
  lemma {:induction false} FirstFailureIsFirst(outcomes: seq<Option<Error>>, from: nat)
    requires from <= |outcomes|
    ensures IsFirst(outcomes, from, FirstFailure(outcomes[from..]))
  {
    if from < |outcomes| {
      var n := |outcomes| - 1;
      FirstFailureIsFirst(outcomes[..n], from);
      assert outcomes[from..][..|outcomes[from..]| - 1] == outcomes[..n][from..];
      var earlier := FirstFailure(outcomes[..n][from..]);
      if earlier.Some? {
        var k :| from <= k < n && outcomes[..n][k] == earlier && forall j :: from <= j < k ==> outcomes[..n][j] == None;
        assert outcomes[k] == earlier && forall j :: from <= j < k ==> outcomes[j] == outcomes[..n][j];
      } else {
        assert forall j :: from <= j < n ==> outcomes[j] == outcomes[..n][j];
        assert outcomes[n] == FirstFailure(outcomes[from..]);
      }
    }
  }

  ghost predicate ErrorOk(slot: Option<Error>, outcomes: seq<Option<Error>>, taken: nat) {
    taken <= |outcomes| && slot == FirstFailure(outcomes[taken..])
  }

  ghost predicate DestructorOk(done: bool, d: Destructor, clients: seq<Client>, w: Worker,
                               nodes: seq<Node>, finished: nat) {
    && (done <==> d != NotCalled)
    && (d != NotCalled ==> forall i :: 0 <= i < |clients| ==> clients[i] == Outside)
    && match d
       case Walking(None) => w == Exited
       case Walking(Some(n)) => w == Exited && n < |nodes| && nodes[n].at.Some? && nodes[n].at.value >= finished
       case _ => w == Exited ==> done
  }

  /** The ending belongs to what was asked for. */
  predicate EndingOf(task: Task, e: Ending) {
    match task case Empty => e == Skipped case Call(id) => e.Called? && e.id == id
  }

  /** Place by place: the endings are those of the requests in exchange order,
      and what is booked, or on its way to be, is their results. */
  ghost predicate RanOk(asked: seq<Task>, w: Worker, ran: seq<Ending>, outcomes: seq<Option<Error>>) {
    && |ran| == Ran(w, |outcomes|) && |ran| < |asked|
    && (forall k :: 0 <= k < |ran| ==> EndingOf(asked[k + 1], ran[k]))
    && (forall k :: 0 <= k < |outcomes| ==> outcomes[k] == ResultOf(ran[k]))
    && (w.Ran? || w.Deleted? || w.Moved? ==> w.error == ResultOf(ran[|outcomes|]))
  }

  ghost predicate Inv(s: State) {
    && OrderOk(s.nodes, s.tail, s.h.order)
    && AskedOk(s.nodes, s.h.order, s.h.asked)
    && LinksOk(s.nodes, s.h.order, s.clients)
    && HeldOk(s.nodes, s.clients)
    && ClientsOk(s.nodes, s.clients)
    && WorkerOk(s.worker, s.head, s.h.order, s.nodes, |s.h.outcomes|)
    && FreesOk(s.nodes, Gone(s.worker, s.destructor, s.nodes, s.h.order, |s.h.outcomes|))
    && RanOk(s.h.asked, s.worker, s.h.ran, s.h.outcomes)
    && (|s.h.order| > 0 && CountsOk(s.pending, s.clients, s.h.begun, |s.h.order| - 1, |s.h.outcomes|))
    && ErrorOk(s.firstException, s.h.outcomes, s.h.taken)
    && DestructorOk(s.done, s.destructor, s.clients, s.worker, s.nodes, |s.h.outcomes|)
    && !s.h.touchedFreed
  }

  // ----- small facts -----

  lemma {:induction false} UnplacedUpdate(clients: seq<Client>, i: nat, c: Client)
    requires i < |clients|
    ensures Unplaced(clients[i := c]) + (if clients[i].Counted? || clients[i].Holding? then 1 else 0)
         == Unplaced(clients) + (if c.Counted? || c.Holding? then 1 else 0)
  {
    var n := |clients| - 1;
    if i < n {
      UnplacedUpdate(clients[..n], i, c);
      assert clients[i := c][..n] == clients[..n][i := c];
    } else {
      assert clients[i := c][..n] == clients[..n];
    }
  }

  lemma {:induction false} UnplacedNone(clients: seq<Client>)
    requires forall i :: 0 <= i < |clients| ==> clients[i] == Outside
    ensures Unplaced(clients) == 0
  {
    if |clients| > 0 { UnplacedNone(clients[..|clients| - 1]); }
  }

  lemma InitNodes(clients: seq<Client>)
    requires forall i :: 0 <= i < |clients| ==> clients[i] == Outside
    ensures var nodes := [Node(Empty, None, 0, 0, Some(0))];
      && OrderOk(nodes, 0, [0]) && AskedOk(nodes, [0], [Empty]) && LinksOk(nodes, [0], clients)
      && HeldOk(nodes, clients) && ClientsOk(nodes, clients)
  {}

  lemma InitThreads(clients: seq<Client>)
    requires forall i :: 0 <= i < |clients| ==> clients[i] == Outside
    ensures var nodes := [Node(Empty, None, 0, 0, Some(0))];
      && WorkerOk(Top(0), 0, [0], nodes, 0) && FreesOk(nodes, Gone(Top(0), NotCalled, nodes, [0], 0))
      && RanOk([Empty], Top(0), [], []) && CountsOk(0, clients, 0, 0, 0) && ErrorOk(None, [], 0)
      && DestructorOk(false, NotCalled, clients, Top(0), nodes, 0)
  {
    UnplacedNone(clients);
  }

  lemma InitOk(clients: nat)
    ensures Inv(Init(clients))
  {
    hide OrderOk, AskedOk, LinksOk, HeldOk, ClientsOk, WorkerOk, FreesOk, RanOk, CountsOk, ErrorOk, DestructorOk, Gone;
    InitNodes(Init(clients).clients);
    InitThreads(Init(clients).clients);
  }

  // ----- enqueue keeps it -----

  /** A client step that touches no node. */
  lemma CountKept(s: State, i: nat, task: Task)
    requires Inv(s) && i < |s.clients|
    ensures Inv(CountStep(s, i, task))
  {
    hide AskedOk, OrderOk, WorkerOk, FreesOk, RanOk, ErrorOk, Unplaced;
    UnplacedUpdate(s.clients, i, Counted(task));
  }

  lemma GrownNodes(s: State, i: nat, task: Task)
    requires Inv(s) && i < |s.clients| && s.clients[i] == Counted(task)
    ensures var nodes, clients := s.nodes + [Node(task, None, 0, i, None)], s.clients[i := Holding(|s.nodes|, task)];
      && OrderOk(nodes, s.tail, s.h.order)
      && LinksOk(nodes, s.h.order, clients)
      && HeldOk(nodes, clients)
      && ClientsOk(nodes, clients)
  {
    hide WorkerOk, FreesOk, RanOk, ErrorOk, CountsOk, DestructorOk;
  }

  lemma GrownWorker(w: Worker, head: nat, order: seq<nat>, nodes: seq<Node>, finished: nat, node: Node, d: Destructor)
    requires node.frees == 0 && node.at == None
    requires WorkerOk(w, head, order, nodes, finished)
    requires d == NotCalled && FreesOk(nodes, Gone(w, d, nodes, order, finished))
    ensures WorkerOk(w, head, order, nodes + [node], finished)
    ensures FreesOk(nodes + [node], Gone(w, d, nodes + [node], order, finished))
  {}

  lemma AskedSame(nodes: seq<Node>, after: seq<Node>, order: seq<nat>, asked: seq<Task>)
    requires AskedOk(nodes, order, asked)
    requires |nodes| <= |after| && forall n :: 0 <= n < |nodes| ==> after[n].task == nodes[n].task
    ensures AskedOk(after, order, asked)
  {}

  lemma AllocateKept(s: State, i: nat)
    requires Inv(s) && i < |s.clients|
    ensures Inv(AllocateStep(s, i))
  {
    hide AskedOk, OrderOk, LinksOk, HeldOk, ClientsOk, WorkerOk, FreesOk, RanOk, ErrorOk, Unplaced, Gone;
    if s.clients[i].Counted? {
      var t := AllocateStep(s, i);
      GrownNodes(s, i, s.clients[i].task);
      GrownWorker(s.worker, s.head, s.h.order, s.nodes, |s.h.outcomes|, t.nodes[|s.nodes|], s.destructor);
      AskedSame(s.nodes, t.nodes, s.h.order, s.h.asked);
      UnplacedUpdate(s.clients, i, t.clients[i]);
    }
  }

  lemma PlacedNode(nodes: seq<Node>, tail: nat, order: seq<nat>, clients: seq<Client>, i: nat, n: nat)
    requires OrderOk(nodes, tail, order) && LinksOk(nodes, order, clients) && HeldOk(nodes, clients)
    requires ClientsOk(nodes, clients)
    requires i < |clients| && clients[i].Holding? && clients[i].node == n
    ensures n < |nodes|
    ensures var after := nodes[n := nodes[n].(at := Some(|order|))]; var now := clients[i := InGap(n, tail)];
      && OrderOk(after, n, order + [n])
      && LinksOk(after, order + [n], now)
      && HeldOk(after, now)
      && ClientsOk(after, now)
  {
    hide LinksOk;
    assert ClientOk(nodes, i, clients[i]);
    PlacedLinks(nodes, order, clients, i, n);
    TailUnlinked(nodes, tail, order, clients);
    PlacedClients(nodes, tail, order, clients, i, n);
    hide ClientsOk;
  }

  lemma PlacedClients(nodes: seq<Node>, tail: nat, order: seq<nat>, clients: seq<Client>, i: nat, n: nat)
    requires OrderOk(nodes, tail, order) && ClientsOk(nodes, clients)
    requires i < |clients| && clients[i].Holding? && clients[i].node == n && n < |nodes| && nodes[n].at == None
    requires nodes[n].maker == i && tail < |nodes| && nodes[tail].next == None
    ensures ClientsOk(nodes[n := nodes[n].(at := Some(|order|))], clients[i := InGap(n, tail)])
  {
    var after := nodes[n := nodes[n].(at := Some(|order|))];
    forall j | 0 <= j < |clients| && j != i ensures ClientOk(after, j, clients[j]) {
      assert ClientOk(nodes, j, clients[j]);
    }
  }

  lemma TailUnlinked(nodes: seq<Node>, tail: nat, order: seq<nat>, clients: seq<Client>)
    requires OrderOk(nodes, tail, order) && LinksOk(nodes, order, clients)
    ensures tail < |nodes| && nodes[tail].next == None
  {}

  lemma PlacedLinks(nodes: seq<Node>, order: seq<nat>, clients: seq<Client>, i: nat, n: nat)
    requires LinksOk(nodes, order, clients) && HeldOk(nodes, clients) && |order| > 0
    requires i < |clients| && clients[i].Holding? && clients[i].node == n && n < |nodes| && nodes[n].at == None
    requires nodes[n].maker == i
    requires forall k :: 0 <= k < |order| ==> order[k] < |nodes| && nodes[order[k]].at == Some(k)
    ensures LinksOk(nodes[n := nodes[n].(at := Some(|order|))], order + [n], clients[i := InGap(n, order[|order| - 1])])
  {}

  lemma PlacedWorker(w: Worker, head: nat, order: seq<nat>, nodes: seq<Node>, finished: nat, d: Destructor, n: nat)
    requires n < |nodes| && nodes[n].at == None && nodes[n].frees == 0
    requires WorkerOk(w, head, order, nodes, finished)
    requires d == NotCalled && FreesOk(nodes, Gone(w, d, nodes, order, finished))
    requires forall k :: 0 <= k < |order| ==> nodes[order[k]].at == Some(k)
    ensures var after := nodes[n := nodes[n].(at := Some(|order|))];
      WorkerOk(w, head, order + [n], after, finished)
      && FreesOk(after, Gone(w, d, after, order + [n], finished))
  {}

  lemma PlacedAsked(nodes: seq<Node>, order: seq<nat>, asked: seq<Task>, n: nat, task: Task)
    requires AskedOk(nodes, order, asked) && n < |nodes| && nodes[n].task == task
    ensures AskedOk(nodes, order + [n], asked + [task])
  {}

  lemma PlacedRan(asked: seq<Task>, task: Task, w: Worker, ran: seq<Ending>, outcomes: seq<Option<Error>>)
    requires RanOk(asked, w, ran, outcomes)
    ensures RanOk(asked + [task], w, ran, outcomes)
  {}

  lemma ExchangeKept(s: State, i: nat)
    requires Inv(s) && i < |s.clients|
    ensures Inv(ExchangeStep(s, i))
  {
    hide AskedOk, OrderOk, LinksOk, HeldOk, ClientsOk, WorkerOk, FreesOk, RanOk, ErrorOk, Unplaced, Gone;
    if s.clients[i].Holding? {
      var t := ExchangeStep(s, i);
      var n := s.clients[i].node;
      PlacedNode(s.nodes, s.tail, s.h.order, s.clients, i, n);
      HeldNode(s, i);
      PlacedWorker(s.worker, s.head, s.h.order, s.nodes, |s.h.outcomes|, s.destructor, n);
      AskedSame(s.nodes, t.nodes, s.h.order, s.h.asked);
      PlacedAsked(t.nodes, s.h.order, s.h.asked, n, s.clients[i].task);
      PlacedRan(s.h.asked, s.clients[i].task, s.worker, s.h.ran, s.h.outcomes);
      UnplacedUpdate(s.clients, i, t.clients[i]);
    }
  }

  lemma HeldNode(s: State, i: nat)
    requires Inv(s) && i < |s.clients| && s.clients[i].Holding?
    ensures var n := s.clients[i].node;
      n < |s.nodes| && s.nodes[n].at == None && s.nodes[n].frees == 0 && s.destructor == NotCalled
      && s.nodes[n].task == s.clients[i].task
    ensures forall k :: 0 <= k < |s.h.order| ==> s.nodes[s.h.order[k]].at == Some(k)
  {
    hide AskedOk, LinksOk, HeldOk, WorkerOk, RanOk, ErrorOk, CountsOk, Gone;
    assert ClientOk(s.nodes, i, s.clients[i]);
  }

  /** Closing a gap: the node before the gap gets its link. */
  lemma ClosedLinks(nodes: seq<Node>, tail: nat, order: seq<nat>, clients: seq<Client>, i: nat, n: nat, p: nat)
    requires OrderOk(nodes, tail, order) && LinksOk(nodes, order, clients)
    requires i < |clients| && clients[i] == InGap(n, p) && ClientOk(nodes, i, clients[i])
    ensures var after := nodes[p := nodes[p].(next := Some(n))];
      LinksOk(after, order, clients[i := Outside])
  {
    var k := nodes[p].at.value;
    assert order[k] == p && order[k + 1] == n;
  }

  lemma ClosedRest(nodes: seq<Node>, tail: nat, order: seq<nat>, clients: seq<Client>, i: nat, n: nat, p: nat)
    requires OrderOk(nodes, tail, order) && HeldOk(nodes, clients) && ClientsOk(nodes, clients)
    requires i < |clients| && clients[i] == InGap(n, p) && p < |nodes|
    ensures var after := nodes[p := nodes[p].(next := Some(n))]; var now := clients[i := Outside];
      && OrderOk(after, tail, order)
      && HeldOk(after, now)
      && ClientsOk(after, now)
  {
    assert ClientOk(nodes, i, clients[i]);
    var after := nodes[p := nodes[p].(next := Some(n))];
    forall j | 0 <= j < |clients| && j != i ensures ClientOk(after, j, clients[j]) {
      assert ClientOk(nodes, j, clients[j]);
    }
  }

  lemma ClosedWorker(w: Worker, head: nat, order: seq<nat>, nodes: seq<Node>, finished: nat, d: Destructor, n: nat,
                     p: nat)
    requires p < |nodes| && nodes[p].next == None && nodes[p].at.Some?
    requires WorkerOk(w, head, order, nodes, finished)
    requires d == NotCalled && FreesOk(nodes, Gone(w, d, nodes, order, finished))
    requires nodes[p].at.value < |order| && order[nodes[p].at.value] == p
    ensures nodes[p].frees == 0
    ensures var after := nodes[p := nodes[p].(next := Some(n))];
      WorkerOk(w, head, order, after, finished)
      && FreesOk(after, Gone(w, d, after, order, finished))
  {
    var k := nodes[p].at.value;
    forall j | 0 <= j < finished ensures order[j] != p {
      assert nodes[order[j]].next == Some(order[j + 1]);
    }
    assert order[k] == p && k >= finished;
    assert k >= Gone(w, d, nodes, order, finished);
  }

  lemma GapNode(s: State, i: nat)
    requires Inv(s) && i < |s.clients| && s.clients[i].InGap?
    ensures var p := s.clients[i].prev;
      p < |s.nodes| && s.nodes[p].next == None && s.nodes[p].at.Some? && s.destructor == NotCalled
      && s.nodes[p].at.value < |s.h.order| && s.h.order[s.nodes[p].at.value] == p
      && ClientOk(s.nodes, i, s.clients[i])
  {
    hide AskedOk, LinksOk, HeldOk, WorkerOk, RanOk, FreesOk, ErrorOk, CountsOk, Gone;
    assert ClientOk(s.nodes, i, s.clients[i]);
  }

  lemma LinkKept(s: State, i: nat)
    requires Inv(s) && i < |s.clients|
    ensures Inv(LinkStep(s, i))
  {
    hide AskedOk, OrderOk, LinksOk, HeldOk, ClientsOk, WorkerOk, FreesOk, RanOk, ErrorOk, Unplaced, Gone;
    if s.clients[i].InGap? {
      var t := LinkStep(s, i);
      var n, p := s.clients[i].node, s.clients[i].prev;
      GapNode(s, i);
      ClosedLinks(s.nodes, s.tail, s.h.order, s.clients, i, n, p);
      ClosedRest(s.nodes, s.tail, s.h.order, s.clients, i, n, p);
      ClosedWorker(s.worker, s.head, s.h.order, s.nodes, |s.h.outcomes|, s.destructor, n, p);
      AskedSame(s.nodes, t.nodes, s.h.order, s.h.asked);
      UnplacedUpdate(s.clients, i, t.clients[i]);
    }
  }

  // ----- sync keeps it -----

  lemma SyncKept(s: State, allowed: nat)
    requires Inv(s)
    ensures Inv(SyncStep(s, allowed))
  {
    hide AskedOk, OrderOk, LinksOk, HeldOk, ClientsOk, WorkerOk, FreesOk, RanOk, Unplaced, Gone;
  }

  // ----- the worker keeps it -----

  /** The worker's own record moves on without touching a node. */
  lemma LookKept(s: State, result: Option<Error>)
    requires Inv(s) && (s.worker.Top? || s.worker.Loading? || s.worker.Asleep? || s.worker.Exited?)
    ensures Inv(WorkStep(s, result))
  {
    hide AskedOk, OrderOk, LinksOk, HeldOk, ClientsOk, RanOk, ErrorOk, CountsOk;
    IdleRan(s.h.asked, s.worker, WorkStep(s, result).worker, s.h.ran, s.h.outcomes);
    WorkerNodes(s);
    WorkerLinks(s);
  }

  predicate Between(w: Worker) { !w.Ran? && !w.Deleted? && !w.Moved? }

  /** The worker moves about between two calls. */
  lemma IdleRan(asked: seq<Task>, w: Worker, v: Worker, ran: seq<Ending>, outcomes: seq<Option<Error>>)
    requires RanOk(asked, w, ran, outcomes) && Between(w) && Between(v)
    ensures RanOk(asked, v, ran, outcomes)
  {}

  /** Nothing the worker may touch has been deleted. */
  lemma WorkerNodes(s: State)
    requires Inv(s)
    ensures (s.worker.Top? || s.worker.Loading? || s.worker.Asleep? || s.worker.Found? || s.worker.Ran?) ==>
      s.worker.curr < |s.nodes| && s.nodes[s.worker.curr].frees == 0
    ensures (s.worker.Found? || s.worker.Ran?) ==> s.worker.next < |s.nodes| && s.nodes[s.worker.next].frees == 0
    ensures !s.worker.Exited? ==> !s.destructor.Walking?
  {
    hide AskedOk, LinksOk, HeldOk, ClientsOk, RanOk, ErrorOk, CountsOk;
  }

  lemma WorkerLinks(s: State)
    requires Inv(s) && |s.h.outcomes| < |s.h.order|
    ensures var curr := s.h.order[|s.h.outcomes|];
      curr < |s.nodes| && (s.nodes[curr].next.Some? ==>
        |s.h.outcomes| + 1 < |s.h.order| && s.nodes[curr].next == Some(s.h.order[|s.h.outcomes| + 1]))
  {
    hide AskedOk, OrderOk, HeldOk, ClientsOk, RanOk, ErrorOk, CountsOk, FreesOk, WorkerOk;
  }

  lemma RunKept(s: State, result: Option<Error>)
    requires Inv(s) && s.worker.Found?
    ensures Inv(WorkStep(s, result))
  {
    hide AskedOk, OrderOk, LinksOk, HeldOk, ClientsOk, RanOk, ErrorOk, CountsOk, FreesOk, WorkerOk, DestructorOk;
    WorkerNodes(s);
    FoundPlace(s);
    CallRan(s, result);
    FoundRuns(s, WorkStep(s, result).worker);
  }

  lemma FoundRuns(s: State, w: Worker)
    requires Inv(s) && s.worker.Found? && w.Ran? && w.curr == s.worker.curr && w.next == s.worker.next
    ensures WorkerOk(w, s.head, s.h.order, s.nodes, |s.h.outcomes|)
    ensures Gone(w, s.destructor, s.nodes, s.h.order, |s.h.outcomes|)
         == Gone(s.worker, s.destructor, s.nodes, s.h.order, |s.h.outcomes|)
    ensures DestructorOk(s.done, s.destructor, s.clients, w, s.nodes, |s.h.outcomes|)
  {
    hide AskedOk, OrderOk, LinksOk, HeldOk, ClientsOk, RanOk, ErrorOk, CountsOk, FreesOk;
  }

  /** What the worker is about to call is the next request of the order. */
  lemma FoundPlace(s: State)
    requires Inv(s) && s.worker.Found? && s.worker.next < |s.nodes|
    ensures |s.h.outcomes| + 1 < |s.h.asked| && s.nodes[s.worker.next].task == s.h.asked[|s.h.outcomes| + 1]
  {
    hide OrderOk, LinksOk, HeldOk, ClientsOk, RanOk, ErrorOk, CountsOk, FreesOk, DestructorOk;
  }

  lemma CallRan(s: State, result: Option<Error>)
    requires s.worker.Found? && s.worker.next < |s.nodes| && |s.h.outcomes| + 1 < |s.h.asked|
    requires s.nodes[s.worker.next].task == s.h.asked[|s.h.outcomes| + 1]
    requires RanOk(s.h.asked, s.worker, s.h.ran, s.h.outcomes)
    ensures var t := WorkStep(s, result); RanOk(t.h.asked, t.worker, t.h.ran, t.h.outcomes)
  {}

  /** Deleting a node changes nothing but its count. */
  lemma DeletedStructure(nodes: seq<Node>, tail: nat, order: seq<nat>, clients: seq<Client>, n: nat)
    requires n < |nodes|
    requires OrderOk(nodes, tail, order) && LinksOk(nodes, order, clients) && HeldOk(nodes, clients)
    requires ClientsOk(nodes, clients)
    ensures var after := nodes[n := nodes[n].(frees := nodes[n].frees + 1)];
      && OrderOk(after, tail, order) && LinksOk(after, order, clients)
      && HeldOk(after, clients) && ClientsOk(after, clients)
  {
    DeletedClients(nodes, clients, n);
    hide ClientsOk;
  }

  lemma DeletedClients(nodes: seq<Node>, clients: seq<Client>, n: nat)
    requires n < |nodes| && ClientsOk(nodes, clients)
    ensures ClientsOk(nodes[n := nodes[n].(frees := nodes[n].frees + 1)], clients)
  {
    forall i | 0 <= i < |clients|
      ensures ClientOk(nodes[n := nodes[n].(frees := nodes[n].frees + 1)], i, clients[i])
    {
      assert ClientOk(nodes, i, clients[i]);
    }
  }

  lemma DeletedFrees(nodes: seq<Node>, tail: nat, order: seq<nat>, n: nat, gone: nat)
    requires OrderOk(nodes, tail, order) && FreesOk(nodes, gone)
    requires gone < |order| && order[gone] == n
    ensures n < |nodes| && nodes[n].frees == 0
    ensures FreesOk(nodes[n := nodes[n].(frees := nodes[n].frees + 1)], gone + 1)
  {}

  lemma DeletedWorker(s: State, result: Option<Error>)
    requires Inv(s) && s.worker.Ran? && s.worker.curr < |s.nodes|
    ensures var t := WorkStep(s, result);
      WorkerOk(t.worker, t.head, t.h.order, t.nodes, |t.h.outcomes|)
      && DestructorOk(t.done, t.destructor, t.clients, t.worker, t.nodes, |t.h.outcomes|)
      && |s.h.outcomes| < |s.h.order| && s.h.order[|s.h.outcomes|] == s.worker.curr
      && !s.destructor.Walking?
  {
    hide AskedOk, OrderOk, LinksOk, HeldOk, ClientsOk, RanOk, ErrorOk, CountsOk, FreesOk;
  }

  lemma DeleteKept(s: State, result: Option<Error>)
    requires Inv(s) && s.worker.Ran?
    ensures Inv(WorkStep(s, result))
  {
    hide AskedOk, OrderOk, LinksOk, HeldOk, ClientsOk, RanOk, ErrorOk, CountsOk, FreesOk, WorkerOk, DestructorOk;
    var t := WorkStep(s, result);
    WorkerNodes(s);
    DeletedWorker(s, result);
    DeletedStructure(s.nodes, s.tail, s.h.order, s.clients, s.worker.curr);
    DeletedFrees(s.nodes, s.tail, s.h.order, s.worker.curr, |s.h.outcomes|);
    AskedSame(s.nodes, t.nodes, s.h.order, s.h.asked);
    CarriedRan(s.h.asked, s.worker, t.worker, s.h.ran, s.h.outcomes);
  }

  /** The worker carries the error of the call on. */
  lemma CarriedRan(asked: seq<Task>, w: Worker, v: Worker, ran: seq<Ending>, outcomes: seq<Option<Error>>)
    requires RanOk(asked, w, ran, outcomes) && !Between(w) && !Between(v) && v.error == w.error
    ensures RanOk(asked, v, ran, outcomes)
  {}

  lemma MoveKept(s: State, result: Option<Error>)
    requires Inv(s) && s.worker.Deleted?
    ensures Inv(WorkStep(s, result))
  {
    hide AskedOk, OrderOk, LinksOk, HeldOk, ClientsOk, RanOk, ErrorOk, CountsOk, FreesOk;
    CarriedRan(s.h.asked, s.worker, WorkStep(s, result).worker, s.h.ran, s.h.outcomes);
  }

  lemma FailureAppend(outcomes: seq<Option<Error>>, error: Option<Error>, taken: nat)
    requires taken <= |outcomes|
    ensures FirstFailure((outcomes + [error])[taken..])
         == if FirstFailure(outcomes[taken..]).Some? then FirstFailure(outcomes[taken..]) else error
  {
    var now := (outcomes + [error])[taken..];
    assert now[..|now| - 1] == outcomes[taken..];
  }

  /** The error is booked at the place of its call. */
  lemma BookedRan(asked: seq<Task>, w: Worker, v: Worker, ran: seq<Ending>, outcomes: seq<Option<Error>>)
    requires RanOk(asked, w, ran, outcomes) && !Between(w) && Between(v)
    ensures RanOk(asked, v, ran, outcomes + [w.error])
  {}

  lemma FinishKept(s: State, result: Option<Error>)
    requires Inv(s) && s.worker.Moved?
    ensures Inv(WorkStep(s, result))
  {
    hide AskedOk, OrderOk, LinksOk, HeldOk, ClientsOk, RanOk, FreesOk, FirstFailure;
    BookedRan(s.h.asked, s.worker, WorkStep(s, result).worker, s.h.ran, s.h.outcomes);
    FailureAppend(s.h.outcomes, s.worker.error, s.h.taken);
  }

  lemma WorkKept(s: State, result: Option<Error>)
    requires Inv(s)
    ensures Inv(WorkStep(s, result))
  {
    hide AskedOk, OrderOk, LinksOk, HeldOk, ClientsOk, RanOk, FreesOk, WorkerOk, ErrorOk, CountsOk, DestructorOk;
    match s.worker
    case Found(_, _) => RunKept(s, result);
    case Ran(_, _, _) => DeleteKept(s, result);
    case Deleted(_, _) => MoveKept(s, result);
    case Moved(_, _) => FinishKept(s, result);
    case _ => LookKept(s, result);
  }

  // ----- the destructor keeps it -----

  lemma ShutdownKept(s: State)
    requires Inv(s)
    ensures Inv(ShutdownStep(s))
  {
    hide AskedOk, OrderOk, LinksOk, HeldOk, ClientsOk, RanOk, FreesOk, WorkerOk, ErrorOk, CountsOk;
  }

  lemma JoinKept(s: State)
    requires Inv(s)
    ensures Inv(JoinStep(s))
  {
    hide AskedOk, LinksOk, HeldOk, ClientsOk, RanOk, FreesOk, ErrorOk, CountsOk;
  }

  /** With no client inside `enqueue`, every node but the last has its link. */
  lemma NoGap(s: State, k: nat)
    requires Inv(s) && ClientsOutside(s) && k < |s.h.order|
    ensures s.h.order[k] < |s.nodes|
    ensures s.nodes[s.h.order[k]].next == if k + 1 < |s.h.order| then Some(s.h.order[k + 1]) else None
  {
    hide AskedOk, OrderOk, HeldOk, ClientsOk, RanOk, FreesOk, WorkerOk, ErrorOk, CountsOk;
  }

  lemma WalkKept(s: State)
    requires Inv(s)
    ensures Inv(WalkStep(s))
  {
    hide AskedOk, LinksOk, HeldOk, ClientsOk, RanOk, FreesOk, ErrorOk, CountsOk, WorkerOk;
    match s.destructor
    case Walking(Some(n)) =>
      var t := WalkStep(s);
      var k := s.nodes[n].at.value;
      NoGap(s, k);
      DeletedStructure(s.nodes, s.tail, s.h.order, s.clients, n);
      DeletedFrees(s.nodes, s.tail, s.h.order, n, k);
      AskedSame(s.nodes, t.nodes, s.h.order, s.h.asked);
      WalkedWorker(s, n);
    case _ =>
  }

  lemma WalkedWorker(s: State, n: nat)
    requires Inv(s) && s.worker == Exited && n < |s.nodes|
    ensures WorkerOk(s.worker, s.head, s.h.order, Delete(s, n).nodes, |s.h.outcomes|)
  {
    hide AskedOk, OrderOk, LinksOk, HeldOk, ClientsOk, RanOk, FreesOk, ErrorOk, CountsOk;
  }

  // ----- runs -----

  lemma StepKept(s: State, a: Action)
    requires Inv(s)
    ensures Inv(Next(s, a))
  {
    hide Inv, WorkStep, CountStep, AllocateStep, ExchangeStep, LinkStep, SyncStep, ShutdownStep, JoinStep, WalkStep;
    match a
    case Count(i, task) => if i < |s.clients| { CountKept(s, i, task); }
    case Allocate(i) => if i < |s.clients| { AllocateKept(s, i); }
    case Exchange(i) => if i < |s.clients| { ExchangeKept(s, i); }
    case Link(i) => if i < |s.clients| { LinkKept(s, i); }
    case Sync(allowed) => SyncKept(s, allowed);
    case Work(result) => WorkKept(s, result);
    case Shutdown => ShutdownKept(s);
    case Join => JoinKept(s);
    case Walk => WalkKept(s);
  }

  lemma {:induction false} RunInv(clients: nat, schedule: seq<Action>)
    ensures Inv(Run(Init(clients), schedule))
  {
    hide Inv, Next;
    if |schedule| == 0 {
      InitOk(clients);
    } else {
      RunInv(clients, schedule[..|schedule| - 1]);
      StepKept(Run(Init(clients), schedule[..|schedule| - 1]), schedule[|schedule| - 1]);
    }
  }

  // ----- what the queue promises -----

  /** The first n endings are those of the first n requests in the order of the
      tail exchanges, and the outcomes booked are their results. */
  ghost predicate InOrder(h: History) {
    && |h.outcomes| <= |h.ran| < |h.asked|
    && (forall k :: 0 <= k < |h.ran| ==> EndingOf(h.asked[k + 1], h.ran[k]))
    && (forall k :: 0 <= k < |h.outcomes| ==> h.outcomes[k] == ResultOf(h.ran[k]))
  }

  /** Requests are called in the order of the tail exchanges, each once and none
      skipped; what is booked at a place is how the call of that place ended;
      nothing freed is ever touched. */
  lemma CalledInOrder(clients: nat, schedule: seq<Action>)
    ensures var s := Run(Init(clients), schedule);
      && |s.h.asked| == |s.h.order| && Distinct(s.h.order)
      && InOrder(s.h)
      && !s.h.touchedFreed
  {
    RunInv(clients, schedule);
    var s := Run(Init(clients), schedule);
    OrderDistinct(s);
    RanInOrder(s);
  }

  lemma RanInOrder(s: State)
    requires Inv(s)
    ensures |s.h.asked| == |s.h.order| && InOrder(s.h)
  {
    hide OrderOk, LinksOk, HeldOk, ClientsOk, WorkerOk, FreesOk, ErrorOk, CountsOk, DestructorOk;
  }

  lemma OrderDistinct(s: State)
    requires Inv(s)
    ensures Distinct(s.h.order)
    ensures |s.h.order| > 0 && s.h.order[|s.h.order| - 1] == s.tail
  {
    hide AskedOk, LinksOk, HeldOk, ClientsOk, RanOk, FreesOk, ErrorOk, CountsOk, WorkerOk;
  }

  /** When `sync(allowed)` may return and nobody has shut the queue down, all
      but at most `allowed` of the enqueues begun have finished, they are the
      first in exchange order, and `sync` throws the first failure among those
      finished since the slot was last taken (and nothing if there is none). */
  lemma BoundedSync(clients: nat, schedule: seq<Action>, allowed: nat)
    ensures var s := Run(Init(clients), schedule);
      && |s.h.order| <= s.h.begun + 1 && |s.h.outcomes| < |s.h.order|
      && (SyncReady(s, allowed) && !s.done ==> |s.h.outcomes| + allowed >= s.h.begun)
      && s.h.taken <= |s.h.outcomes|
      && IsFirst(s.h.outcomes, s.h.taken, s.firstException)
      && InOrder(s.h)
  {
    RunInv(clients, schedule);
    SyncPromise(Run(Init(clients), schedule), allowed);
  }

  lemma SyncPromise(s: State, allowed: nat)
    requires Inv(s)
    ensures s.h.taken <= |s.h.outcomes| < |s.h.order| <= s.h.begun + 1
    ensures IsFirst(s.h.outcomes, s.h.taken, s.firstException)
    ensures SyncReady(s, allowed) && !s.done ==> |s.h.outcomes| + allowed >= s.h.begun
    ensures InOrder(s.h)
  {
    RanInOrder(s);
    FirstFailureIsFirst(s.h.outcomes, s.h.taken);
    hide IsFirst, FirstFailure;
    hide AskedOk, OrderOk, LinksOk, HeldOk, ClientsOk, RanOk, FreesOk, DestructorOk;
  }

  /** Once the worker sleeps with no enqueue under way, everything begun has
      been called and the pending count is zero. */
  lemma IdleMeansDrained(clients: nat, schedule: seq<Action>)
    ensures var s := Run(Init(clients), schedule);
      s.worker.Asleep? && ClientsOutside(s) && Next(s, Work(None)) == s ==>
        && s.pending == 0
        && |s.h.outcomes| == s.h.begun == |s.h.order| - 1
        && InOrder(s.h) && |s.h.ran| == |s.h.asked| - 1
  {
    RunInv(clients, schedule);
    var s := Run(Init(clients), schedule);
    if s.worker.Asleep? && ClientsOutside(s) && Next(s, Work(None)) == s {
      Drained(s);
    }
  }

  lemma Drained(s: State)
    requires Inv(s) && s.worker.Asleep? && ClientsOutside(s)
    requires s.worker.curr < |s.nodes| && s.nodes[s.worker.curr].next == None
    ensures s.pending == 0
    ensures |s.h.outcomes| == s.h.begun == |s.h.order| - 1
    ensures InOrder(s.h) && |s.h.ran| == |s.h.asked| - 1
  {
    UnplacedNone(s.clients);
    RanInOrder(s);
    AsleepAt(s);
    NoGap(s, |s.h.outcomes|);
    hide AskedOk, OrderOk, LinksOk, HeldOk, ClientsOk, FreesOk, ErrorOk, WorkerOk, Unplaced;
  }

  lemma AsleepAt(s: State)
    requires Inv(s) && s.worker.Asleep?
    ensures |s.h.outcomes| < |s.h.order| && s.worker.curr == s.h.order[|s.h.outcomes|]
  {
    hide AskedOk, OrderOk, LinksOk, HeldOk, ClientsOk, RanOk, ErrorOk, CountsOk, FreesOk;
  }

  lemma AllFreed(s: State)
    requires Inv(s)
    ensures forall n :: 0 <= n < |s.nodes| ==> s.nodes[n].frees <= 1
    ensures s.destructor == Walking(None) ==> forall n :: 0 <= n < |s.nodes| ==> s.nodes[n].frees == 1
  {
    hide AskedOk, LinksOk, RanOk, ErrorOk, CountsOk, WorkerOk;
  }

  /** The destructor's loop moves along the exchange order. */
  lemma WalkAdvances(s: State, n: nat)
    requires Inv(s) && s.destructor == Walking(Some(n))
    ensures n < |s.nodes| && s.nodes[n].frees == 0
    ensures Gone(s.worker, s.destructor, s.nodes, s.h.order, |s.h.outcomes|) < |s.h.order|
    ensures var t := WalkStep(s);
      Gone(s.worker, s.destructor, s.nodes, s.h.order, |s.h.outcomes|)
      < Gone(t.worker, t.destructor, t.nodes, t.h.order, |t.h.outcomes|) <= |t.h.order| == |s.h.order|
  {
    NoGap(s, s.nodes[n].at.value);
    hide AskedOk, LinksOk, HeldOk, ClientsOk, RanOk, ErrorOk, CountsOk, WorkerOk;
  }

  /** After the destructor's walk every node ever allocated was freed exactly once. */
  lemma FreedExactlyOnce(clients: nat, schedule: seq<Action>)
    ensures var s := Run(Init(clients), schedule);
      && (forall n :: 0 <= n < |s.nodes| ==> s.nodes[n].frees <= 1)
      && (s.destructor == Walking(None) ==> forall n :: 0 <= n < |s.nodes| ==> s.nodes[n].frees == 1)
  {
    RunInv(clients, schedule);
    AllFreed(Run(Init(clients), schedule));
  }

  // ----- nothing stands still -----

  /** The worker's own steps to the end of what has been placed, or to its exit. */
  function WorkWay(s: State): int {
    8 * (|s.h.order| - |s.h.outcomes|)
    + match s.worker
      case Top(_) => if s.done then 1 else 7
      case Loading(_) => if s.done then 9 else 6
      case Found(_, _) => 5
      case Ran(_, _, _) => 4
      case Deleted(_, _) => 3
      case Moved(_, _) => 2
      case Asleep(curr) => if s.done || (curr < |s.nodes| && s.nodes[curr].next.Some?) then 8 else 5
      case Exited => 0
  }

  /** The worker stands still only after its exit, or asleep behind the last linked node with no shutdown; else
      each of its steps brings it nearer to the end of the queue. */
  lemma WorkerMoves(clients: nat, schedule: seq<Action>, result: Option<Error>)
    ensures var s := Run(Init(clients), schedule); var t := Next(s, Work(result));
      && WorkWay(s) >= 0
      && (|| WorkWay(t) < WorkWay(s)
          || s.worker == Exited
          || (s.worker.Asleep? && !s.done && s.worker.curr < |s.nodes| && s.nodes[s.worker.curr].next == None))
      && (s.done && (s.worker.Top? || s.worker.Asleep?) ==> t.worker.Top? || t.worker == Exited)
      && (t.worker == Exited ==> s.done)
  {
    RunInv(clients, schedule);
    WorkNearer(Run(Init(clients), schedule), result);
    hide Inv, WorkWay, WorkStep, Run;
  }

  lemma WorkNearer(s: State, result: Option<Error>)
    requires Inv(s)
    ensures var t := WorkStep(s, result);
      && WorkWay(s) >= 0
      && (|| WorkWay(t) < WorkWay(s)
          || s.worker == Exited
          || (s.worker.Asleep? && !s.done && s.worker.curr < |s.nodes| && s.nodes[s.worker.curr].next == None))
      && (s.done && (s.worker.Top? || s.worker.Asleep?) ==> t.worker.Top? || t.worker == Exited)
      && (t.worker == Exited ==> s.done)
  {
    WorkerInRange(s);
    WorkerGoesOn(s, result);
    hide Inv, WorkStep;
  }

  /** Where the worker goes, and that it places nothing and books only at the end of a task. */
  lemma WorkerGoesOn(s: State, result: Option<Error>)
    requires s.worker.Loading? || s.worker.Found? || s.worker.Ran? || s.worker.Asleep? ==> s.worker.curr < |s.nodes|
    requires s.worker.Found? ==> s.worker.next < |s.nodes|
    ensures var t := WorkStep(s, result);
      && t.h.order == s.h.order && t.done == s.done
      && (s.worker.Ran? || |t.nodes| == |s.nodes|)
      && |t.h.outcomes| == |s.h.outcomes| + (if s.worker.Moved? then 1 else 0)
      && match s.worker
         case Top(curr) => t.worker == if s.done then Exited else Loading(curr)
         case Loading(curr) =>
           t.nodes == s.nodes && if s.nodes[curr].next.Some? then t.worker.Found? else t.worker == Asleep(curr)
         case Found(_, _) => t.worker.Ran?
         case Ran(_, _, _) => t.worker.Deleted?
         case Deleted(_, _) => t.worker.Moved?
         case Moved(_, _) => t.worker.Top?
         case Asleep(curr) =>
           t.worker == if s.done || s.nodes[curr].next.Some? then Top(curr) else Asleep(curr)
         case Exited => t == s
  {}

  lemma WorkerInRange(s: State)
    requires Inv(s)
    ensures |s.h.outcomes| < |s.h.order|
    ensures s.worker.Loading? || s.worker.Found? || s.worker.Ran? || s.worker.Asleep? ==> s.worker.curr < |s.nodes|
    ensures s.worker.Found? ==> s.worker.next < |s.nodes|
    ensures s.worker == Exited ==> s.done
  {
    hide AskedOk, OrderOk, LinksOk, HeldOk, ClientsOk, RanOk, FreesOk, ErrorOk, CountsOk;
  }

  /** An enqueuer is never held up: its four steps follow each other, and the last leaves its node linked behind
      the one before. */
  lemma EnqueuerMoves(clients: nat, schedule: seq<Action>, i: nat)
    ensures var s := Run(Init(clients), schedule);
      i < |s.clients| ==>
        match s.clients[i]
        case Outside => true
        case Counted(task) =>
          var t := Next(s, Allocate(i)); i < |t.clients| && t.clients[i] == Holding(|s.nodes|, task)
        case Holding(node, _) =>
          var t := Next(s, Exchange(i)); i < |t.clients| && t.clients[i] == InGap(node, s.tail)
        case InGap(node, prev) =>
          var t := Next(s, Link(i));
          i < |t.clients| && t.clients[i] == Outside && prev < |t.nodes| && t.nodes[prev].next == Some(node)
  {
    RunInv(clients, schedule);
    var s := Run(Init(clients), schedule);
    if i < |s.clients| {
      ClientInRange(s, i);
      ClientMoves(s, i);
    }
    hide Inv, Run, Next;
  }

  lemma ClientInRange(s: State, i: nat)
    requires Inv(s) && i < |s.clients|
    ensures s.clients[i].Holding? ==> s.clients[i].node < |s.nodes|
    ensures s.clients[i].InGap? ==> s.clients[i].prev < |s.nodes|
  {
    hide AskedOk, OrderOk, LinksOk, HeldOk, WorkerOk, RanOk, FreesOk, ErrorOk, CountsOk;
    assert ClientOk(s.nodes, i, s.clients[i]);
  }

  lemma ClientMoves(s: State, i: nat)
    requires i < |s.clients|
    requires s.clients[i].Holding? ==> s.clients[i].node < |s.nodes|
    requires s.clients[i].InGap? ==> s.clients[i].prev < |s.nodes|
    ensures |AllocateStep(s, i).clients| == |ExchangeStep(s, i).clients| == |LinkStep(s, i).clients| == |s.clients|
    ensures
      match s.clients[i]
      case Outside => true
      case Counted(task) => AllocateStep(s, i).clients[i] == Holding(|s.nodes|, task)
      case Holding(node, _) => ExchangeStep(s, i).clients[i] == InGap(node, s.tail)
      case InGap(node, prev) =>
        var t := LinkStep(s, i); t.clients[i] == Outside && prev < |t.nodes| && t.nodes[prev].next == Some(node)
  {}
}
