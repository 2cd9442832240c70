/** The error slots on top of the linked queue itself: which queue steps the
    slots see, and what becomes of every error a called task throws. */
module CpuInferQueue {
  import opened Segments
  import opened CpuInfer
  import Q = TaskQueue
  import P = TaskQueueProofs

  /** The queue with all its steps, the slots with the threads that use them,
      and the errors device callbacks raised themselves. */
  datatype System = System(queue: Q.State, infer: State, device: seq<Error>)

  function Start(clients: nat, callbacks: nat, hosts: nat): System {
    System(Q.Init(clients), Init(callbacks, hosts), [])
  }

  datatype Move =
    | OnQueue(a: Q.Action)                    // enqueue, the worker, the destructor
    | HostTakes(i: nat)                       // a host in the queue's locked region
    | CallbackTakes(c: nat)                   // a device callback in the queue's locked region
    | DeviceFails(c: nat, error: Error)
    | Aside(other: Action)                        // slots and threads alone

  /** What a step of the queue is to the slots, if they see it at all. */
  function Seen(q: Q.State, a: Q.Action): Option<Action> {
    match a
    case Count(i, _) =>
      if i < |q.clients| && q.clients[i] == Q.Outside && q.destructor == Q.NotCalled then Some(Enqueue) else None
    case Work(result) =>
      (match q.worker
       case Found(_, next) =>
         if next < |q.nodes| then Some(TaskCalled(if q.nodes[next].task.Call? then result else None)) else None
       case Moved(_, _) => Some(Book)
       case _ => None)
    case Shutdown => if q.destructor == Q.NotCalled && Q.ClientsOutside(q) then Some(Stop) else None
    case _ => None
  }

  predicate Apart(a: Action) {
    a.BeginCallback? || a.Record? || a.Begin? || a.LookAgain? || a.StreamSync? || a.Deliver?
  }

  function OnQueueStep(s: System, a: Q.Action): System {
    if a.Sync? then s
    else
      var seen := Seen(s.queue, a);
      s.(queue := Q.Next(s.queue, a), infer := if seen.Some? then Next(s.infer, seen.value) else s.infer)
  }

  function Step(s: System, m: Move): System {
    match m
    case OnQueue(a) => OnQueueStep(s, a)
    case HostTakes(i) =>
      if i < |s.infer.hosts| && s.infer.hosts[i].Waiting? then
        s.(queue := Q.Next(s.queue, Q.Sync(s.infer.hosts[i].allowed)), infer := Next(s.infer, TakeQueue(i)))
      else s
    case CallbackTakes(c) =>
      if c < |s.infer.callbacks| && s.infer.callbacks[c].Syncing? then
        s.(queue := Q.Next(s.queue, Q.Sync(s.infer.callbacks[c].allowed)), infer := Next(s.infer, SyncCallback(c)))
      else s
    case DeviceFails(c, e) =>
      if c < |s.infer.callbacks| && s.infer.callbacks[c] == Free then
        s.(infer := Next(s.infer, SubmitFails(c, e)), device := s.device + [e])
      else s
    case Aside(other) =>
      if Apart(other) then s.(infer := Next(s.infer, other)) else s
  }

  /** The slots are not held back by the queue: whatever a host or a callback may do by itself is a move, and so is
      its turn in the locked region. */
  lemma MovesOfSlots(s: System, a: Action)
    requires !a.Enqueue? && !a.TaskCalled? && !a.Book? && !a.Stop?
    ensures
      var m := match a
        case TakeQueue(i) => HostTakes(i)
        case SyncCallback(c) => CallbackTakes(c)
        case SubmitFails(c, e) => DeviceFails(c, e)
        case other => Aside(other);
      Step(s, m).infer == Next(s.infer, a)
  {}

  function Steps(s: System, moves: seq<Move>): System {
    if |moves| == 0 then s else Step(Steps(s, moves[..|moves| - 1]), moves[|moves| - 1])
  }

  // ----- the queue behind the slots -----

  function WorkOf(w: Q.Worker): Work {
    match w
    case Ran(_, _, error) => Carrying(error)
    case Deleted(_, error) => Carrying(error)
    case Moved(_, error) => Carrying(error)
    case _ => Resting
  }

  /** The slots' picture of the queue is the queue. */
  predicate Matches(q: Q.State, t: State) {
    t.pending == q.pending && t.done == q.done && t.queueSlot == q.firstException && t.work == WorkOf(q.worker)
  }

  /** The errors the called tasks threw, in the order of the calls. */
  function Thrown(ran: seq<Q.Ending>): seq<Error> {
    if |ran| == 0 then []
    else
      Thrown(ran[..|ran| - 1])
      + (match Q.ResultOf(ran[|ran| - 1]) case None => [] case Some(e) => [e])
  }

  /** What failed is what tasks and device callbacks threw, error by error. */
  ghost predicate Accounted(s: System) {
    forall which ::
      InList(s.infer.h.failed, which) == InList(Thrown(s.queue.h.ran), which) + InList(s.device, which)
  }

  ghost predicate Together(s: System) {
    P.Inv(s.queue) && Matches(s.queue, s.infer) && Conserved(s.infer) && Accounted(s)
  }

  /** A task found is pending; a drained queue carries nothing. */
  lemma PendingCounts(q: Q.State)
    requires P.Inv(q)
    ensures q.pending >= 0
    ensures q.worker.Found? || WorkOf(q.worker) != Resting ==> q.pending > 0
  {
    hide P.AskedOk, P.OrderOk, P.LinksOk, P.HeldOk, P.ClientsOk, P.RanOk, P.FreesOk, P.ErrorOk;
  }

  lemma OutsideRefines(q: Q.State, t: State, a: Q.Action)
    requires Matches(q, t) && !a.Work? && !a.Sync?
    ensures var seen := Seen(q, a); Matches(Q.Next(q, a), if seen.Some? then Next(t, seen.value) else t)
  {
    hide Q.Touch, Q.Delete, Q.WorkStep, BookStep, TaskCalledStep, RecordStep, Rethrow, TakeQueueStep, SyncCallbackStep;
    match a
    case Walk => WalkApart(q);
    case Link(i) => if i < |q.clients| { LinkApart(q, i); }
    case _ =>
  }

  lemma WalkApart(q: Q.State)
    ensures var r := Q.WalkStep(q);
      r.pending == q.pending && r.done == q.done && r.firstException == q.firstException && r.worker == q.worker
  {}

  lemma LinkApart(q: Q.State, i: nat)
    requires i < |q.clients|
    ensures var r := Q.LinkStep(q, i);
      r.pending == q.pending && r.done == q.done && r.firstException == q.firstException && r.worker == q.worker
  {}

  /** What the worker does to the cells it shares, and when a call is recorded. */
  lemma WorkSeen(q: Q.State, result: Option<Error>)
    ensures var r := Q.WorkStep(q, result); var seen := Seen(q, Q.Work(result));
      && r.done == q.done
      && (seen != Some(Book) ==> r.pending == q.pending && r.firstException == q.firstException)
      && (seen == None ==> WorkOf(r.worker) == WorkOf(q.worker) && r.h.ran == q.h.ran)
      && (seen == Some(Book) ==> q.worker.Moved? && r == Q.Finish(q, q.worker.curr, q.worker.error))
      && (seen.Some? && seen.value.TaskCalled? ==>
            && q.worker.Found? && r.worker.Ran? && r.worker.error == seen.value.result
            && exists e :: r.h.ran == q.h.ran + [e] && Q.ResultOf(e) == seen.value.result)
  {
    if q.worker.Found? && q.worker.next < |q.nodes| {
      assert Q.WorkStep(q, result).h.ran[..|q.h.ran|] == q.h.ran;
    }
  }

  lemma WorkRefines(q: Q.State, t: State, result: Option<Error>)
    requires P.Inv(q) && Matches(q, t)
    ensures var seen := Seen(q, Q.Work(result));
      Matches(Q.WorkStep(q, result), if seen.Some? then Next(t, seen.value) else t)
  {
    hide P.Inv, Q.WorkStep;
    PendingCounts(q);
    WorkSeen(q, result);
  }

  /** Each step of the queue is the step the slots see, or nothing to them. */
  lemma QueueRefines(s: System, a: Q.Action)
    requires P.Inv(s.queue) && Matches(s.queue, s.infer)
    ensures Matches(OnQueueStep(s, a).queue, OnQueueStep(s, a).infer)
  {
    hide P.Inv, Matches, Q.WorkStep, Next;
    if a.Work? {
      WorkRefines(s.queue, s.infer, a.result);
    } else if !a.Sync? {
      OutsideRefines(s.queue, s.infer, a);
    }
  }

  /** The locked region of `sync` is one step for both. */
  lemma SyncRefines(s: System, m: Move)
    requires Matches(s.queue, s.infer) && (m.HostTakes? || m.CallbackTakes?)
    ensures Matches(Step(s, m).queue, Step(s, m).infer)
  {}

  lemma FailedSame(s: State, a: Action)
    requires !a.TaskCalled? && !a.SubmitFails?
    ensures Next(s, a).h.failed == s.h.failed
  {}

  lemma OutsideRan(q: Q.State, a: Q.Action)
    requires !a.Work?
    ensures Q.Next(q, a).h.ran == q.h.ran
    ensures Seen(q, a) in {None, Some(Enqueue), Some(Stop)}
  {}

  lemma ThrownAppend(ran: seq<Q.Ending>, ending: Q.Ending, which: Option<Error>)
    ensures InList(Thrown(ran + [ending]), which) == InList(Thrown(ran), which) + InSlot(Q.ResultOf(ending), which)
  {
    assert (ran + [ending])[..|ran|] == ran;
    if Q.ResultOf(ending).Some? { InListAppend(Thrown(ran), Q.ResultOf(ending).value, which); }
    assert Thrown(ran) + [] == Thrown(ran);
  }

  /** A call's error goes on record in both histories at the same step. */
  lemma CallAccounted(s: System, a: Q.Action)
    requires P.Inv(s.queue) && Matches(s.queue, s.infer) && Accounted(s)
    ensures Accounted(OnQueueStep(s, a))
  {
    hide P.Inv, InList, Thrown, Q.WorkStep, Q.Next, Seen;
    PendingCounts(s.queue);
    if a.Work? {
      WorkAccounted(s, a.result);
    } else if !a.Sync? {
      OutsideRan(s.queue, a);
    }
  }

  lemma WorkAccounted(s: System, result: Option<Error>)
    requires P.Inv(s.queue) && Matches(s.queue, s.infer) && Accounted(s)
    ensures Accounted(OnQueueStep(s, Q.Work(result)))
  {
    hide P.Inv, InList, Thrown, Q.WorkStep;
    PendingCounts(s.queue);
    WorkSeen(s.queue, result);
    var t := OnQueueStep(s, Q.Work(result));
    var seen := Seen(s.queue, Q.Work(result));
    if seen.Some? && seen.value.TaskCalled? {
      var e :| t.queue.h.ran == s.queue.h.ran + [e] && Q.ResultOf(e) == seen.value.result;
      forall which
        ensures InList(t.infer.h.failed, which) == InList(Thrown(t.queue.h.ran), which) + InList(t.device, which)
      {
        ThrownAppend(s.queue.h.ran, e, which);
        if seen.value.result.Some? { InListAppend(s.infer.h.failed, seen.value.result.value, which); }
      }
    }
  }

  lemma DeviceAccounted(s: System, c: nat, e: Error)
    requires Accounted(s)
    ensures Accounted(Step(s, DeviceFails(c, e)))
  {
    hide InList;
    forall which
      ensures var t := Step(s, DeviceFails(c, e));
        InList(t.infer.h.failed, which) == InList(Thrown(t.queue.h.ran), which) + InList(t.device, which)
    {
      InListAppend(s.infer.h.failed, e, which);
      InListAppend(s.device, e, which);
    }
  }

  /** The slots take at most one of their own steps. */
  lemma StepSeen(s: System, m: Move) returns (a: Option<Action>)
    ensures Step(s, m).infer == if a.Some? then Next(s.infer, a.value) else s.infer
    ensures a.Some? && (a.value.TaskCalled? || a.value.SubmitFails?) ==> m.OnQueue? || m.DeviceFails?
  {
    var t := Step(s, m);
    hide Next;
    match m
    case OnQueue(b) => a := if b.Sync? then None else Seen(s.queue, b);
    case HostTakes(i) => a := if t == s then None else Some(TakeQueue(i));
    case CallbackTakes(c) => a := if t == s then None else Some(SyncCallback(c));
    case DeviceFails(c, e) => a := if t == s then None else Some(SubmitFails(c, e));
    case Aside(other) => a := if t == s then None else Some(other);
  }

  lemma StepTogether(s: System, m: Move)
    requires Together(s)
    ensures Together(Step(s, m))
  {
    var a := StepSeen(s, m);
    StepMatches(s, m);
    StepAccounted(s, m);
    StepInv(s, m);
    hide P.Inv, Matches, Accounted, Step, Next, ConservedFor;
    if a.Some? {
      forall which ensures ConservedFor(Step(s, m).infer, which) {
        StepConserves(s.infer, a.value, which);
      }
    }
  }

  lemma StepInv(s: System, m: Move)
    requires P.Inv(s.queue)
    ensures P.Inv(Step(s, m).queue)
  {
    hide P.Inv, Q.Next, Next;
    match m
    case OnQueue(a) => P.StepKept(s.queue, a);
    case HostTakes(i) =>
      if i < |s.infer.hosts| && s.infer.hosts[i].Waiting? { P.StepKept(s.queue, Q.Sync(s.infer.hosts[i].allowed)); }
    case CallbackTakes(c) =>
      if c < |s.infer.callbacks| && s.infer.callbacks[c].Syncing? {
        P.StepKept(s.queue, Q.Sync(s.infer.callbacks[c].allowed));
      }
    case _ =>
  }

  lemma StepMatches(s: System, m: Move)
    requires P.Inv(s.queue) && Matches(s.queue, s.infer)
    ensures Matches(Step(s, m).queue, Step(s, m).infer)
  {
    hide P.Inv;
    match m
    case OnQueue(a) => QueueRefines(s, a);
    case HostTakes(_) => SyncRefines(s, m);
    case CallbackTakes(_) => SyncRefines(s, m);
    case _ =>
  }

  lemma StepAccounted(s: System, m: Move)
    requires P.Inv(s.queue) && Matches(s.queue, s.infer) && Accounted(s)
    ensures Accounted(Step(s, m))
  {
    hide P.Inv;
    match m
    case OnQueue(a) => CallAccounted(s, a);
    case DeviceFails(c, e) => DeviceAccounted(s, c, e);
    case _ =>
      var a := StepSeen(s, m);
      if a.Some? { FailedSame(s.infer, a.value); }
  }

  lemma {:induction false} StepsTogether(clients: nat, callbacks: nat, hosts: nat, moves: seq<Move>)
    ensures Together(Steps(Start(clients, callbacks, hosts), moves))
  {
    if |moves| == 0 {
      P.RunInv(clients, []);
      ErrorsConserved(callbacks, hosts, []);
    } else {
      StepsTogether(clients, callbacks, hosts, moves[..|moves| - 1]);
      StepTogether(Steps(Start(clients, callbacks, hosts), moves[..|moves| - 1]), moves[|moves| - 1]);
    }
    hide P.Inv, Step, Matches, Conserved, Accounted;
  }

  // ----- what follows -----

  /** In every run of queue and slots together, each error a called task or a
      device callback threw is delivered, dropped behind an earlier one, still
      with the worker, in the queue's slot or the device slot, with a callback,
      or being thrown; error by error, and for all errors together. */
  lemma NoErrorLost(clients: nat, callbacks: nat, hosts: nat, moves: seq<Move>, which: Option<Error>)
    ensures var s := Steps(Start(clients, callbacks, hosts), moves);
      InList(Thrown(s.queue.h.ran), which) + InList(s.device, which)
      == InList(s.infer.h.delivered, which) + InList(s.infer.h.dropped, which)
         + OfWork(WorkOf(s.queue.worker), which)
         + InSlot(s.queue.firstException, which) + InSlot(s.infer.deviceSlot, which)
         + InCallbacks(s.infer.callbacks, which) + InHosts(s.infer.hosts, which)
  {
    StepsTogether(clients, callbacks, hosts, moves);
    var s := Steps(Start(clients, callbacks, hosts), moves);
    hide Steps, P.Inv;
    assert ConservedFor(s.infer, which);
  }

  /** What a `sync(n)` may rely on when the queue lets it go: at most n of the enqueues begun are unfinished (unless
      the queue was shut down), and it is handed the failure at the first failing place since the last take. */
  ghost predicate Promise(q: Q.State, n: nat, handed: Option<Error>) {
    && |q.h.outcomes| <= q.h.begun
    && (!q.done ==> q.h.begun - |q.h.outcomes| <= n)
    && P.IsFirst(q.h.outcomes, q.h.taken, handed)
    && P.InOrder(q.h)
  }

  lemma PromiseKept(q: Q.State, n: nat)
    requires P.Inv(q) && (q.pending <= n || q.done)
    ensures Promise(q, n, q.firstException)
  {
    P.SyncPromise(q, n);
    hide P.Inv, P.IsFirst, P.InOrder;
  }

  /** A host leaves its wait if and only if it is its turn in the locked region and the queue is ready. */
  lemma HostLeavesIff(s: System, m: Move, i: nat)
    requires Matches(s.queue, s.infer) && i < |s.infer.hosts| && s.infer.hosts[i].Waiting?
    ensures var t, n := Step(s, m), s.infer.hosts[i].allowed;
      && |t.infer.hosts| == |s.infer.hosts|
      && (t.infer.hosts[i] != Waiting(n) <==> m == HostTakes(i) && (s.queue.pending <= n || s.queue.done))
    ensures var t, e := Step(s, m), s.queue.firstException;
      t.infer.hosts[i] != s.infer.hosts[i] ==>
        t.infer.hosts[i] == (if e.Some? then Throwing(e.value) else LastLook) && t.queue.firstException == None
  {}

  lemma CallbackLeavesIff(s: System, m: Move, c: nat)
    requires Matches(s.queue, s.infer) && c < |s.infer.callbacks| && s.infer.callbacks[c].Syncing?
    ensures var t, n := Step(s, m), s.infer.callbacks[c].allowed;
      && |t.infer.callbacks| == |s.infer.callbacks|
      && (t.infer.callbacks[c] != Syncing(n) <==> m == CallbackTakes(c) && (s.queue.pending <= n || s.queue.done))
    ensures var t, e := Step(s, m), s.queue.firstException;
      t.infer.callbacks[c] != s.infer.callbacks[c] ==>
        t.infer.callbacks[c] == (if e.Some? then Recording(e.value) else Free) && t.queue.firstException == None
  {}

  /** The host is waiting for the queue. */
  predicate HostWaits(s: System, i: nat, n: nat) { i < |s.infer.hosts| && s.infer.hosts[i] == Waiting(n) }

  predicate CallbackWaits(s: System, c: nat, n: nat) {
    c < |s.infer.callbacks| && s.infer.callbacks[c] == Syncing(n)
  }

  /** Whatever happens after a host began to wait in `sync(n)`: if it waits no longer, there was a step of its own
      at which the queue kept its promise, and the host went on with just the error the queue had. */
  lemma SyncWaits(clients: nat, callbacks: nat, hosts: nat, before: seq<Move>, more: seq<Move>, i: nat, n: nat)
    returns (k: nat)
    requires HostWaits(Steps(Start(clients, callbacks, hosts), before), i, n)
    requires !HostWaits(Steps(Start(clients, callbacks, hosts), before + more), i, n)
    ensures k < |more| && more[k] == HostTakes(i)
    ensures var s := Steps(Start(clients, callbacks, hosts), before + more[..k]);
      var t, e := Step(s, more[k]), s.queue.firstException;
      && HostWaits(s, i, n) && Promise(s.queue, n, e) && i < |t.infer.hosts|
      && t.infer.hosts[i] == (if e.Some? then Throwing(e.value) else LastLook) && t.queue.firstException == None
    decreases |more|
  {
    hide Step, HostWaits, Promise;
    var z := Start(clients, callbacks, hosts);
    assert more == [] ==> before + more == before;
    var last := |more| - 1;
    assert (before + more)[..|before + more| - 1] == before + more[..last];
    var s := Steps(z, before + more[..last]);
    if !HostWaits(s, i, n) {
      k := SyncWaits(clients, callbacks, hosts, before, more[..last], i, n);
      assert more[..last][..k] == more[..k];
      return;
    }
    k := last;
    StepsTogether(clients, callbacks, hosts, before + more[..last]);
    HostGoes(s, more[last], i, n);
  }

  lemma HostGoes(s: System, m: Move, i: nat, n: nat)
    requires Together(s) && HostWaits(s, i, n) && !HostWaits(Step(s, m), i, n)
    ensures var t, e := Step(s, m), s.queue.firstException;
      && m == HostTakes(i) && Promise(s.queue, n, e) && i < |t.infer.hosts|
      && t.infer.hosts[i] == (if e.Some? then Throwing(e.value) else LastLook) && t.queue.firstException == None
  {
    hide P.Inv, Promise, Step;
    HostLeavesIff(s, m, i);
    PromiseKept(s.queue, n);
  }

  /** The same for a device callback. */
  lemma CallbackGoes(s: System, m: Move, c: nat, n: nat)
    requires Together(s) && CallbackWaits(s, c, n) && !CallbackWaits(Step(s, m), c, n)
    ensures var t, e := Step(s, m), s.queue.firstException;
      && m == CallbackTakes(c) && Promise(s.queue, n, e) && c < |t.infer.callbacks|
      && t.infer.callbacks[c] == (if e.Some? then Recording(e.value) else Free) && t.queue.firstException == None
  {
    hide P.Inv, Promise, Step;
    CallbackLeavesIff(s, m, c);
    PromiseKept(s.queue, n);
  }

  /** Every run of the two together is, for the slots, a run of the slots alone. */
  lemma {:induction false} SlotsRun(clients: nat, callbacks: nat, hosts: nat, moves: seq<Move>)
    returns (schedule: seq<Action>)
    ensures Steps(Start(clients, callbacks, hosts), moves).infer == Run(Init(callbacks, hosts), schedule)
  {
    schedule := [];
    if |moves| > 0 {
      var earlier := SlotsRun(clients, callbacks, hosts, moves[..|moves| - 1]);
      var a := StepSeen(Steps(Start(clients, callbacks, hosts), moves[..|moves| - 1]), moves[|moves| - 1]);
      schedule := earlier;
      if a.Some? {
        schedule := earlier + [a.value];
        assert schedule[..|schedule| - 1] == earlier;
      }
    }
    hide Step, Next;
  }

  /** Once the queue is drained and no callback or host is at work, a `sync`
      throws exactly when a slot holds an error, it does so while a failure is
      owed, and what it throws was thrown by a called task or a device callback. */
  lemma DrainedSyncThrows(clients: nat, callbacks: nat, hosts: nat, moves: seq<Move>, i: nat, allowed: nat)
    requires i < hosts
    requires var s := Steps(Start(clients, callbacks, hosts), moves);
      && s.queue.pending == 0
      && (forall c :: 0 <= c < |s.infer.callbacks| ==> s.infer.callbacks[c] == Free)
      && (forall j :: 0 <= j < |s.infer.hosts| ==> s.infer.hosts[j] == Away)
    ensures var s := Steps(Start(clients, callbacks, hosts), moves); var t := HostSync(s.infer, i, allowed);
      && (s.queue.firstException.Some? || s.infer.deviceSlot.Some? <==> |t.h.delivered| > |s.infer.h.delivered|)
      && (s.infer.h.owed ==> |t.h.delivered| > |s.infer.h.delivered|)
      && (|t.h.delivered| > |s.infer.h.delivered| ==>
            var e := t.h.delivered[|s.infer.h.delivered|];
            e in Thrown(s.queue.h.ran) || e in s.device)
  {
    StepsTogether(clients, callbacks, hosts, moves);
    var schedule := SlotsRun(clients, callbacks, hosts, moves);
    var s := Steps(Start(clients, callbacks, hosts), moves);
    PendingCounts(s.queue);
    hide Steps, P.Inv, HostSync, Run, Conserved;
    QuietSyncThrows(callbacks, hosts, schedule, i, allowed);
    var t := HostSync(s.infer, i, allowed);
    if |t.h.delivered| > |s.infer.h.delivered| {
      var e := t.h.delivered[|s.infer.h.delivered|];
      Counted(s.infer.h.failed, e);
      Listed(Thrown(s.queue.h.ran), e);
      Listed(s.device, e);
    }
  }

  lemma {:induction false} Counted(errors: seq<Error>, e: Error)
    requires e in errors
    ensures InList(errors, Some(e)) > 0
  {
    if errors[|errors| - 1] != e { Counted(errors[..|errors| - 1], e); }
  }
}
