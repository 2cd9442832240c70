/** Where a task's failure goes: the queue's slot, a device callback that took
    it, the device slot, and at last the host thread that calls `sync`. */
module CpuInfer {
  import opened Segments

  type Error = int

  /** A thread running device callbacks. */
  datatype Callback =
    | Free
    | Syncing(allowed: nat)       // in `sync_callback_`, waiting for the queue
    | Recording(error: Error)     // caught, not yet recorded

  /** A host thread inside `sync` or `sync_with_cuda_stream`. */
  datatype Host =
    | Away
    | Waiting(allowed: nat)       // the device slot was empty
    | LastLook                    // the queue's slot was empty too
    | Throwing(error: Error)

  /** The queue's worker: between two tasks, or with a task's outcome that is not booked yet. */
  datatype Work = Resting | Carrying(error: Option<Error>)

  /** `owed`: some failure has happened since an error last reached a host. */
  datatype History = History(failed: seq<Error>, delivered: seq<Error>, dropped: seq<Error>, owed: bool)

  datatype State = State(
    pending: nat,
    done: bool,
    work: Work,
    queueSlot: Option<Error>,
    deviceSlot: Option<Error>,
    callbacks: seq<Callback>,
    hosts: seq<Host>,
    h: History)

  function Init(callbacks: nat, hosts: nat): State {
    State(0, false, Resting, None, None, Repeat(Free, callbacks), Repeat(Away, hosts), History([], [], [], false))
  }

  datatype Action =
    | Enqueue
    | TaskCalled(result: Option<Error>)
    | Book
    | Stop
    | SubmitFails(c: nat, error: Error)
    | BeginCallback(c: nat, allowed: nat)
    | SyncCallback(c: nat)
    | Record(c: nat)
    | Begin(i: nat, allowed: nat)
    | TakeQueue(i: nat)
    | LookAgain(i: nat)
    | StreamSync(i: nat)
    | Deliver(i: nat)

  function Fail(h: History, e: Error): History {
    h.(failed := h.failed + [e], owed := true)
  }

  /** First error kept, later ones dropped. */
  function KeepFirst(slot: Option<Error>, e: Error): Option<Error> { if slot.Some? then slot else Some(e) }

  function Drop(h: History, slot: Option<Error>, e: Error): History {
    if slot.Some? then h.(dropped := h.dropped + [e]) else h
  }

  /** The worker calls a task, which returns or throws; the error is caught and carried on. */
  function TaskCalledStep(s: State, result: Option<Error>): State {
    if s.pending == 0 || s.work != Resting then s
    else s.(work := Carrying(result), h := if result.Some? then Fail(s.h, result.value) else s.h)
  }

  /** The worker's locked region: the slot keeps its first error, and one task fewer is pending. */
  function BookStep(s: State): State {
    match s.work
    case Resting => s
    case Carrying(error) =>
      var done := s.(work := Resting, pending := if s.pending > 0 then s.pending - 1 else 0);
      match error
      case None => done
      case Some(e) => done.(queueSlot := KeepFirst(s.queueSlot, e), h := Drop(s.h, s.queueSlot, e))
  }

  function SubmitFailsStep(s: State, c: nat, e: Error): State
    requires c < |s.callbacks|
  {
    if s.callbacks[c] != Free then s
    else s.(callbacks := s.callbacks[c := Recording(e)], h := Fail(s.h, e))
  }

  /** What the queue's `sync` waits for. */
  predicate SyncReady(s: State, allowed: nat) { s.pending <= allowed || s.done }

  function BeginCallbackStep(s: State, c: nat, allowed: nat): State
    requires c < |s.callbacks|
  {
    if s.callbacks[c] != Free then s else s.(callbacks := s.callbacks[c := Syncing(allowed)])
  }

  /** `sync_callback_` up to its catch: the queue's slot is taken under its lock. */
  function SyncCallbackStep(s: State, c: nat): State
    requires c < |s.callbacks|
  {
    if !s.callbacks[c].Syncing? || !SyncReady(s, s.callbacks[c].allowed) then s
    else
      match s.queueSlot
      case None => s.(callbacks := s.callbacks[c := Free])
      case Some(e) => s.(queueSlot := None, callbacks := s.callbacks[c := Recording(e)])
  }

  function RecordStep(s: State, c: nat): State
    requires c < |s.callbacks|
  {
    match s.callbacks[c]
    case Recording(e) =>
      s.(deviceSlot := KeepFirst(s.deviceSlot, e),
         callbacks := s.callbacks[c := Free],
         h := Drop(s.h, s.deviceSlot, e))
    case _ => s
  }

  /** `rethrow_device_callback_error`, with where the host goes if it is empty. */
  function Rethrow(s: State, i: nat, otherwise: Host): State
    requires i < |s.hosts|
  {
    match s.deviceSlot
    case Some(e) => s.(deviceSlot := None, hosts := s.hosts[i := Throwing(e)])
    case None => s.(hosts := s.hosts[i := otherwise])
  }

  function TakeQueueStep(s: State, i: nat): State
    requires i < |s.hosts|
  {
    if !s.hosts[i].Waiting? || !SyncReady(s, s.hosts[i].allowed) then s
    else
      match s.queueSlot
      case Some(e) => s.(queueSlot := None, hosts := s.hosts[i := Throwing(e)])
      case None => s.(hosts := s.hosts[i := LastLook])
  }

  function DeliverStep(s: State, i: nat): State
    requires i < |s.hosts|
  {
    match s.hosts[i]
    case Throwing(e) =>
      s.(hosts := s.hosts[i := Away], h := s.h.(delivered := s.h.delivered + [e], owed := false))
    case _ => s
  }

  function Next(s: State, a: Action): State {
    match a
    case Enqueue => s.(pending := s.pending + 1)
    case TaskCalled(result) => TaskCalledStep(s, result)
    case Book => BookStep(s)
    case Stop => s.(done := true)
    case SubmitFails(c, e) => if c < |s.callbacks| then SubmitFailsStep(s, c, e) else s
    case BeginCallback(c, allowed) => if c < |s.callbacks| then BeginCallbackStep(s, c, allowed) else s
    case SyncCallback(c) => if c < |s.callbacks| then SyncCallbackStep(s, c) else s
    case Record(c) => if c < |s.callbacks| then RecordStep(s, c) else s
    case Begin(i, allowed) => if i < |s.hosts| && s.hosts[i] == Away then Rethrow(s, i, Waiting(allowed)) else s
    case TakeQueue(i) => if i < |s.hosts| then TakeQueueStep(s, i) else s
    case LookAgain(i) => if i < |s.hosts| && s.hosts[i] == LastLook then Rethrow(s, i, Away) else s
    case StreamSync(i) => if i < |s.hosts| && s.hosts[i] == Away then Rethrow(s, i, Away) else s
    case Deliver(i) => if i < |s.hosts| then DeliverStep(s, i) else s
  }

  function Run(s: State, schedule: seq<Action>): State {
    if |schedule| == 0 then s else Next(Run(s, schedule[..|schedule| - 1]), schedule[|schedule| - 1])
  }

  // ----- conservation -----

  /** `which` selects one error, or all of them. */
  predicate Is(which: Option<Error>, e: Error) { which == None || which == Some(e) }

  function One(which: Option<Error>, e: Error): nat { if Is(which, e) then 1 else 0 }

  function InList(errors: seq<Error>, which: Option<Error>): nat {
    if |errors| == 0 then 0 else InList(errors[..|errors| - 1], which) + One(which, errors[|errors| - 1])
  }

  function InSlot(slot: Option<Error>, which: Option<Error>): nat {
    match slot case None => 0 case Some(e) => One(which, e)
  }

  function OfCallback(c: Callback, which: Option<Error>): nat {
    match c case Recording(e) => One(which, e) case _ => 0
  }

  function OfWork(w: Work, which: Option<Error>): nat {
    match w case Resting => 0 case Carrying(error) => InSlot(error, which)
  }

  function OfHost(i: Host, which: Option<Error>): nat {
    match i case Throwing(e) => One(which, e) case _ => 0
  }

  function InCallbacks(callbacks: seq<Callback>, which: Option<Error>): nat {
    if |callbacks| == 0 then 0
    else InCallbacks(callbacks[..|callbacks| - 1], which) + OfCallback(callbacks[|callbacks| - 1], which)
  }

  function InHosts(hosts: seq<Host>, which: Option<Error>): nat {
    if |hosts| == 0 then 0 else InHosts(hosts[..|hosts| - 1], which) + OfHost(hosts[|hosts| - 1], which)
  }

  /** How often the selected errors are with the worker, in a slot, in a callback, or being thrown. */
  function OnTheWay(s: State, which: Option<Error>): nat {
    OfWork(s.work, which) + InSlot(s.queueSlot, which) + InSlot(s.deviceSlot, which)
    + InCallbacks(s.callbacks, which) + InHosts(s.hosts, which)
  }

  /** Every failure is delivered, dropped behind an earlier one, or on its way;
      and while one is owed, at least one is on its way. */
  ghost predicate ConservedFor(s: State, which: Option<Error>) {
    && InList(s.h.failed, which) == InList(s.h.delivered, which) + InList(s.h.dropped, which) + OnTheWay(s, which)
    && (s.h.owed && which == None ==> OnTheWay(s, which) > 0)
  }

  ghost predicate Conserved(s: State) {
    forall which :: ConservedFor(s, which)
  }

  lemma InListAppend(errors: seq<Error>, e: Error, which: Option<Error>)
    ensures InList(errors + [e], which) == InList(errors, which) + One(which, e)
  {
    assert (errors + [e])[..|errors|] == errors;
  }

  lemma {:induction false} CallbacksUpdate(callbacks: seq<Callback>, c: nat, now: Callback, which: Option<Error>)
    requires c < |callbacks|
    ensures InCallbacks(callbacks[c := now], which) + OfCallback(callbacks[c], which)
         == InCallbacks(callbacks, which) + OfCallback(now, which)
  {
    var n := |callbacks| - 1;
    if c < n {
      CallbacksUpdate(callbacks[..n], c, now, which);
      assert callbacks[c := now][..n] == callbacks[..n][c := now];
    } else {
      assert callbacks[c := now][..n] == callbacks[..n];
    }
  }

  lemma {:induction false} HostsUpdate(hosts: seq<Host>, i: nat, now: Host, which: Option<Error>)
    requires i < |hosts|
    ensures InHosts(hosts[i := now], which) + OfHost(hosts[i], which) == InHosts(hosts, which) + OfHost(now, which)
  {
    var n := |hosts| - 1;
    if i < n {
      HostsUpdate(hosts[..n], i, now, which);
      assert hosts[i := now][..n] == hosts[..n][i := now];
    } else {
      assert hosts[i := now][..n] == hosts[..n];
    }
  }

  lemma TaskCalledConserves(s: State, result: Option<Error>, which: Option<Error>)
    requires ConservedFor(s, which)
    ensures ConservedFor(TaskCalledStep(s, result), which)
  {
    hide InList, InCallbacks, InHosts;
    if result.Some? { InListAppend(s.h.failed, result.value, which); }
  }

  lemma BookConserves(s: State, which: Option<Error>)
    requires ConservedFor(s, which)
    ensures ConservedFor(BookStep(s), which)
  {
    hide InList, InCallbacks, InHosts;
    if s.work.Carrying? && s.work.error.Some? { InListAppend(s.h.dropped, s.work.error.value, which); }
  }

  lemma CallbackConserves(s: State, c: nat, e: Error, allowed: nat, which: Option<Error>)
    requires ConservedFor(s, which) && c < |s.callbacks|
    ensures ConservedFor(SubmitFailsStep(s, c, e), which)
    ensures ConservedFor(BeginCallbackStep(s, c, allowed), which)
  {
    hide InList, InCallbacks, InHosts;
    CallbacksUpdate(s.callbacks, c, Recording(e), which);
    CallbacksUpdate(s.callbacks, c, Syncing(allowed), which);
    InListAppend(s.h.failed, e, which);
  }

  lemma SyncCallbackConserves(s: State, c: nat, which: Option<Error>)
    requires ConservedFor(s, which) && c < |s.callbacks|
    ensures ConservedFor(SyncCallbackStep(s, c), which)
  {
    hide InList, InCallbacks, InHosts;
    CallbacksUpdate(s.callbacks, c, Free, which);
    if s.queueSlot.Some? { CallbacksUpdate(s.callbacks, c, Recording(s.queueSlot.value), which); }
  }

  lemma RecordConserves(s: State, c: nat, which: Option<Error>)
    requires ConservedFor(s, which) && c < |s.callbacks|
    ensures ConservedFor(RecordStep(s, c), which)
  {
    hide InList, InCallbacks, InHosts;
    CallbacksUpdate(s.callbacks, c, Free, which);
    if s.callbacks[c].Recording? { InListAppend(s.h.dropped, s.callbacks[c].error, which); }
  }

  lemma RethrowConserves(s: State, i: nat, otherwise: Host, which: Option<Error>)
    requires ConservedFor(s, which) && i < |s.hosts| && !s.hosts[i].Throwing? && !otherwise.Throwing?
    ensures ConservedFor(Rethrow(s, i, otherwise), which)
  {
    hide InList, InCallbacks, InHosts;
    HostsUpdate(s.hosts, i, Rethrow(s, i, otherwise).hosts[i], which);
  }

  lemma TakeQueueConserves(s: State, i: nat, which: Option<Error>)
    requires ConservedFor(s, which) && i < |s.hosts|
    ensures ConservedFor(TakeQueueStep(s, i), which)
  {
    hide InList, InCallbacks, InHosts;
    HostsUpdate(s.hosts, i, LastLook, which);
    if s.queueSlot.Some? { HostsUpdate(s.hosts, i, Throwing(s.queueSlot.value), which); }
  }

  lemma DeliverConserves(s: State, i: nat, which: Option<Error>)
    requires ConservedFor(s, which) && i < |s.hosts|
    ensures ConservedFor(DeliverStep(s, i), which)
  {
    hide InList, InCallbacks, InHosts;
    HostsUpdate(s.hosts, i, Away, which);
    if s.hosts[i].Throwing? { InListAppend(s.h.delivered, s.hosts[i].error, which); }
  }

  lemma StepConserves(s: State, a: Action, which: Option<Error>)
    requires ConservedFor(s, which)
    ensures ConservedFor(Next(s, a), which)
  {
    hide TaskCalledStep, BookStep, SubmitFailsStep, BeginCallbackStep, SyncCallbackStep, RecordStep, Rethrow;
    hide TakeQueueStep, DeliverStep;
    match a
    case Enqueue =>
    case TaskCalled(result) => TaskCalledConserves(s, result, which);
    case Book => BookConserves(s, which);
    case Stop =>
    case SubmitFails(c, e) => if c < |s.callbacks| { CallbackConserves(s, c, e, 0, which); }
    case BeginCallback(c, allowed) => if c < |s.callbacks| { CallbackConserves(s, c, 0, allowed, which); }
    case SyncCallback(c) => if c < |s.callbacks| { SyncCallbackConserves(s, c, which); }
    case Record(c) => if c < |s.callbacks| { RecordConserves(s, c, which); }
    case Begin(i, allowed) =>
      if i < |s.hosts| && s.hosts[i] == Away { RethrowConserves(s, i, Waiting(allowed), which); }
    case TakeQueue(i) => if i < |s.hosts| { TakeQueueConserves(s, i, which); }
    case LookAgain(i) =>
      if i < |s.hosts| && s.hosts[i] == LastLook { RethrowConserves(s, i, Away, which); }
    case StreamSync(i) =>
      if i < |s.hosts| && s.hosts[i] == Away { RethrowConserves(s, i, Away, which); }
    case Deliver(i) => if i < |s.hosts| { DeliverConserves(s, i, which); }
  }

  /** A `sync` goes its own way: it is waiting once the device slot was found empty, and leaves the wait only when
      the queue lets it; it ends after a second look at an empty device slot, or throws what it took. */
  lemma HostMoves(s: State, a: Action, i: nat)
    requires i < |s.hosts| && |Next(s, a).hosts| == |s.hosts| && Next(s, a).hosts[i] != s.hosts[i]
    ensures var t := Next(s, a); var now := t.hosts[i];
      match s.hosts[i]
      case Away =>
        if s.deviceSlot.Some? then now == Throwing(s.deviceSlot.value) && t.deviceSlot == None
        else a.Begin? && a.i == i && now == Waiting(a.allowed)
      case Waiting(n) =>
        && a == TakeQueue(i) && (s.pending <= n || s.done) && t.queueSlot == None
        && now == if s.queueSlot.Some? then Throwing(s.queueSlot.value) else LastLook
      case LastLook =>
        if s.deviceSlot.Some? then now == Throwing(s.deviceSlot.value) && t.deviceSlot == None else now == Away
      case Throwing(e) => now == Away && t.h.delivered == s.h.delivered + [e]
  {}

  /** An error in the device slot stays until a host takes it to throw it; what comes into an empty slot is what
      a callback had to record. */
  lemma DeviceKeepsFirst(s: State, a: Action)
    requires Next(s, a).deviceSlot != s.deviceSlot
    ensures var t := Next(s, a);
      match s.deviceSlot
      case Some(e) =>
        && t.deviceSlot == None && |t.hosts| == |s.hosts|
        && exists i :: 0 <= i < |s.hosts| && !s.hosts[i].Throwing? && t.hosts[i] == Throwing(e)
      case None =>
        && t.deviceSlot.Some? && |t.callbacks| == |s.callbacks|
        && exists c ::
             0 <= c < |s.callbacks| && s.callbacks[c] == Recording(t.deviceSlot.value) && t.callbacks[c] == Free
  {
    var t := Next(s, a);
    if s.deviceSlot.Some? {
      assert !s.hosts[a.i].Throwing? && t.hosts[a.i] == Throwing(s.deviceSlot.value);
    } else {
      assert s.callbacks[a.c] == Recording(t.deviceSlot.value) && t.callbacks[a.c] == Free;
    }
  }

  lemma {:induction false} CallbacksFree(callbacks: seq<Callback>, which: Option<Error>)
    requires forall c :: 0 <= c < |callbacks| ==> callbacks[c] == Free
    ensures InCallbacks(callbacks, which) == 0
  {
    if |callbacks| > 0 { CallbacksFree(callbacks[..|callbacks| - 1], which); }
  }

  lemma {:induction false} HostsAway(hosts: seq<Host>, which: Option<Error>)
    requires forall i :: 0 <= i < |hosts| ==> !hosts[i].Throwing?
    ensures InHosts(hosts, which) == 0
  {
    if |hosts| > 0 { HostsAway(hosts[..|hosts| - 1], which); }
  }

  /** In every run no error is lost or invented. */
  lemma {:induction false} ErrorsConserved(callbacks: nat, hosts: nat, schedule: seq<Action>)
    ensures Conserved(Run(Init(callbacks, hosts), schedule))
  {
    if |schedule| == 0 {
      forall which ensures ConservedFor(Init(callbacks, hosts), which) {
        CallbacksFree(Repeat(Free, callbacks), which);
        HostsAway(Repeat(Away, hosts), which);
      }
    } else {
      var before := Run(Init(callbacks, hosts), schedule[..|schedule| - 1]);
      ErrorsConserved(callbacks, hosts, schedule[..|schedule| - 1]);
      var after := Next(before, schedule[|schedule| - 1]);
      forall which ensures ConservedFor(after, which) {
        assert ConservedFor(before, which);
        StepConserves(before, schedule[|schedule| - 1], which);
      }
    }
  }

  /** No callback or host is in the middle of anything, and the queue is drained. */
  ghost predicate Quiet(s: State) {
    && s.pending == 0 && s.work == Resting
    && (forall c :: 0 <= c < |s.callbacks| ==> s.callbacks[c] == Free)
    && (forall i :: 0 <= i < |s.hosts| ==> s.hosts[i] == Away)
  }

  /** One host thread's `sync`, run by itself. */
  function HostSync(s: State, i: nat, allowed: nat): State {
    Next(Next(Next(Next(s, Begin(i, allowed)), TakeQueue(i)), LookAgain(i)), Deliver(i))
  }

  /** After any run that ends quiet: while an error is owed the next host
      `sync` throws, and it throws one of the failures that happened; in general
      it throws exactly when one of the two slots holds an error. */
  lemma QuietSyncThrows(callbacks: nat, hosts: nat, schedule: seq<Action>, i: nat, allowed: nat)
    requires i < hosts
    requires Quiet(Run(Init(callbacks, hosts), schedule))
    ensures var s := Run(Init(callbacks, hosts), schedule); var t := HostSync(s, i, allowed);
      && (s.h.owed ==> s.queueSlot.Some? || s.deviceSlot.Some?)
      && (s.queueSlot.Some? || s.deviceSlot.Some? <==> |t.h.delivered| > |s.h.delivered|)
      && (|t.h.delivered| > |s.h.delivered| ==>
            |t.h.delivered| == |s.h.delivered| + 1 && t.h.delivered[|s.h.delivered|] in s.h.failed)
  {
    ErrorsConserved(callbacks, hosts, schedule);
    HostsStay(callbacks, hosts, schedule);
    var s := Run(Init(callbacks, hosts), schedule);
    QuietSlots(s);
    QuietSync(s, i, allowed);
  }

  /** In a quiet state what is owed sits in a slot, and slots hold real failures. */
  lemma QuietSlots(s: State)
    requires Conserved(s) && Quiet(s)
    ensures s.h.owed ==> s.queueSlot.Some? || s.deviceSlot.Some?
    ensures s.queueSlot.Some? ==> s.queueSlot.value in s.h.failed
    ensures s.deviceSlot.Some? ==> s.deviceSlot.value in s.h.failed
  {
    assert ConservedFor(s, None);
    CallbacksFree(s.callbacks, None);
    HostsAway(s.hosts, None);
    if s.queueSlot.Some? {
      assert ConservedFor(s, s.queueSlot);
      Listed(s.h.failed, s.queueSlot.value);
    }
    if s.deviceSlot.Some? {
      assert ConservedFor(s, s.deviceSlot);
      Listed(s.h.failed, s.deviceSlot.value);
    }
  }

  lemma {:induction false} Listed(errors: seq<Error>, e: Error)
    ensures InList(errors, Some(e)) > 0 ==> e in errors
  {
    if |errors| > 0 { Listed(errors[..|errors| - 1], e); }
  }

  lemma QuietSync(s: State, i: nat, allowed: nat)
    requires Quiet(s) && i < |s.hosts|
    ensures var e := if s.deviceSlot.Some? then s.deviceSlot else s.queueSlot;
      HostSync(s, i, allowed).h.delivered == s.h.delivered + (match e case None => [] case Some(x) => [x])
  {}

  /** One device callback that submits and fails, run by itself; and one that syncs. */
  function CallbackFails(s: State, c: nat, e: Error): State { Next(Next(s, SubmitFails(c, e)), Record(c)) }

  function CallbackSync(s: State, c: nat, allowed: nat): State {
    Next(Next(Next(s, BeginCallback(c, allowed)), SyncCallback(c)), Record(c))
  }

  /** A callback's own error goes into the device slot, and so does one that its `sync` is handed; an error already
      there stays, and the callback is free again. */
  lemma QuietCallback(s: State, c: nat, e: Error, allowed: nat)
    requires Quiet(s) && c < |s.callbacks|
    ensures var t := CallbackFails(s, c, e);
      t.deviceSlot == (if s.deviceSlot.Some? then s.deviceSlot else Some(e)) && t.callbacks == s.callbacks
    ensures var t := CallbackSync(s, c, allowed);
      && t.deviceSlot == (if s.deviceSlot.Some? then s.deviceSlot else s.queueSlot)
      && t.queueSlot == None && t.callbacks == s.callbacks
  {}

  /** `sync_with_cuda_stream` throws what the device slot holds, and nothing else. */
  lemma QuietStreamSync(s: State, i: nat)
    requires Quiet(s) && i < |s.hosts|
    ensures var t := Next(Next(s, StreamSync(i)), Deliver(i));
      && t.h.delivered == s.h.delivered + (match s.deviceSlot case None => [] case Some(x) => [x])
      && t.deviceSlot == None && t.queueSlot == s.queueSlot && t.hosts == s.hosts
  {}

  lemma {:induction false} HostsStay(callbacks: nat, hosts: nat, schedule: seq<Action>)
    ensures |Run(Init(callbacks, hosts), schedule).hosts| == hosts
  {
    if |schedule| > 0 { HostsStay(callbacks, hosts, schedule[..|schedule| - 1]); }
  }

  // ----- the object -----

  /** The two slots as fields, each method one locked region or one host call. */
  class Slots {
    var pending: nat
    var queueSlot: Option<Error>
    var deviceSlot: Option<Error>

    constructor ()
      ensures pending == 0 && queueSlot == None && deviceSlot == None
    {
      pending, queueSlot, deviceSlot := 0, None, None;
    }

    /** `rethrow_device_callback_error`: what it throws, if anything. */
    method RethrowDevice() returns (thrown: Option<Error>)
      modifies this
      ensures thrown == old(deviceSlot) && deviceSlot == None
      ensures queueSlot == old(queueSlot) && pending == old(pending)
    {
      thrown := deviceSlot;
      deviceSlot := None;
    }

    method RecordDevice(e: Error)
      modifies this
      ensures deviceSlot == KeepFirst(old(deviceSlot), e)
      ensures queueSlot == old(queueSlot) && pending == old(pending)
    {
      if deviceSlot.None? { deviceSlot := Some(e); }
    }

    method QueueSync(allowed: nat) returns (thrown: Option<Error>)
      requires pending <= allowed
      modifies this
      ensures thrown == old(queueSlot) && queueSlot == None
      ensures deviceSlot == old(deviceSlot) && pending == old(pending)
    {
      thrown := queueSlot;
      queueSlot := None;
    }

    /** `sync`, uninterrupted: the device's error first, then the queue's; the
        one not thrown stays for the next call. */
    method Sync(allowed: nat) returns (thrown: Option<Error>)
      requires pending <= allowed
      modifies this
      ensures forall s: State, i: nat ::
        i < |s.hosts| && Quiet(s) && s.queueSlot == old(queueSlot) && s.deviceSlot == old(deviceSlot) ==>
          var t := HostSync(s, i, allowed);
          && queueSlot == t.queueSlot && deviceSlot == t.deviceSlot
          && t.h.delivered == s.h.delivered + (match thrown case None => [] case Some(e) => [e])
      ensures forall which ::
        InSlot(thrown, which) + InSlot(queueSlot, which) + InSlot(deviceSlot, which)
        == InSlot(old(queueSlot), which) + InSlot(old(deviceSlot), which)
    {
      thrown := RethrowDevice();
      if thrown.Some? { return; }
      thrown := QueueSync(allowed);
      if thrown.Some? { return; }
      thrown := RethrowDevice();
    }

    /** `sync_callback_`: whatever `sync_` throws ends in the device slot. */
    method RunSyncCallback(allowed: nat)
      requires pending <= allowed
      modifies this
      ensures queueSlot == None && pending == old(pending)
      ensures deviceSlot ==
        if old(queueSlot).Some? then KeepFirst(old(deviceSlot), old(queueSlot).value) else old(deviceSlot)
    {
      var thrown := QueueSync(allowed);
      if thrown.Some? { RecordDevice(thrown.value); }
    }
  }
}
