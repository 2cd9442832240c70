/** One pool of worker threads and the work-stealing job it runs over and over:
    per-thread status flags, a shared counter, and a polling barrier. */
module WorkerPool {
  import opened Segments

  /** `work(t, x)` is what task `t` makes of its own cell. */
  datatype Job = Job(tasks: int, work: (nat, int) -> int)

  datatype Status = WORKING | WAITING

  /** Where a thread stands; thread 0 is the caller inside `process_tasks(0)`. */
  datatype Pc =
    | Polling
    | Initialising
    | Loading
    | Claiming
    | Computing(task: nat)
    | Finalizing
    | Storing

  datatype Caller =
    | Idle
    | Setting(i: nat)        // next status to set
    | Processing
    | Waiting(i: nat)        // next status to poll
  
  /** What happened in the current job: stages per thread, computations and
      claimant per task, and the cells the job started from. */
  datatype History = History(
    inits: seq<nat>,
    finals: seq<nat>,
    computed: seq<nat>,
    owner: seq<nat>,
    initial: seq<int>)

  datatype State = State(
    limit: nat,              // restricted_worker_count
    workerCount: int,
    curr: int,
    end: int,
    job: Job,
    status: seq<Status>,
    threads: seq<Pc>,
    caller: Caller,
    cells: seq<int>,
    h: History)

  function Min(a: int, b: int): int { if a < b then a else b }

  function AtLeastZero(n: int): nat { if n < 0 then 0 else n }

  /** A pool of `n` threads, `limit` of them in use, with its cells. */
  function Init(n: nat, limit: nat, cells: seq<int>): State {
    State(limit, 0, 0, 0, Job(0, (t, x) => x), Repeat(WAITING, n), Repeat(Polling, n), Idle, cells,
          History(Repeat(0, n), Repeat(0, n), [], [], cells))
  }

  datatype Action =
    | Start(job: Job)
    | Call
    | Step(w: nat)

  // ----- the caller -----

  /** The job's fields are stored while every thread is polling, so no thread
      can read them half written; they are stored here in one step. */
  function StartStep(s: State, job: Job): State {
    if s.caller != Idle then s
    else
      s.(workerCount := Min(s.limit, job.tasks), curr := 0, end := job.tasks, job := job, caller := Setting(0),
         h := History(Repeat(0, |s.threads|), Repeat(0, |s.threads|), Repeat(0, AtLeastZero(job.tasks)),
                      Repeat(0, AtLeastZero(job.tasks)), s.cells))
  }

  function CallStep(s: State): State {
    match s.caller
    case Idle => s
    case Setting(i) =>
      if i < s.workerCount then
        if i < |s.status| then s.(status := s.status[i := WORKING], caller := Setting(i + 1)) else s
      else if |s.threads| > 0 then s.(threads := s.threads[0 := Initialising], caller := Processing)
      else s
    case Processing => if |s.threads| > 0 && s.threads[0] == Polling then s.(caller := Waiting(0)) else s
    case Waiting(i) =>
      if i < s.workerCount then
        if i < |s.status| && s.status[i] == WORKING then s else s.(caller := Waiting(i + 1))
      else s.(caller := Idle)
  }

  /** The call is over: the last poll has succeeded. */
  predicate Returning(s: State) { s.caller.Waiting? && s.caller.i >= s.workerCount }

  // ----- process_tasks and the thread loop around it -----

  function Computed(s: State, w: nat, t: nat): State
    requires w < |s.threads|
  {
    s.(threads := s.threads[w := Loading],
       cells := if t < |s.cells| then s.cells[t := s.job.work(t, s.cells[t])] else s.cells,
       h := if t < |s.h.computed| then s.h.(computed := s.h.computed[t := s.h.computed[t] + 1]) else s.h)
  }

  function Claim(s: State, w: nat): State
    requires w < |s.threads|
  {
    var t := s.curr;
    if t >= s.end then s.(curr := t + 1, threads := s.threads[w := Finalizing])
    else if t < 0 then s
    else
      s.(curr := t + 1, threads := s.threads[w := Computing(t)],
         h := if t < |s.h.owner| then s.h.(owner := s.h.owner[t := w]) else s.h)
  }

  function ThreadStep(s: State, w: nat): State
    requires w < |s.threads|
  {
    match s.threads[w]
    case Polling =>
      if w > 0 && w < |s.status| && s.status[w] == WORKING then s.(threads := s.threads[w := Initialising]) else s
    case Initialising =>
      s.(threads := s.threads[w := Loading],
         h := if w < |s.h.inits| then s.h.(inits := s.h.inits[w := s.h.inits[w] + 1]) else s.h)
    case Loading =>
      s.(threads := s.threads[w := if s.end - s.curr <= 0 then Finalizing else Claiming])
    case Claiming => Claim(s, w)
    case Computing(t) => Computed(s, w, t)
    case Finalizing =>
      s.(threads := s.threads[w := Storing],
         h := if w < |s.h.finals| then s.h.(finals := s.h.finals[w := s.h.finals[w] + 1]) else s.h)
    case Storing =>
      if w < |s.status| then s.(status := s.status[w := WAITING], threads := s.threads[w := Polling]) else s
  }

  function Next(s: State, a: Action): State {
    match a
    case Start(job) => StartStep(s, job)
    case Call => CallStep(s)
    case Step(w) => if w < |s.threads| then ThreadStep(s, w) else s
  }

  function Run(s: State, schedule: seq<Action>): State {
    if |schedule| == 0 then s else Next(Run(s, schedule[..|schedule| - 1]), schedule[|schedule| - 1])
  }

  // ----- the invariant -----

  /** Takes part in the current job: the first `workerCount` threads, and the
      caller in any case. */
  predicate Active(workerCount: int, w: nat) { w < workerCount || w == 0 }

  /** The thread has been told, or may tell itself, to run the job. */
  predicate Released(caller: Caller, workerCount: int, w: nat) {
    match caller
    case Idle => false
    case Setting(i) => 0 < w < i && w < workerCount
    case Processing => Active(workerCount, w)
    case Waiting(_) => 0 < w < workerCount
  }

  predicate Passed(caller: Caller, w: nat) { caller.Waiting? && w < caller.i }

  ghost predicate ThreadOk(caller: Caller, workerCount: int, drained: bool, w: nat,
                           status: Status, pc: Pc, inits: nat, finals: nat)
  {
    && (pc != Polling ==>
          && Released(caller, workerCount, w) && !Passed(caller, w)
          && (status == WORKING <==> w < workerCount)
          && inits == (if pc == Initialising then 0 else 1)
          && finals == (if pc == Storing then 1 else 0)
          && (pc == Finalizing || pc == Storing ==> drained))
    && (pc == Polling && status == WORKING ==>
          && inits == 0 && finals == 0 && !Passed(caller, w)
          && w < workerCount
          && (if w == 0 then caller.Setting? && caller.i > 0 else Released(caller, workerCount, w)))
    && (pc == Polling && status == WAITING && caller != Idle ==>
          if caller.Setting? then
            if 0 < w < caller.i && w < workerCount then inits == 1 && finals == 1 && drained
            else inits == 0 && finals == 0 && (w < workerCount ==> caller.i <= w)
          else if Active(workerCount, w) then inits == 1 && finals == 1 && drained
          else inits == 0 && finals == 0)
  }

  ghost predicate ThreadsOk(caller: Caller, workerCount: int, drained: bool,
                            status: seq<Status>, threads: seq<Pc>, inits: seq<nat>, finals: seq<nat>)
  {
    && |status| == |threads| == |inits| == |finals|
    && forall w :: 0 <= w < |threads| ==>
         ThreadOk(caller, workerCount, drained, w, status[w], threads[w], inits[w], finals[w])
  }

  /** A claimed task is either computed or in the hands of its claimant. */
  ghost predicate TasksOk(curr: int, threads: seq<Pc>, computed: seq<nat>, owner: seq<nat>) {
    && |computed| == |owner| && curr >= 0
    && (forall t :: 0 <= t < |computed| ==>
          if t < curr then
            || computed[t] == 1
            || (computed[t] == 0 && owner[t] < |threads| && threads[owner[t]] == Computing(t))
          else computed[t] == 0)
    && (forall w :: 0 <= w < |threads| && threads[w].Computing? ==>
          var t := threads[w].task;
          t < curr && t < |computed| && computed[t] == 0 && owner[t] == w)
  }

  ghost predicate CellsOk(job: Job, cells: seq<int>, initial: seq<int>, computed: seq<nat>) {
    && |cells| == |initial|
    && forall t :: 0 <= t < |cells| ==>
         cells[t] == if t < |computed| && computed[t] > 0 then job.work(t, initial[t]) else initial[t]
  }

  /** Threads between reading the counter and adding to it. */
  function Claimers(threads: seq<Pc>): nat {
    if |threads| == 0 then 0
    else Claimers(threads[..|threads| - 1]) + (if threads[|threads| - 1] == Claiming then 1 else 0)
  }

  /** Once the counter is past the last task, the claims still under way are too
      few to push it further than one place per other worker. */
  ghost predicate CounterOk(curr: int, end: int, workerCount: int, threads: seq<Pc>) {
    && (curr >= end && end >= 1 ==> curr + Claimers(threads) <= end + workerCount - 1)
    && (end <= 0 ==> curr == 0)
    && forall w :: 0 <= w < |threads| && threads[w] == Claiming ==> w < workerCount && end >= 1
  }

  ghost predicate Inv(s: State) {
    && 1 <= s.limit <= |s.threads|
    && s.workerCount == Min(s.limit, s.end) && s.end == s.job.tasks
    && |s.h.computed| == AtLeastZero(s.end)
    && ThreadsOk(s.caller, s.workerCount, s.curr >= s.end, s.status, s.threads, s.h.inits, s.h.finals)
    && TasksOk(s.curr, s.threads, s.h.computed, s.h.owner)
    && CellsOk(s.job, s.cells, s.h.initial, s.h.computed)
    && CounterOk(s.curr, s.end, s.workerCount, s.threads)
  }

  lemma {:induction false} NoClaimers(threads: seq<Pc>)
    requires forall w :: 0 <= w < |threads| ==> threads[w] != Claiming
    ensures Claimers(threads) == 0
  {
    if |threads| > 0 { NoClaimers(threads[..|threads| - 1]); }
  }

  lemma {:induction false} ClaimersUpdate(threads: seq<Pc>, w: nat, pc: Pc)
    requires w < |threads|
    ensures Claimers(threads[w := pc]) + (if threads[w] == Claiming then 1 else 0)
         == Claimers(threads) + (if pc == Claiming then 1 else 0)
  {
    var n := |threads| - 1;
    if w < n {
      ClaimersUpdate(threads[..n], w, pc);
      assert threads[w := pc][..n] == threads[..n][w := pc];
    } else {
      assert threads[w := pc][..n] == threads[..n];
    }
  }

  /** Only threads below `n` are claiming. */
  lemma {:induction false} ClaimersBelow(threads: seq<Pc>, n: nat)
    requires forall w :: 0 <= w < |threads| && threads[w] == Claiming ==> w < n
    ensures Claimers(threads) <= n
    decreases |threads|
  {
    if |threads| > n {
      ClaimersBelow(threads[..|threads| - 1], n);
    } else if |threads| > 0 {
      ClaimersBelow(threads[..|threads| - 1], |threads| - 1);
    }
  }

  lemma InitOk(n: nat, limit: nat, cells: seq<int>)
    requires 1 <= limit <= n
    ensures Inv(Init(n, limit, cells))
  {
    NoClaimers(Repeat(Polling, n));
  }

  /** Between jobs every thread polls with its status at WAITING. */
  lemma IdleQuiet(s: State, w: nat)
    requires Inv(s) && s.caller == Idle && w < |s.threads|
    ensures s.threads[w] == Polling && s.status[w] == WAITING
  {
    assert ThreadOk(s.caller, s.workerCount, s.curr >= s.end, w, s.status[w], s.threads[w], s.h.inits[w],
                    s.h.finals[w]);
  }

  lemma StartKept(s: State, job: Job)
    requires Inv(s)
    ensures Inv(StartStep(s, job))
  {
    if s.caller == Idle {
      forall w | 0 <= w < |s.threads| ensures s.threads[w] == Polling && s.status[w] == WAITING {
        IdleQuiet(s, w);
      }
      NoClaimers(s.threads);
    }
  }

  // ----- the caller's steps keep it -----

  lemma TasksSame(curr: int, threads: seq<Pc>, computed: seq<nat>, owner: seq<nat>, w: nat, pc: Pc)
    requires TasksOk(curr, threads, computed, owner) && w < |threads|
    requires !threads[w].Computing? && !pc.Computing?
    ensures TasksOk(curr, threads[w := pc], computed, owner)
  {}

  lemma CounterSame(curr: int, end: int, workerCount: int, threads: seq<Pc>, w: nat, pc: Pc)
    requires CounterOk(curr, end, workerCount, threads) && w < |threads| && pc != Claiming
    ensures CounterOk(curr, end, workerCount, threads[w := pc])
  {
    ClaimersUpdate(threads, w, pc);
    hide Claimers;
  }

  lemma SettingThreads(s: State, w: nat)
    requires Inv(s) && s.caller.Setting? && w < |s.threads|
    ensures var t := CallStep(s);
      |t.threads| == |t.status| == |t.h.inits| == |t.h.finals| == |s.threads|
      && ThreadOk(t.caller, t.workerCount, t.curr >= t.end, w, t.status[w], t.threads[w], t.h.inits[w], t.h.finals[w])
  {
    hide TasksOk, CellsOk, CounterOk;
    assert ThreadOk(s.caller, s.workerCount, s.curr >= s.end, w, s.status[w], s.threads[w], s.h.inits[w],
                    s.h.finals[w]);
  }

  lemma PollingThreads(s: State, w: nat)
    requires Inv(s) && !s.caller.Setting? && w < |s.threads|
    ensures var t := CallStep(s);
      |t.threads| == |t.status| == |t.h.inits| == |t.h.finals| == |s.threads|
      && ThreadOk(t.caller, t.workerCount, t.curr >= t.end, w, t.status[w], t.threads[w], t.h.inits[w], t.h.finals[w])
  {
    hide TasksOk, CellsOk, CounterOk;
    assert ThreadOk(s.caller, s.workerCount, s.curr >= s.end, w, s.status[w], s.threads[w], s.h.inits[w],
                    s.h.finals[w]);
    assert ThreadOk(s.caller, s.workerCount, s.curr >= s.end, 0, s.status[0], s.threads[0], s.h.inits[0],
                    s.h.finals[0]);
  }

  lemma CallThreads(s: State)
    requires Inv(s)
    ensures var t := CallStep(s);
      ThreadsOk(t.caller, t.workerCount, t.curr >= t.end, t.status, t.threads, t.h.inits, t.h.finals)
  {
    var t := CallStep(s);
    forall w | 0 <= w < |t.threads|
      ensures |t.threads| == |t.status| == |t.h.inits| == |t.h.finals|
      ensures ThreadOk(t.caller, t.workerCount, t.curr >= t.end, w, t.status[w], t.threads[w], t.h.inits[w],
                       t.h.finals[w])
    {
      if s.caller.Setting? { SettingThreads(s, w); } else { PollingThreads(s, w); }
    }
  }

  lemma CallKept(s: State)
    requires Inv(s)
    ensures Inv(CallStep(s))
  {
    CallThreads(s);
    if s.caller.Setting? && s.caller.i >= s.workerCount {
      assert ThreadOk(s.caller, s.workerCount, s.curr >= s.end, 0, s.status[0], s.threads[0], s.h.inits[0],
                      s.h.finals[0]);
      TasksSame(s.curr, s.threads, s.h.computed, s.h.owner, 0, Initialising);
      CounterSame(s.curr, s.end, s.workerCount, s.threads, 0, Initialising);
    }
    hide ThreadsOk, TasksOk, CellsOk, CounterOk;
  }

  // ----- the threads' steps keep it -----

  /** One thread's entries change, and the others do not mind the counter growing. */
  lemma OneThread(s: State, t: State, w: nat)
    requires Inv(s) && w < |s.threads|
    requires t.caller == s.caller && t.workerCount == s.workerCount && t.end == s.end && s.curr <= t.curr
    requires |t.status| == |t.threads| == |t.h.inits| == |t.h.finals| == |s.threads|
    requires forall v :: 0 <= v < |s.threads| && v != w ==>
      && t.status[v] == s.status[v] && t.threads[v] == s.threads[v]
      && t.h.inits[v] == s.h.inits[v] && t.h.finals[v] == s.h.finals[v]
    requires ThreadOk(t.caller, t.workerCount, t.curr >= t.end, w, t.status[w], t.threads[w], t.h.inits[w],
                      t.h.finals[w])
    ensures ThreadsOk(t.caller, t.workerCount, t.curr >= t.end, t.status, t.threads, t.h.inits, t.h.finals)
  {
    hide TasksOk, CellsOk, CounterOk;
  }

  lemma ThisThread(s: State, w: nat)
    requires Inv(s) && w < |s.threads|
    ensures |s.status| == |s.threads| == |s.h.inits| == |s.h.finals| && s.curr >= 0
    ensures ThreadOk(s.caller, s.workerCount, s.curr >= s.end, w, s.status[w], s.threads[w], s.h.inits[w],
                     s.h.finals[w])
  {
    hide CellsOk, CounterOk;
  }

  lemma MovedThread(s: State, w: nat)
    requires Inv(s) && w < |s.threads|
    ensures var t := ThreadStep(s, w);
      ThreadsOk(t.caller, t.workerCount, t.curr >= t.end, t.status, t.threads, t.h.inits, t.h.finals)
  {
    ThisThread(s, w);
    MovedSelf(s, w);
    OneThread(s, ThreadStep(s, w), w);
  }

  lemma MovedSelf(s: State, w: nat)
    requires w < |s.threads| == |s.status| == |s.h.inits| == |s.h.finals|
    requires ThreadOk(s.caller, s.workerCount, s.curr >= s.end, w, s.status[w], s.threads[w], s.h.inits[w],
                      s.h.finals[w])
    ensures var t := ThreadStep(s, w);
      && t.caller == s.caller && t.workerCount == s.workerCount && t.end == s.end && s.curr <= t.curr
      && |t.status| == |t.threads| == |t.h.inits| == |t.h.finals| == |s.threads|
      && (forall v :: 0 <= v < |s.threads| && v != w ==>
            && t.status[v] == s.status[v] && t.threads[v] == s.threads[v]
            && t.h.inits[v] == s.h.inits[v] && t.h.finals[v] == s.h.finals[v])
      && ThreadOk(t.caller, t.workerCount, t.curr >= t.end, w, t.status[w], t.threads[w], t.h.inits[w], t.h.finals[w])
  {}

  lemma ClaimKept(s: State, w: nat)
    requires Inv(s) && w < |s.threads| && s.threads[w] == Claiming
    ensures Inv(Claim(s, w))
  {
    MovedThread(s, w);
    ClaimTasks(s.curr, s.end, s.threads, s.h.computed, s.h.owner, w);
    ClaimCounter(s.curr, s.end, s.workerCount, s.threads, w);
    hide ThreadsOk, CellsOk, TasksOk, CounterOk;
  }

  lemma ClaimTasks(curr: int, end: int, threads: seq<Pc>, computed: seq<nat>, owner: seq<nat>, w: nat)
    requires TasksOk(curr, threads, computed, owner) && w < |threads| && threads[w] == Claiming
    requires |computed| == AtLeastZero(end)
    ensures curr >= end ==> TasksOk(curr + 1, threads[w := Finalizing], computed, owner)
    ensures curr < end ==>
      0 <= curr < |owner| && TasksOk(curr + 1, threads[w := Computing(curr)], computed, owner[curr := w])
  {}

  lemma ClaimCounter(curr: int, end: int, workerCount: int, threads: seq<Pc>, w: nat)
    requires CounterOk(curr, end, workerCount, threads) && curr >= 0
    requires w < |threads| && threads[w] == Claiming
    ensures curr >= end ==> CounterOk(curr + 1, end, workerCount, threads[w := Finalizing])
    ensures curr >= 0 && curr < end ==> CounterOk(curr + 1, end, workerCount, threads[w := Computing(curr)])
  {
    ClaimersUpdate(threads, w, Finalizing);
    if 0 <= curr < end { ClaimersUpdate(threads, w, Computing(curr)); }
    ClaimersBelow(threads, workerCount);
    hide Claimers;
  }

  lemma ComputedKept(s: State, w: nat)
    requires Inv(s) && w < |s.threads| && s.threads[w].Computing?
    ensures Inv(Computed(s, w, s.threads[w].task))
  {
    MovedThread(s, w);
    CounterSame(s.curr, s.end, s.workerCount, s.threads, w, Loading);
    ComputedTasks(s.curr, s.threads, s.h.computed, s.h.owner, w);
    ComputedCells(s.job, s.cells, s.h.initial, s.h.computed, s.threads[w].task);
    hide ThreadsOk, CellsOk, TasksOk, CounterOk;
  }

  lemma ComputedTasks(curr: int, threads: seq<Pc>, computed: seq<nat>, owner: seq<nat>, w: nat)
    requires TasksOk(curr, threads, computed, owner) && w < |threads| && threads[w].Computing?
    ensures var t := threads[w].task;
      t < |computed| && computed[t] == 0 && TasksOk(curr, threads[w := Loading], computed[t := computed[t] + 1], owner)
  {}

  lemma ComputedCells(job: Job, cells: seq<int>, initial: seq<int>, computed: seq<nat>, t: nat)
    requires CellsOk(job, cells, initial, computed) && t < |computed| && computed[t] == 0
    ensures CellsOk(job, if t < |cells| then cells[t := job.work(t, cells[t])] else cells, initial,
                    computed[t := computed[t] + 1])
  {}

  lemma LoadingKept(s: State, w: nat)
    requires Inv(s) && w < |s.threads| && s.threads[w] == Loading
    ensures Inv(ThreadStep(s, w))
  {
    MovedThread(s, w);
    ThisThread(s, w);
    var pc := ThreadStep(s, w).threads[w];
    TasksSame(s.curr, s.threads, s.h.computed, s.h.owner, w, pc);
    ClaimersUpdate(s.threads, w, pc);
    hide ThreadsOk, CellsOk, TasksOk, Claimers;
  }

  lemma StageKept(s: State, w: nat)
    requires Inv(s) && w < |s.threads|
    requires !s.threads[w].Computing? && s.threads[w] != Claiming && s.threads[w] != Loading
    ensures Inv(ThreadStep(s, w))
  {
    MovedThread(s, w);
    var pc := ThreadStep(s, w).threads[w];
    TasksSame(s.curr, s.threads, s.h.computed, s.h.owner, w, pc);
    CounterSame(s.curr, s.end, s.workerCount, s.threads, w, pc);
    assert s.threads[w] == pc ==> s.threads[w := pc] == s.threads;
    hide ThreadsOk, CellsOk, TasksOk, CounterOk;
  }

  lemma ThreadKept(s: State, w: nat)
    requires Inv(s) && w < |s.threads|
    ensures Inv(ThreadStep(s, w))
  {
    hide Inv;
    match s.threads[w]
    case Computing(_) => ComputedKept(s, w);
    case Claiming => ClaimKept(s, w);
    case Loading => LoadingKept(s, w);
    case _ => StageKept(s, w);
  }

  lemma StepKept(s: State, a: Action)
    requires Inv(s)
    ensures Inv(Next(s, a))
  {
    hide Inv, ThreadStep, CallStep, StartStep;
    match a
    case Start(job) => StartKept(s, job);
    case Call => CallKept(s);
    case Step(w) => if w < |s.threads| { ThreadKept(s, w); }
  }

  lemma {:induction false} RunInv(n: nat, limit: nat, cells: seq<int>, schedule: seq<Action>)
    requires 1 <= limit <= n
    ensures Inv(Run(Init(n, limit, cells), schedule))
  {
    hide Inv, Next;
    if |schedule| == 0 {
      InitOk(n, limit, cells);
    } else {
      RunInv(n, limit, cells, schedule[..|schedule| - 1]);
      StepKept(Run(Init(n, limit, cells), schedule[..|schedule| - 1]), schedule[|schedule| - 1]);
    }
  }
}
