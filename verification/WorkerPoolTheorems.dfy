/** What a job on the pool promises, over every interleaving and any number of
    earlier jobs. */
module WorkerPoolTheorems {
  import opened WorkerPool

  // ----- the sequential loop -----

  function Sequential(job: Job, cells: seq<int>, n: nat): (r: seq<int>)
    ensures |r| == |cells|
  {
    if n == 0 then cells
    else
      var before := Sequential(job, cells, n - 1);
      if n - 1 < |before| then before[n - 1 := job.work(n - 1, before[n - 1])] else before
  }

  lemma {:induction false} SequentialAt(job: Job, cells: seq<int>, n: nat, t: nat)
    requires t < |cells|
    ensures Sequential(job, cells, n)[t] == if t < n then job.work(t, cells[t]) else cells[t]
  {
    if n > 0 { SequentialAt(job, cells, n - 1, t); }
  }

  // ----- exactly once -----

  /** At the moment the call returns: every task computed once, each active
      thread through its stages once and no other thread involved, nobody still
      running, and the counter at most one place past the end per other worker. */
  lemma ExactlyOnce(n: nat, limit: nat, cells: seq<int>, schedule: seq<Action>)
    requires 1 <= limit <= n
    requires Returning(Run(Init(n, limit, cells), schedule))
    ensures var s := Run(Init(n, limit, cells), schedule);
      && |s.threads| == |s.h.inits| == |s.h.finals|
      && |s.h.computed| == (if s.job.tasks < 0 then 0 else s.job.tasks)
      && (forall t :: 0 <= t < |s.h.computed| ==> s.h.computed[t] == 1)
      && (forall w :: 0 <= w < |s.threads| ==>
            && s.threads[w] == Polling
            && s.h.inits[w] == s.h.finals[w] == if w == 0 || (w < s.limit && w < s.job.tasks) then 1 else 0)
      && (s.job.tasks >= 1 ==>
            s.job.tasks <= s.curr < s.job.tasks + s.limit && s.curr < s.job.tasks + s.job.tasks)
  {
    RunInv(n, limit, cells, schedule);
    var s := Run(Init(n, limit, cells), schedule);
    Finished(s);
  }

  lemma Finished(s: State)
    requires Inv(s) && Returning(s)
    ensures |s.threads| == |s.h.inits| == |s.h.finals|
    ensures forall w :: 0 <= w < |s.threads| ==>
      s.threads[w] == Polling && s.h.inits[w] == s.h.finals[w] == if Active(s.workerCount, w) then 1 else 0
    ensures s.curr >= s.end
    ensures forall t :: 0 <= t < |s.h.computed| ==> s.h.computed[t] == 1
    ensures s.end >= 1 ==> s.curr <= s.end + s.workerCount - 1
  {
    hide CellsOk, Claimers;
    ThisThread(s, 0);
    forall w | 0 <= w < |s.threads|
      ensures s.threads[w] == Polling && s.h.inits[w] == s.h.finals[w] == if Active(s.workerCount, w) then 1 else 0
    {
      ThisThread(s, w);
    }
  }

  /** A job with no tasks, from its start to the moment its call returns, on a pool of one thread. */
  function NoTasks(work: (nat, int) -> int): seq<Action> {
    [Start(Job(0, work)), Call, Step(0), Step(0), Step(0), Step(0), Call]
  }

  /** The states of that call. */
  lemma NoTasksStates(cells: seq<int>, work: (nat, int) -> int)
    ensures var s := Init(1, 1, cells); var told := StartStep(s, Job(0, work)).(
        threads := [Initialising], caller := Processing);
      var finalized := told.(threads := [Storing], h := told.h.(inits := [1], finals := [1]));
      && Next(Next(s, Start(Job(0, work))), Call) == told
      && Next(Next(Next(told, Step(0)), Step(0)), Step(0)) == finalized
      && Next(Next(finalized, Step(0)), Call) == finalized.(threads := [Polling], caller := Waiting(0))
  {
    var s := Init(1, 1, cells);
    assert s.threads == [Polling] && s.status == [WAITING];
    var told := StartStep(s, Job(0, work)).(threads := [Initialising], caller := Processing);
    assert told.h.inits == [0] && told.h.finals == [0];
    var ready := told.(threads := [Loading], h := told.h.(inits := [1]));
    assert Next(told, Step(0)) == ready;
    assert Next(ready, Step(0)) == ready.(threads := [Finalizing]);
  }

  lemma RunStep(s: State, schedule: seq<Action>, k: nat)
    requires k < |schedule|
    ensures Run(s, schedule[..k + 1]) == Next(Run(s, schedule[..k]), schedule[k])
    ensures Run(s, schedule[..0]) == s && schedule[..|schedule|] == schedule
  {
    assert schedule[..k + 1][..k] == schedule[..k];
  }

  /** It runs the init and finalize functions of thread 0, though no worker is counted. */
  lemma NoTasksStillInits(cells: seq<int>, work: (nat, int) -> int)
    ensures var s := Run(Init(1, 1, cells), NoTasks(work));
      Returning(s) && s.workerCount == 0 && s.h.inits == [1] && s.h.finals == [1] && s.cells == cells
  {
    hide Next, Run;
    var s, a := Init(1, 1, cells), NoTasks(work);
    NoTasksStates(cells, work);
    RunStep(s, a, 0);
    RunStep(s, a, 1);
    RunStep(s, a, 2);
    RunStep(s, a, 3);
    RunStep(s, a, 4);
    RunStep(s, a, 5);
    RunStep(s, a, 6);
  }

  /** Outside a call no thread is inside `process_tasks`, so no thread can ever
      run a closure of an earlier job. */
  lemma NoStaleJob(n: nat, limit: nat, cells: seq<int>, schedule: seq<Action>, w: nat)
    requires 1 <= limit <= n
    ensures var s := Run(Init(n, limit, cells), schedule);
      s.caller == Idle && w < |s.threads| ==> w < |s.status| && s.threads[w] == Polling && s.status[w] == WAITING
  {
    RunInv(n, limit, cells, schedule);
    var s := Run(Init(n, limit, cells), schedule);
    if s.caller == Idle && w < |s.threads| {
      ThisThread(s, w);
      IdleQuiet(s, w);
    }
  }

  // ----- the result is the sequential loop's -----

  lemma StepKeepsJob(s: State, a: Action)
    requires !a.Start?
    ensures Next(s, a).job == s.job && Next(s, a).h.initial == s.h.initial
  {}

  lemma {:induction false} RunKeepsJob(s: State, schedule: seq<Action>)
    requires forall i :: 0 <= i < |schedule| ==> !schedule[i].Start?
    ensures Run(s, schedule).job == s.job && Run(s, schedule).h.initial == s.h.initial
  {
    if |schedule| > 0 {
      RunKeepsJob(s, schedule[..|schedule| - 1]);
      StepKeepsJob(Run(s, schedule[..|schedule| - 1]), schedule[|schedule| - 1]);
    }
  }

  /** Whatever ran before and however the threads interleave, a job started on
      an idle pool leaves the cells as the sequential loop over its tasks does. */
  lemma SameAsSequential(n: nat, limit: nat, cells: seq<int>, before: seq<Action>, job: Job, schedule: seq<Action>)
    requires 1 <= limit <= n
    requires Run(Init(n, limit, cells), before).caller == Idle
    requires forall i :: 0 <= i < |schedule| ==> !schedule[i].Start?
    requires Returning(Run(Next(Run(Init(n, limit, cells), before), Start(job)), schedule))
    ensures var s := Run(Init(n, limit, cells), before);
      Run(Next(s, Start(job)), schedule).cells == Sequential(job, s.cells, AtLeastZero(job.tasks))
  {
    var s := Run(Init(n, limit, cells), before);
    var started := Next(s, Start(job));
    var t := Run(started, schedule);
    RunInv(n, limit, cells, before);
    StepKept(s, Start(job));
    RunKeepsInv(started, schedule);
    RunKeepsJob(started, schedule);
    Finished(t);
    FinishedCells(t);
  }

  lemma {:induction false} RunKeepsInv(s: State, schedule: seq<Action>)
    requires Inv(s)
    ensures Inv(Run(s, schedule))
  {
    hide Inv, Next;
    if |schedule| > 0 {
      RunKeepsInv(s, schedule[..|schedule| - 1]);
      StepKept(Run(s, schedule[..|schedule| - 1]), schedule[|schedule| - 1]);
    }
  }

  lemma FinishedCells(s: State)
    requires Inv(s) && forall t :: 0 <= t < |s.h.computed| ==> s.h.computed[t] == 1
    ensures s.cells == Sequential(s.job, s.h.initial, AtLeastZero(s.job.tasks))
  {
    hide ThreadsOk, TasksOk, CounterOk;
    forall t: nat | t < |s.cells|
      ensures s.cells[t] == Sequential(s.job, s.h.initial, AtLeastZero(s.job.tasks))[t]
    {
      SequentialAt(s.job, s.h.initial, AtLeastZero(s.job.tasks), t);
    }
  }

  // ----- the job comes to an end -----

  function Stage(status: Status, pc: Pc): nat {
    match pc
    case Polling => if status == WORKING then 6 else 0
    case Initialising => 5
    case Computing(_) => 5
    case Loading => 4
    case Claiming => 3
    case Finalizing => 2
    case Storing => 1
  }

  function Stages(status: seq<Status>, threads: seq<Pc>): nat
    requires |status| == |threads|
  {
    if |threads| == 0 then 0
    else
      var n := |threads| - 1;
      Stages(status[..n], threads[..n]) + Stage(status[n], threads[n])
  }

  function CallerStage(caller: Caller, workerCount: int): nat {
    match caller
    case Idle => 0
    case Waiting(i) => AtLeastZero(workerCount - i) + 1
    case Processing => AtLeastZero(workerCount) + 2
    case Setting(i) => AtLeastZero(workerCount) + 8 + 7 * AtLeastZero(workerCount - i)
  }

  /** Work left: steps of the caller and of each thread, and unclaimed tasks. */
  function Measure(s: State): nat
    requires |s.status| == |s.threads|
  {
    CallerStage(s.caller, s.workerCount) + Stages(s.status, s.threads) + 3 * AtLeastZero(s.end - s.curr)
  }

  lemma {:induction false} StagesUpdate(status: seq<Status>, threads: seq<Pc>, w: nat, st: Status, pc: Pc)
    requires w < |status| == |threads|
    ensures Stages(status[w := st], threads[w := pc]) + Stage(status[w], threads[w])
         == Stages(status, threads) + Stage(st, pc)
  {
    var n := |threads| - 1;
    if w < n {
      StagesUpdate(status[..n], threads[..n], w, st, pc);
      assert status[w := st][..n] == status[..n][w := st];
      assert threads[w := pc][..n] == threads[..n][w := pc];
    } else {
      assert status[w := st][..n] == status[..n];
      assert threads[w := pc][..n] == threads[..n];
    }
  }

  lemma ThreadApproaches(s: State, w: nat)
    requires Inv(s) && w < |s.threads|
    ensures |s.status| == |s.threads| && |ThreadStep(s, w).status| == |ThreadStep(s, w).threads|
    ensures ThreadStep(s, w) == s || Measure(ThreadStep(s, w)) < Measure(s)
    ensures s.threads[w] != Polling || (w > 0 && s.status[w] == WORKING) ==> Measure(ThreadStep(s, w)) < Measure(s)
  {
    var t := ThreadStep(s, w);
    ThisThread(s, w);
    StageDrops(s, w);
    hide Inv, Stage, ThreadStep;
    StagesUpdate(s.status, s.threads, w, t.status[w], t.threads[w]);
  }

  lemma StageDrops(s: State, w: nat)
    requires w < |s.threads| == |s.status| && s.curr >= 0
    ensures var t := ThreadStep(s, w);
      && |t.status| == |t.threads| == |s.threads| && t.caller == s.caller && t.workerCount == s.workerCount
      && t.status == s.status[w := t.status[w]] && t.threads == s.threads[w := t.threads[w]]
      && (t == s || Stage(t.status[w], t.threads[w]) + 3 * AtLeastZero(t.end - t.curr)
                    < Stage(s.status[w], s.threads[w]) + 3 * AtLeastZero(s.end - s.curr))
      && (s.threads[w] != Polling || (w > 0 && s.status[w] == WORKING) ==> t != s)
  {
    assert s.status[w := s.status[w]] == s.status && s.threads[w := s.threads[w]] == s.threads;
  }

  lemma CallApproaches(s: State)
    requires Inv(s)
    ensures |s.status| == |s.threads| && |CallStep(s).status| == |CallStep(s).threads|
    ensures CallStep(s) == s || Measure(CallStep(s)) < Measure(s)
    ensures s.caller.Setting? ==> Measure(CallStep(s)) < Measure(s)
    ensures s.caller == Processing && s.threads[0] == Polling ==> Measure(CallStep(s)) < Measure(s)
    ensures s.caller.Waiting? && (s.caller.i >= s.workerCount || s.status[s.caller.i] != WORKING) ==>
      Measure(CallStep(s)) < Measure(s)
  {
    hide TasksOk, CellsOk, CounterOk;
    ThisThread(s, 0);
    var t := CallStep(s);
    match s.caller
    case Setting(i) =>
      var v: nat := if i < s.workerCount then i else 0;
      ThisThread(s, v);
      StagesUpdate(s.status, s.threads, v, t.status[v], t.threads[v]);
      assert t.status == s.status[v := t.status[v]] && t.threads == s.threads[v := t.threads[v]];
    case _ =>
  }

  /** During a call every effective step brings its end nearer, and there is one. */
  lemma JobProgress(n: nat, limit: nat, cells: seq<int>, schedule: seq<Action>)
    requires 1 <= limit <= n
    ensures var s := Run(Init(n, limit, cells), schedule);
      && (forall a: Action :: |Next(s, a).status| == |Next(s, a).threads|) && |s.status| == |s.threads|
      && (forall a: Action :: !a.Start? ==> Next(s, a) == s || Measure(Next(s, a)) < Measure(s))
      && (s.caller != Idle ==> exists a: Action :: !a.Start? && Measure(Next(s, a)) < Measure(s))
  {
    RunInv(n, limit, cells, schedule);
    var s := Run(Init(n, limit, cells), schedule);
    ThisThread(s, 0);
    forall a: Action
      ensures |Next(s, a).status| == |Next(s, a).threads|
      ensures !a.Start? ==> Next(s, a) == s || Measure(Next(s, a)) < Measure(s)
    {
      Approaches(s, a);
    }
    if s.caller != Idle { SomethingMoves(s); }
  }

  lemma Approaches(s: State, a: Action)
    requires Inv(s)
    ensures |s.status| == |s.threads| && |Next(s, a).status| == |Next(s, a).threads|
    ensures !a.Start? ==> Next(s, a) == s || Measure(Next(s, a)) < Measure(s)
  {
    ThisThread(s, 0);
    hide Inv, Measure;
    match a
    case Start(_) =>
    case Call => CallApproaches(s);
    case Step(w) => if w < |s.threads| { ThreadApproaches(s, w); }
  }

  lemma SomethingMoves(s: State)
    requires Inv(s) && s.caller != Idle
    ensures |s.status| == |s.threads|
    ensures exists a: Action ::
      !a.Start? && |Next(s, a).status| == |Next(s, a).threads| && Measure(Next(s, a)) < Measure(s)
  {
    ThisThread(s, 0);
    CallApproaches(s);
    match s.caller
    case Setting(_) => assert Next(s, Call) == CallStep(s);
    case Processing =>
      if s.threads[0] == Polling {
        assert Next(s, Call) == CallStep(s);
      } else {
        ThreadApproaches(s, 0);
        assert Next(s, Step(0)) == ThreadStep(s, 0);
      }
    case Waiting(i) =>
      if i >= s.workerCount || s.status[i] != WORKING {
        assert Next(s, Call) == CallStep(s);
      } else {
        ThisThread(s, i);
        ThreadApproaches(s, i);
        assert Next(s, Step(i)) == ThreadStep(s, i);
      }
  }
}
