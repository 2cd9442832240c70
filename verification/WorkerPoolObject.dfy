/** The pool as the object it is: each method is one atomic access of a thread
    or of the caller, updates the fields in place and equals its step. */
module WorkerPoolObject {
  import opened Segments
  import opened WorkerPool
  import opened WorkerPoolTheorems

  class InNumaPool {
    var limit: nat
    var workerCount: int
    var curr: int
    var end: int
    var job: Job
    var status: seq<Status>
    var threads: seq<Pc>
    var caller: Caller
    var cells: seq<int>
    ghost var h: History

    ghost function View(): State
      reads this
    {
      State(limit, workerCount, curr, end, job, status, threads, caller, cells, h)
    }

    ghost predicate Valid()
      reads this
    {
      Inv(View())
    }

    constructor (n: nat, count: nat, initial: seq<int>)
      requires 1 <= count <= n
      ensures Valid() && View() == Init(n, count, initial)
    {
      limit, workerCount, curr, end := count, 0, 0, 0;
      job := Init(0, 0, []).job;
      status, threads, caller, cells := Repeat(WAITING, n), Repeat(Polling, n), Idle, initial;
      h := Init(n, count, initial).h;
      new;
      InitOk(n, count, initial);
    }

    /** `do_work_stealing_job_async`: store the job while nobody reads it. */
    method StoreJob(j: Job)
      requires Valid() && caller == Idle
      modifies this
      ensures Valid() && View() == Next(old(View()), Start(j))
      ensures forall w :: 0 <= w < |threads| ==> threads[w] == Polling
    {
      forall w | 0 <= w < |threads| ensures threads[w] == Polling { IdleQuiet(View(), w); }
      hide Inv;
      StepKept(View(), Start(j));
      workerCount := if limit < j.tasks then limit else j.tasks;
      curr := 0;
      end := j.tasks;
      job := j;
      caller := Setting(0);
      h := StartStep(old(View()), j).h;
    }

    /** One step of the calling thread: release a worker, enter
        `process_tasks(0)`, or poll a status. */
    method Advance()
      requires Valid()
      modifies this
      ensures Valid() && View() == Next(old(View()), Call)
    {
      ThisThread(View(), 0);
      hide Inv;
      StepKept(View(), Call);
      match caller
      case Idle =>
      case Setting(i) =>
        if i < workerCount {
          if i < |status| {
            status := status[i := WORKING];
            caller := Setting(i + 1);
          }
        } else {
          threads := threads[0 := Initialising];
          caller := Processing;
        }
      case Processing => if threads[0] == Polling { caller := Waiting(0); }
      case Waiting(i) =>
        if i >= workerCount {
          caller := Idle;
        } else if i >= |status| || status[i] != WORKING {
          caller := Waiting(i + 1);
        }
    }

    /** `curr_.fetch_add(1)` and what the thread does with the number it got. */
    method ClaimTask(w: nat) returns (task: int)
      requires Valid() && w < |threads| && threads[w] == Claiming
      modifies this
      ensures Valid() && View() == Next(old(View()), Step(w))
      ensures task == old(curr) && curr == task + 1
      ensures 0 <= task < end ==> threads[w] == Computing(task)
      ensures task >= end ==> threads[w] == Finalizing
    {
      ThisThread(View(), w);
      hide Inv;
      StepKept(View(), Step(w));
      task := curr;
      curr := curr + 1;
      threads := threads[w := if task >= end then Finalizing else Computing(task)];
      h := Claim(old(View()), w).h;
    }

    /** `compute_func_(task)`, which changes that index's own cell. */
    method Compute(w: nat)
      requires Valid() && w < |threads| && threads[w].Computing?
      modifies this
      ensures Valid() && View() == Next(old(View()), Step(w))
    {
      hide Inv;
      StepKept(View(), Step(w));
      var t := threads[w].task;
      if t < |cells| { cells := cells[t := job.work(t, cells[t])]; }
      threads := threads[w := Loading];
      h := Computed(old(View()), w, t).h;
    }

    /** Every other step of a worker's loop and of `process_tasks`. */
    method Work(w: nat)
      requires Valid() && w < |threads| && threads[w] != Claiming && !threads[w].Computing?
      modifies this
      ensures Valid() && View() == Next(old(View()), Step(w))
    {
      ThisThread(View(), w);
      hide Inv;
      StepKept(View(), Step(w));
      match threads[w]
      case Polling => if w > 0 && status[w] == WORKING { threads := threads[w := Initialising]; }
      case Initialising =>
        threads := threads[w := Loading];
        h := ThreadStep(old(View()), w).h;
      case Loading => threads := threads[w := if end - curr <= 0 then Finalizing else Claiming];
      case Finalizing =>
        threads := threads[w := Storing];
        h := ThreadStep(old(View()), w).h;
      case Storing =>
        status := status[w := WAITING];
        threads := threads[w := Polling];
    }
  }

  /** The loop the pool stands for. */
  method SequentialLoop(job: Job, cells: seq<int>) returns (result: seq<int>)
    ensures result == Sequential(job, cells, AtLeastZero(job.tasks))
  {
    result := cells;
    for t := 0 to AtLeastZero(job.tasks)
      invariant result == Sequential(job, cells, t)
    {
      if t < |result| { result := result[t := job.work(t, result[t])]; }
    }
  }
}
