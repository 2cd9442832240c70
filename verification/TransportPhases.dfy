/** One job of the script after the other: opened, joined, produced, returned from. */
module TransportPhases {
  import opened TransportModel
  import opened TransportInvariant
  import opened TransportConsumer
  import opened TransportSafety
  import opened TransportTheorems
  import opened TransportProgress
  import opened TransportDiscipline
  import opened TransportClean
  import opened TransportLeaving
  import opened TransportEnding
  import opened TransportScript

  // --------------------------------------------------------- cells only grow

  /** A cell keeps its value or takes that of the active epoch, wait_returned that of the join. */
  predicate Grown(active: nat, rk: Rank, t: Rank) {
    && (t.join == rk.join || t.join == active)
    && (t.consumerDone == rk.consumerDone || t.consumerDone == active)
    && (t.waitReturned == rk.waitReturned || t.waitReturned == rk.join)
  }

  /** What the caller's place says of the epochs it is about to store. */
  lemma StoresActive(c: Config, p: Poison, sh: Shared, r: nat, rk: Rank)
    requires Before(c, p, sh, r, rk)
    ensures rk.caller.JStore? ==> rk.caller.epoch == sh.active || rk.caller.epoch == rk.join
    ensures rk.caller.WStore? ==> rk.caller.epoch == rk.join
  {
    hide SharedInv, Acked, Lockstep, Arguments, BytesAt, SeekAt, EpochAt, GenerationAt, SeenByOpener, CloseAt;
    hide LocalBytesAt, AckCounts, AckCells, SeenByProducer, Stream, Memory, History, SeenByScan, ShapeRank;
  }

  lemma JoinCells(p: Poison, sh: Shared, rk: Rank, o: Outcome)
    requires ShapeRank(rk)
    ensures var t := JoinStep(p, sh, rk, o).1;
            && t.consumerDone == rk.consumerDone && t.waitReturned == rk.waitReturned
            && (t.join == rk.join || (rk.caller.JStore? && t.join == rk.caller.epoch))
  {
    hide ShapeRank;
  }

  lemma WaitCells(p: Poison, sh: Shared, rk: Rank, o: Outcome)
    requires ShapeRank(rk)
    ensures var t := WaitStep(p, sh, rk, o).1;
            && t.consumerDone == rk.consumerDone && t.join == rk.join
            && (t.waitReturned == rk.waitReturned || (rk.caller.WStore? && t.waitReturned == rk.caller.epoch))
    ensures var t := CloseStep(p, sh, rk).1;
            t.consumerDone == rk.consumerDone && t.join == rk.join && t.waitReturned == rk.waitReturned
  {
    hide ShapeRank;
  }

  lemma CallerCells(c: Config, p: Poison, sh: Shared, r: nat, rk: Rank, o: Outcome)
    requires Before(c, p, sh, r, rk) && ShapeRank(rk)
    ensures Grown(sh.active, rk, CallerStep(p, sh, rk, o).1)
  {
    StoresActive(c, p, sh, r, rk);
    hide Before, JoinStep, WaitStep, CloseStep, ShapeRank;
    JoinCells(p, sh, rk, o);
    WaitCells(p, sh, rk, o);
  }

  lemma CallersGrow(c: Config, s: State, q: nat, r: nat, o: Outcome)
    requires Inv(c, s) && Shape(c, s) && q < c.tp && r < c.tp
    ensures Shape(c, Step(c, s, StepCaller(q, o)))
    ensures Grown(s.sh.active, s.ranks[r], Step(c, s, StepCaller(q, o)).ranks[r])
  {
    ShapeKept(c, s, StepCaller(q, o));
    assert RankInv(c, s.poison, s.sh, r, s.ranks[r]);
    hide SharedInv, RankInv, CallerStep, OpenerStep, ShapeRank;
    if q == r { CallerCells(c, s.poison, s.sh, r, s.ranks[r], o); }
  }

  lemma ConsumersGrow(c: Config, s: State, q: nat, r: nat, o: Outcome)
    requires Inv(c, s) && Shape(c, s) && q < c.tp && r < c.tp
    ensures Shape(c, Step(c, s, StepConsumer(q, o)))
    ensures Grown(s.sh.active, s.ranks[r], Step(c, s, StepConsumer(q, o)).ranks[r])
  {
    ShapeKept(c, s, StepConsumer(q, o));
    assert RankInv(c, s.poison, s.sh, r, s.ranks[r]);
    hide SharedInv, RankInv, ConsumerStep, ShapeShared, ShapeRank;
    if q == r { ConsumerCells(c, s.poison, s.sh, r, s.ranks[r], o); }
  }

  lemma OthersGrow(c: Config, s: State, r: nat, a: Action)
    requires Shape(c, s) && r < c.tp && !a.StepCaller? && !a.StepConsumer?
    ensures Shape(c, Step(c, s, a)) && Grown(s.sh.active, s.ranks[r], Step(c, s, a).ranks[r])
  {
    ShapeKept(c, s, a);
    hide ShapeRank, ProducerStep;
  }

  lemma CellsGrow(c: Config, s: State, r: nat, a: Action)
    requires Inv(c, s) && Shape(c, s) && r < c.tp
    ensures Shape(c, Step(c, s, a)) && Grown(s.sh.active, s.ranks[r], Step(c, s, a).ranks[r])
  {
    hide Inv, Step, ShapeRank;
    match a
    case StepCaller(q, o) => if q < c.tp { CallersGrow(c, s, q, r, o); } else { BeyondClean(c, s, a); }
    case StepConsumer(q, o) => if q < c.tp { ConsumersGrow(c, s, q, r, o); } else { BeyondClean(c, s, a); }
    case _ => OthersGrow(c, s, r, a);
  }

  /** In a first run the end announced is that of the active epoch. */
  lemma AnnouncesActive(c: Config, s: State)
    requires Inv(c, s) && !s.sh.rerun && s.sh.producer.PDone?
    ensures s.sh.producer.epoch == s.sh.active
  {
    hide RankInv, PublicationsShared, ReadyShared, ProducedShared, LogShared, CallAt, OpenerShared, EpochsShared;
    hide FillAt;
  }

  lemma LockstepAt(c: Config, s: State, r: nat)
    requires Inv(c, s) && r < c.tp
    ensures Lockstep(s.sh.previous, s.sh.active, s.sh.producerDone,
                     s.ranks[r].join, s.ranks[r].consumerDone, s.ranks[r].waitReturned)
    ensures if s.sh.active > 0 then s.sh.previous < s.sh.active else s.sh.previous == 0
    ensures s.sh.producerDone <= s.sh.active
  {
    assert RankInv(c, s.poison, s.sh, r, s.ranks[r]);
    hide PublicationsShared, ReadyShared, ProducedShared, CallAt, LogShared, RunAt, RerunAt, OpenerShared, FillAt;
    hide Acked, Arguments, BytesAt, SeekAt, EpochAt, GenerationAt, SeenByOpener, CloseAt, JoinAt, WaitAt;
    hide LocalBytesAt, AckCounts, AckCells, SeenByProducer, Stream, Memory, History, SeenByScan, ShapeRank;
  }

  // ------------------------------------------------------------------ a phase

  /** Everybody is through with epoch p and nothing newer is active. */
  predicate Through(s: State, p: nat) {
    && s.sh.active == p
    && forall r :: 0 <= r < |s.ranks| ==> s.ranks[r].waitReturned == p
  }

  /** The active epoch moves only when everybody is through with it, and to the next job. */
  lemma ActiveMoves(c: Config, script: seq<Job>, s: State, a: Action)
    requires Fine(c, script, s) && Step(c, s, a).sh.active != s.sh.active
    ensures Through(s, s.sh.active)
    ensures Fine(c, script, Step(c, s, a)) ==> Step(c, s, a).sh.previous == s.sh.active
  {
    PreviousIsPreceding(c, s, a);
    hide Inv, Step, ScriptInv, CleanState, AllPatient, ShapeRank, Reachable;
    forall r | 0 <= r < |s.ranks| ensures s.ranks[r].waitReturned == s.sh.active {
      StoresAfterReturns(c, s, r);
    }
  }

  /** What is active is the script's next job after what was active before. */
  lemma ActiveIsNext(c: Config, script: seq<Job>, s: State, job: Job)
    requires Fine(c, script, s) && s.sh.active > 0 && After(script, s.sh.previous, job)
    ensures s.sh.active == job.epoch
  {
    AfterIsUnique(c, script, s.sh.previous, job, Job(s.sh.active, s.sh.openLayer, s.sh.openCount));
  }

  lemma ThroughCells(c: Config, s: State, p: nat, r: nat)
    requires Inv(c, s) && Shape(c, s) && Through(s, p) && r < c.tp
    ensures s.ranks[r].join == s.ranks[r].consumerDone == s.ranks[r].waitReturned == s.sh.producerDone == p
  {
    LockstepAt(c, s, r);
    hide Inv, ShapeRank;
  }

  /** As long as the epoch stays active, what reached it stays there. */
  lemma CellsStay(c: Config, script: seq<Job>, s: State, a: Action, r: nat)
    requires Fine(c, script, s) && r < c.tp && Step(c, s, a).sh.active == s.sh.active
    ensures Shape(c, Step(c, s, a))
    ensures var rk, t := s.ranks[r], Step(c, s, a).ranks[r];
            && (rk.join == s.sh.active ==> t.join == s.sh.active)
            && (rk.consumerDone == s.sh.active ==> t.consumerDone == s.sh.active)
            && (rk.waitReturned == s.sh.active ==> t.waitReturned == s.sh.active)
    ensures s.sh.producerDone == s.sh.active ==> Step(c, s, a).sh.producerDone == s.sh.active
  {
    hide Inv, Step, ScriptInv, CleanState, AllPatient, ShapeRank, Reachable;
    CellsGrow(c, s, r, a);
    LockstepAt(c, s, r);
    OnlyDoneEnds(c, s, a);
    if s.sh.producer.PDone? { AnnouncesActive(c, s); }
  }

  // ---------------------------------------------------- rank zero opens the next

  predicate OpeningNext(s: State, p: nat) {
    Through(s, p) && |s.ranks| > 0 && s.ranks[0].caller.COpening?
  }

  function OpenWay(c: Config, o: Opener): nat {
    match o
    case ONone => 0
    case OActive(_, _, _) => 2 * c.tp + 6
    case OScan(_, _, _, k) => (if k < c.tp then c.tp - k else 0) + c.tp + 5
    case OGate(_, _, _) => c.tp + 5
    case OLayer(_, _, _) => c.tp + 4
    case OCount(_, _, _) => c.tp + 3
    case OBytes(_, _, _, k) => (if k < c.tp then c.tp - k else 0) + 1
    case OActivate(_, _, _) => 1
  }

  /** With everybody through, nothing holds rank zero up. */
  lemma OpenerTakes(c: Config, s: State)
    requires Shape(c, s) && s.poison.Healthy? && Through(s, s.sh.active) && !s.sh.opener.ONone?
    requires s.sh.opener.epoch > s.sh.active
    ensures var t := OpenerStep(c, s, Go).1;
            || t.active != s.sh.active
            || (t.active == s.sh.active && !t.opener.ONone? && OpenWay(c, t.opener) < OpenWay(c, s.sh.opener))
  {
    hide ShapeRank;
  }

  lemma OpenerNext(c: Config, script: seq<Job>, s: State)
    requires Fine(c, script, s) && |s.ranks| > 0 && s.ranks[0].caller.COpening?
    ensures !s.sh.opener.ONone? && s.sh.opener.epoch > s.sh.active
  {
    hide Inv, CleanState, AllPatient, Reachable, ShapeRank;
    OpenerInCall(c, s);
    var job := Job(s.sh.opener.epoch, s.sh.opener.layer, s.sh.opener.count);
    AfterIsUnique(c, script, s.sh.active, job, job);
  }

  lemma OwnOpening(c: Config, script: seq<Job>, s: State, a: Action)
    requires Fine(c, script, s) && OpeningNext(s, s.sh.active) && OwnStep(a, CallerOf(0)) && CleanAction(a)
    ensures Shape(c, Step(c, s, a))
    ensures var t := Step(c, s, a);
            || t.sh.active != s.sh.active
            || (t.ranks[0].caller.COpening? && OpenWay(c, t.sh.opener) < OpenWay(c, s.sh.opener))
  {
    ShapeKept(c, s, a);
    OpenerNext(c, script, s);
    FineHealthy(c, script, s);
    hide Fine, ShapeRank, OpenerStep, OpenWay;
    OpenerTakes(c, s);
  }

  lemma FineHealthy(c: Config, script: seq<Job>, s: State)
    requires Fine(c, script, s)
    ensures s.poison.Healthy? && ValidConfig(c) && ValidScript(c, script) && !s.sh.rerun && Shape(c, s) && Inv(c, s)
    ensures |s.ranks| == c.tp > 0
    ensures !s.sh.producer.PCatch? && forall r :: 0 <= r < c.tp ==> CleanRank(s.ranks[r]) && PatientRank(s.ranks[r])
  {
    hide Inv, ScriptInv, Reachable, ShapeRank, CleanRank, PatientRank;
  }

  lemma ThroughStays(c: Config, script: seq<Job>, s: State, a: Action)
    requires Fine(c, script, s) && Through(s, s.sh.active) && Step(c, s, a).sh.active == s.sh.active
    ensures Through(Step(c, s, a), s.sh.active)
  {
    FineHealthy(c, script, s);
    ShapeKept(c, s, a);
    hide Fine, Step, ShapeRank;
    var t := Step(c, s, a);
    forall r | 0 <= r < |t.ranks| ensures t.ranks[r].waitReturned == s.sh.active {
      CellsStay(c, script, s, a, r);
    }
  }

  lemma OpeningAdvances(c: Config, script: seq<Job>, s: State, a: Action)
    requires Fine(c, script, s) && Proper(c, script, s, a) && OpeningNext(s, s.sh.active)
    ensures var t := Step(c, s, a);
            || t.sh.active != s.sh.active
            || (&& OpeningNext(t, s.sh.active) && OpenWay(c, t.sh.opener) <= OpenWay(c, s.sh.opener)
                && (OwnStep(a, CallerOf(0)) ==> OpenWay(c, t.sh.opener) < OpenWay(c, s.sh.opener)))
  {
    FineHealthy(c, script, s);
    ShapeKept(c, s, a);
    hide Fine, Inv, Step, ShapeRank, OpenWay, Disciplined, Patient, Through;
    var t := Step(c, s, a);
    if t.sh.active == s.sh.active {
      ThroughStays(c, script, s, a);
      if OwnStep(a, CallerOf(0)) { OwnOpening(c, script, s, a); } else { OthersKeep(c, s, CallerOf(0), a); }
    }
  }

  /** The first move away from p goes to the script's next job. */
  lemma Moved(c: Config, script: seq<Job>, sigma: nat -> State, sched: nat -> Action, p: nat, job: Job, i: nat, j: nat)
    returns (n: nat)
    requires Whole(c, script, sigma, sched) && After(script, p, job)
    requires i <= j && Through(sigma(i), p) && sigma(j).sh.active != p
    ensures i < n <= j && sigma(n).sh.active == job.epoch > 0 && sigma(n).sh.previous == p
    decreases j - i
  {
    hide Whole, Fine, Step, Shape;
    StaysFine(c, script, sigma, sched, i);
    FineHealthy(c, script, sigma(i));
    if sigma(i + 1).sh.active != p {
      MovedHere(c, script, sigma(i), sched(i), job);
      return i + 1;
    }
    ThroughStays(c, script, sigma(i), sched(i));
    n := Moved(c, script, sigma, sched, p, job, i + 1, j);
  }

  lemma MovedHere(c: Config, script: seq<Job>, s: State, a: Action, job: Job)
    requires Fine(c, script, s) && Fine(c, script, Step(c, s, a)) && After(script, s.sh.active, job)
    requires Step(c, s, a).sh.active != s.sh.active
    ensures Step(c, s, a).sh.active == job.epoch > 0 && Step(c, s, a).sh.previous == s.sh.active
  {
    var t := Step(c, s, a);
    ActiveMoves(c, script, s, a);
    FineHealthy(c, script, t);
    hide Fine, Step;
    LockstepAt(c, t, 0);
    ActiveIsNext(c, script, t, job);
  }

  /** Until the epoch moves, everybody stays through with it. */
  lemma ThroughUntil(c: Config, script: seq<Job>, sigma: nat -> State, sched: nat -> Action, p: nat, i: nat, j: nat)
    returns (moved: bool, n: nat)
    requires Whole(c, script, sigma, sched) && i <= j && Through(sigma(i), p)
    ensures moved ==> i <= n <= j && sigma(n).sh.active != p
    ensures !moved ==> Through(sigma(j), p)
    decreases j - i
  {
    hide Whole, Fine, Step, Shape;
    if i == j { return false, i; }
    StaysFine(c, script, sigma, sched, i);
    FineHealthy(c, script, sigma(i));
    if sigma(i + 1).sh.active != p { return true, i + 1; }
    ThroughStays(c, script, sigma(i), sched(i));
    moved, n := ThroughUntil(c, script, sigma, sched, p, i + 1, j);
  }

  function IsOpening(p: nat): State -> bool { (s: State) => OpeningNext(s, p) }

  function HasMoved(p: nat): State -> bool { (s: State) => s.sh.active != p }

  function OpeningLength(c: Config): State -> nat { (s: State) => OpenWay(c, s.sh.opener) }

  lemma OpeningAdvancesAt(c: Config, script: seq<Job>, sigma: nat -> State, sched: nat -> Action, p: nat, j: nat)
    requires Whole(c, script, sigma, sched)
    ensures Advances(sigma, sched, CallerOf(0), IsOpening(p), HasMoved(p), OpeningLength(c), j)
  {
    hide Whole, Fine, Step, Shape, OpenWay, OpeningNext, Proper;
    StaysFine(c, script, sigma, sched, j);
    if OpeningNext(sigma(j), p) {
      OpeningIs(sigma(j), p);
      OpeningAdvances(c, script, sigma(j), sched(j));
    }
  }

  /** Rank zero, once in `join`, activates. */
  lemma OpeningLeads(c: Config, script: seq<Job>, sigma: nat -> State, sched: nat -> Action, p: nat, i: nat)
    returns (n: nat)
    requires Whole(c, script, sigma, sched) && OpeningNext(sigma(i), p)
    ensures i <= n && sigma(n).sh.active != p
  {
    hide Whole, Advances, OpenWay, OpeningNext;
    TurnsFor(c, script, sigma, sched, 0);
    forall j: nat | i <= j
      ensures Advances(sigma, sched, CallerOf(0), IsOpening(p), HasMoved(p), OpeningLength(c), j)
    {
      OpeningAdvancesAt(c, script, sigma, sched, p, j);
    }
    n := LeadsTo(sigma, sched, CallerOf(0), IsOpening(p), HasMoved(p), OpeningLength(c), i);
  }

  lemma OpeningIs(s: State, p: nat)
    requires OpeningNext(s, p)
    ensures s.sh.active == p
  {
  }

  lemma TurnsFor(c: Config, script: seq<Job>, sigma: nat -> State, sched: nat -> Action, r: nat)
    requires Whole(c, script, sigma, sched)
    ensures ValidConfig(c) && (r < c.tp ==> TurnsOf(sched, CallerOf(r))) && c.tp > 0
  {
    hide Execution, Fair, CleanExecution, Eager, Patient;
  }

  /** An idle rank zero that calls `join` is in it. */
  lemma JoinOpens(c: Config, script: seq<Job>, s: State, job: Job)
    requires Fine(c, script, s) && Through(s, s.sh.active) && After(script, s.sh.active, job)
    requires s.ranks[0].caller.CIdle?
    ensures OpeningNext(Step(c, s, CallJoin(0, job.epoch, job.layer, job.count)), s.sh.active)
  {
    FineHealthy(c, script, s);
    JobIsValid(c, script, s.sh.active, job, 0);
    hide Fine, ShapeRank, CleanState;
    assert CleanRank(s.ranks[0]);
  }

  lemma JobIsValid(c: Config, script: seq<Job>, p: nat, job: Job, r: nat)
    requires ValidConfig(c) && ValidScript(c, script) && After(script, p, job) && r < c.tp
    ensures ValidCall(c, r, job.epoch, job.layer, job.count) && job.epoch > p
  {
    AfterIsUnique(c, script, p, job, job);
  }

  /** Eagerness, for one rank between two jobs. */
  lemma NextJoin(c: Config, script: seq<Job>, sigma: nat -> State, sched: nat -> Action, r: nat, job: Job, i: nat)
    returns (j: nat)
    requires Whole(c, script, sigma, sched) && r < c.tp && r < |sigma(i).ranks|
    requires sigma(i).ranks[r].caller.CIdle? && sigma(i).ranks[r].waitReturned == sigma(i).ranks[r].join
    requires After(script, sigma(i).ranks[r].join, job)
    ensures i <= j && r < |sigma(j).ranks| && JoinsAt(sigma, sched, r, job, i, j)
  {
    hide After, Fair, CleanExecution, Patient, Reachable, Step, ShapeRank;
    j :| i <= j && JoinsAt(sigma, sched, r, job, i, j);
  }

  lemma NextWait(c: Config, script: seq<Job>, sigma: nat -> State, sched: nat -> Action, r: nat, i: nat)
    returns (j: nat)
    requires Whole(c, script, sigma, sched) && r < c.tp && r < |sigma(i).ranks|
    requires sigma(i).ranks[r].caller.CIdle? && sigma(i).ranks[r].waitReturned < sigma(i).ranks[r].join
    ensures i <= j && r < |sigma(j).ranks| && WaitsAt(sigma, sched, r, i, j)
  {
    hide After, Fair, CleanExecution, Patient, Reachable, Step, ShapeRank;
    j :| i <= j && WaitsAt(sigma, sched, r, i, j);
  }

  lemma NextProduce(c: Config, script: seq<Job>, sigma: nat -> State, sched: nat -> Action, i: nat) returns (j: nat)
    requires Whole(c, script, sigma, sched) && |sigma(i).ranks| > 0 && sigma(i).sh.producer.PIdle?
    requires sigma(i).ranks[0].join == sigma(i).sh.active && sigma(i).sh.producerDone < sigma(i).sh.active
    ensures i <= j && ProducesAt(sigma, sched, j)
  {
    hide After, Fair, CleanExecution, Patient, Reachable, Step, ShapeRank;
    j :| i <= j && ProducesAt(sigma, sched, j);
  }

  // ------------------------------------------------------------ an active epoch

  /** Epoch e is active from i on, after p. */
  ghost predicate Lasting(sigma: nat -> State, p: nat, e: nat, i: nat) {
    p < e && forall n: nat :: i <= n ==> sigma(n).sh.active == e && sigma(n).sh.previous == p
  }

  lemma LastingLater(sigma: nat -> State, p: nat, e: nat, i: nat, j: nat)
    requires Lasting(sigma, p, e, i) && i <= j
    ensures Lasting(sigma, p, e, j)
  {
  }

  /** Unless everybody gets through with it, the epoch lasts. */
  lemma {:induction false} ActiveStays(c: Config, script: seq<Job>, sigma: nat -> State, sched: nat -> Action,
                                       p: nat, e: nat, i: nat, n: nat)
    requires Whole(c, script, sigma, sched) && i <= n && sigma(i).sh.active == e && sigma(i).sh.previous == p
    requires forall j: nat :: i <= j ==> !Through(sigma(j), e)
    ensures sigma(n).sh.active == e && sigma(n).sh.previous == p
    decreases n - i
  {
    hide Whole, Fine, Step, Shape, Through;
    if i < n {
      var k: nat := n - 1;
      ActiveStays(c, script, sigma, sched, p, e, i, k);
      StaysFine(c, script, sigma, sched, k);
      FineHealthy(c, script, sigma(k));
      PreviousIsPreceding(c, sigma(k), sched(k));
      if sigma(n).sh.active != e { ActiveMoves(c, script, sigma(k), sched(k)); }
      PreviousKept(c, sigma(k), sched(k));
    }
  }

  /** The epoch before changes with the active one only. */
  lemma PreviousKept(c: Config, s: State, a: Action)
    requires Inv(c, s) && Shape(c, s)
    ensures Step(c, s, a).sh.active == s.sh.active ==> Step(c, s, a).sh.previous == s.sh.previous
  {
    PreviousIsPreceding(c, s, a);
    if s.sh.opener.OActivate? { ActivatesLarger(c, s); }
    hide Inv, Step, ShapeRank;
  }

  lemma ActivatesLarger(c: Config, s: State)
    requires Inv(c, s) && s.sh.opener.OActivate?
    ensures s.sh.opener.epoch > s.sh.active
  {
    hide RankInv, PublicationsShared, ReadyShared, ProducedShared, CallAt, LogShared, RunAt, RerunAt, EpochsShared;
    hide FillAt;
  }

  /** What one rank reached in a lasting epoch it keeps. */
  lemma {:induction false} ReachedStays(c: Config, script: seq<Job>, sigma: nat -> State, sched: nat -> Action,
                                        p: nat, e: nat, r: nat, i: nat, n: nat)
    requires Whole(c, script, sigma, sched) && Lasting(sigma, p, e, i) && i <= n
    ensures r < c.tp && r < |sigma(i).ranks| ==>
      && r < |sigma(n).ranks|
      && (sigma(i).ranks[r].join == e ==> sigma(n).ranks[r].join == e)
      && (sigma(i).ranks[r].consumerDone == e ==> sigma(n).ranks[r].consumerDone == e)
      && (sigma(i).ranks[r].waitReturned == e ==> sigma(n).ranks[r].waitReturned == e)
    ensures c.tp > 0 && sigma(i).sh.producerDone == e ==> sigma(n).sh.producerDone == e
    decreases n - i
  {
    hide Whole, Fine, Step, Inv;
    if i < n {
      var k: nat := n - 1;
      ReachedStays(c, script, sigma, sched, p, e, r, i, k);
      StaysFine(c, script, sigma, sched, k);
      FineHealthy(c, script, sigma(k));
      if r < c.tp { CellsStay(c, script, sigma(k), sched(k), r); }
      if c.tp > 0 { CellsStay(c, script, sigma(k), sched(k), 0); }
      StaysFine(c, script, sigma, sched, i);
      FineHealthy(c, script, sigma(i));
    }
  }
}
