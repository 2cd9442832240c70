/** An active epoch is joined by all, produced, and returned from by all; so the script ends. */
module TransportCompletes {
  import opened TransportModel
  import opened TransportInvariant
  import opened TransportTheorems
  import opened TransportProgress
  import opened TransportDiscipline
  import opened TransportClean
  import opened TransportLeaving
  import opened TransportEnding
  import opened TransportScript
  import opened TransportPhases
  import opened TransportReturns

  // ------------------------------------------------------------ every rank joins

  function JoinWay(k: Caller): nat {
    match k
    case JWait(_, _, _) => 4
    case JGate(_, _, _) => 3
    case JLayer(_, _, _) => 2
    case JCount(_, _, _) => 1
    case _ => 0
  }

  predicate JoiningActive(s: State, r: nat, e: nat) {
    && s.sh.active == e && r < |s.ranks|
    && InJoin(s.ranks[r].caller) && s.ranks[r].caller.epoch == e && s.ranks[r].join != e
  }

  predicate HasJoined(s: State, r: nat, e: nat) { r < |s.ranks| && s.ranks[r].join == e }

  /** Joining the active epoch, a rank is not held up: a refusal would be a protocol error. */
  lemma JoinTakes(sh: Shared, rk: Rank)
    requires ShapeRank(rk) && InJoin(rk.caller) && rk.caller.epoch == sh.active
    ensures var (p, t) := CallerStep(Healthy, sh, rk, Go);
            p.Healthy? ==>
              || t.join == sh.active
              || (InJoin(t.caller) && t.caller.epoch == sh.active && JoinWay(t.caller) < JoinWay(rk.caller))
  {
    hide WaitStep, CloseStep, ShapeRank;
  }

  lemma OwnJoining(c: Config, script: seq<Job>, s: State, a: Action, r: nat)
    requires Fine(c, script, s) && Fine(c, script, Step(c, s, a)) && r < c.tp
    requires OwnStep(a, CallerOf(r)) && CleanAction(a) && JoiningActive(s, r, s.sh.active)
    ensures var t := Step(c, s, a);
            && t.sh.active == s.sh.active && |t.ranks| == |s.ranks|
            && (|| t.ranks[r].join == s.sh.active
                || (&& InJoin(t.ranks[r].caller) && t.ranks[r].caller.epoch == s.sh.active
                    && JoinWay(t.ranks[r].caller) < JoinWay(s.ranks[r].caller)))
  {
    FineHealthy(c, script, s);
    FineHealthy(c, script, Step(c, s, a));
    hide Fine, Inv, CallerStep, ShapeRank, JoinWay;
    JoinTakes(s.sh, s.ranks[r]);
  }

  lemma JoiningAdvances(c: Config, script: seq<Job>, s: State, a: Action, r: nat, e: nat)
    requires Fine(c, script, s) && Fine(c, script, Step(c, s, a)) && Proper(c, script, s, a) && r < c.tp
    requires JoiningActive(s, r, e) && Step(c, s, a).sh.active == e
    ensures var t := Step(c, s, a);
            || HasJoined(t, r, e)
            || (&& JoiningActive(t, r, e) && JoinWay(t.ranks[r].caller) <= JoinWay(s.ranks[r].caller)
                && (OwnStep(a, CallerOf(r)) ==> JoinWay(t.ranks[r].caller) < JoinWay(s.ranks[r].caller)))
  {
    FineHealthy(c, script, s);
    ShapeKept(c, s, a);
    hide Fine, Inv, Step, ShapeRank, JoinWay, Disciplined, Patient;
    if OwnStep(a, CallerOf(r)) { OwnJoining(c, script, s, a, r); } else { OthersKeep(c, s, CallerOf(r), a); }
  }

  function IsJoining(r: nat, e: nat): State -> bool { (s: State) => JoiningActive(s, r, e) }

  function Joined(r: nat, e: nat): State -> bool { (s: State) => HasJoined(s, r, e) }

  function JoinLength(r: nat): State -> nat {
    (s: State) => if r < |s.ranks| then JoinWay(s.ranks[r].caller) else 0
  }

  lemma JoiningAdvancesAt(c: Config, script: seq<Job>, sigma: nat -> State, sched: nat -> Action,
                          p: nat, e: nat, r: nat, i: nat, j: nat)
    requires Whole(c, script, sigma, sched) && Lasting(sigma, p, e, i) && i <= j && r < c.tp
    ensures Advances(sigma, sched, CallerOf(r), IsJoining(r, e), Joined(r, e), JoinLength(r), j)
  {
    hide Whole, Fine, Step, Shape, JoinWay, JoiningActive, HasJoined, Proper;
    StaysFine(c, script, sigma, sched, j);
    if JoiningActive(sigma(j), r, e) {
      JoiningAdvances(c, script, sigma(j), sched(j), r, e);
      InRange(sigma(j), sigma(j + 1), r, e);
    }
  }

  lemma InRange(s: State, t: State, r: nat, e: nat)
    requires JoiningActive(s, r, e)
    ensures r < |s.ranks| && (JoiningActive(t, r, e) || HasJoined(t, r, e) ==> r < |t.ranks|)
  {
  }

  lemma JoiningLeads(c: Config, script: seq<Job>, sigma: nat -> State, sched: nat -> Action,
                     p: nat, e: nat, r: nat, i: nat) returns (n: nat)
    requires Whole(c, script, sigma, sched) && Lasting(sigma, p, e, i) && r < c.tp && JoiningActive(sigma(i), r, e)
    ensures i <= n && HasJoined(sigma(n), r, e)
  {
    hide Whole, Advances, JoinWay, JoiningActive, HasJoined, Lasting;
    TurnsFor(c, script, sigma, sched, r);
    forall j: nat | i <= j
      ensures Advances(sigma, sched, CallerOf(r), IsJoining(r, e), Joined(r, e), JoinLength(r), j)
    {
      JoiningAdvancesAt(c, script, sigma, sched, p, e, r, i, j);
    }
    n := LeadsTo(sigma, sched, CallerOf(r), IsJoining(r, e), Joined(r, e), JoinLength(r), i);
  }

  /** A rank in `join` that has not stored its cell is joining the active epoch. */
  lemma InJoinIsActive(c: Config, script: seq<Job>, s: State, r: nat)
    requires Fine(c, script, s) && r < c.tp && s.ranks[r].join != s.sh.active && s.sh.active > 0
    ensures InJoin(s.ranks[r].caller) ==> s.ranks[r].caller.epoch == s.sh.active
    ensures r == 0 ==> InJoin(s.ranks[r].caller)
  {
    LockstepAt(c, s, r);
    assert ScriptRank(script, s.sh, r, s.ranks[r]);
    hide Inv, CleanState, AllPatient, Reachable, ShapeRank;
    var k := s.ranks[r].caller;
    if InJoin(k) && r != 0 { ActiveIsNext(c, script, s, Job(k.epoch, k.layer, k.count)); }
  }

  /** An idle rank that calls `join` for the active epoch is in it. */
  lemma JoinEnters(c: Config, script: seq<Job>, s: State, r: nat, p: nat, job: Job)
    requires Fine(c, script, s) && 0 < r < c.tp && s.ranks[r].caller.CIdle? && s.ranks[r].join != s.sh.active
    requires After(script, p, job) && job.epoch == s.sh.active
    ensures JoiningActive(Step(c, s, CallJoin(r, job.epoch, job.layer, job.count)), r, s.sh.active)
  {
    FineHealthy(c, script, s);
    JobIsValid(c, script, p, job, r);
    hide Fine, ShapeRank, CleanState, Inv;
    assert CleanRank(s.ranks[r]);
  }

  /** In a lasting epoch every rank joins. */
  lemma Joins(c: Config, script: seq<Job>, sigma: nat -> State, sched: nat -> Action,
              p: nat, job: Job, r: nat, i: nat) returns (n: nat)
    requires Whole(c, script, sigma, sched) && Lasting(sigma, p, job.epoch, i) && r < c.tp && After(script, p, job)
    ensures i <= n && HasJoined(sigma(n), r, job.epoch)
  {
    hide Whole, Fine, Step, Shape, Inv, After;
    var e := job.epoch;
    StaysFine(c, script, sigma, sched, i);
    FineHealthy(c, script, sigma(i));
    if sigma(i).ranks[r].join == e { return i; }
    InJoinIsActive(c, script, sigma(i), r);
    if InJoin(sigma(i).ranks[r].caller) {
      n := JoiningLeads(c, script, sigma, sched, p, e, r, i);
      return;
    }
    LockstepAt(c, sigma(i), r);
    CallerPlace(c, script, sigma(i), r);
    var back := i;
    if Waiting(sigma(i).ranks[r].caller) {
      WaitsForJoined(c, sigma(i), r);
      back := LeavingLeads(c, script, sigma, sched, sigma(i).ranks[r].join, r, i);
    }
    LastingLater(sigma, p, e, i, back);
    n := JoinsFromIdle(c, script, sigma, sched, p, job, r, back);
  }

  lemma JoinsFromIdle(c: Config, script: seq<Job>, sigma: nat -> State, sched: nat -> Action,
                      p: nat, job: Job, r: nat, i: nat) returns (n: nat)
    requires Whole(c, script, sigma, sched) && Lasting(sigma, p, job.epoch, i) && r < c.tp && After(script, p, job)
    requires r < |sigma(i).ranks| && sigma(i).ranks[r].caller.CIdle?
    ensures i <= n && HasJoined(sigma(n), r, job.epoch)
  {
    hide Whole, Fine, Step, Shape, Inv, After;
    var e := job.epoch;
    StaysFine(c, script, sigma, sched, i);
    FineHealthy(c, script, sigma(i));
    LockstepAt(c, sigma(i), r);
    if sigma(i).ranks[r].join == e { return i; }
    InJoinIsActive(c, script, sigma(i), r);
    var j := NextJoin(c, script, sigma, sched, r, job, i);
    StaysFine(c, script, sigma, sched, j);
    FineHealthy(c, script, sigma(j));
    LockstepAt(c, sigma(j), r);
    if sigma(j).ranks[r].join == e { return j; }
    JoinEnters(c, script, sigma(j), r, p, job);
    LastingLater(sigma, p, e, i, j + 1);
    n := JoiningLeads(c, script, sigma, sched, p, e, r, j + 1);
  }

  /** The first m ranks have joined together. */
  lemma AllJoin(c: Config, script: seq<Job>, sigma: nat -> State, sched: nat -> Action,
                p: nat, job: Job, m: nat, i: nat) returns (n: nat)
    requires Whole(c, script, sigma, sched) && Lasting(sigma, p, job.epoch, i) && m <= c.tp && After(script, p, job)
    ensures i <= n && |sigma(n).ranks| == c.tp && forall r :: 0 <= r < m ==> sigma(n).ranks[r].join == job.epoch
    decreases m
  {
    hide Whole, Fine, Step, Inv, After, Lasting;
    if m == 0 {
      StaysFine(c, script, sigma, sched, i);
      FineHealthy(c, script, sigma(i));
      return i;
    }
    var k := AllJoin(c, script, sigma, sched, p, job, m - 1, i);
    LastingLater(sigma, p, job.epoch, i, k);
    n := Joins(c, script, sigma, sched, p, job, m - 1, k);
    StaysFine(c, script, sigma, sched, n);
    FineHealthy(c, script, sigma(n));
    forall r: nat | r < m - 1 ensures sigma(n).ranks[r].join == job.epoch {
      ReachedStays(c, script, sigma, sched, p, job.epoch, r, k, n);
    }
  }

  // ------------------------------------------------------- the epoch is produced

  predicate AllJoined(s: State, e: nat) {
    s.sh.active == e > 0 && forall r :: 0 <= r < |s.ranks| ==> s.ranks[r].join == e
  }

  /** The producer is at the checks of its call for e, and every rank has joined e. */
  predicate Checking(s: State, e: nat) {
    var p := s.sh.producer;
    AllJoined(s, e) && (p.PActive? || p.PLayer? || p.PCount? || p.PJoined?) && p.epoch == e
  }

  function CheckWay(p: Producer): nat {
    match p
    case PActive(_, _, _) => 3
    case PLayer(_, _, _) => 2
    case PCount(_, _) => 1
    case _ => 0
  }

  /** A check that fails would be a protocol error. */
  lemma CheckTakes(c: Config, s: State)
    requires Shape(c, s) && s.poison.Healthy? && Checking(s, s.sh.active)
    ensures var (q, t) := CallStep(c, s, Go);
            q.Healthy? ==>
              && t.active == s.sh.active && Calling(t.producer) && t.producer.epoch == s.sh.active
              && (t.producer.PScan? || (!t.producer.PGate? && CheckWay(t.producer) < CheckWay(s.sh.producer)))
  {
    hide ShapeRank;
  }

  lemma OwnChecking(c: Config, script: seq<Job>, s: State, a: Action)
    requires Fine(c, script, s) && Fine(c, script, Step(c, s, a))
    requires OwnStep(a, TheWriter) && CleanAction(a) && Checking(s, s.sh.active)
    ensures var t := Step(c, s, a);
            || UnderWay(t)
            || (Checking(t, s.sh.active) && CheckWay(t.sh.producer) < CheckWay(s.sh.producer))
  {
    FineHealthy(c, script, s);
    FineHealthy(c, script, Step(c, s, a));
    hide Fine, Inv, CallStep, ExpertStep, DrainStep, ShapeRank, CheckWay;
    CheckTakes(c, s);
  }

  lemma AllJoinedStays(c: Config, script: seq<Job>, s: State, a: Action)
    requires Fine(c, script, s) && AllJoined(s, s.sh.active) && Step(c, s, a).sh.active == s.sh.active
    ensures AllJoined(Step(c, s, a), s.sh.active)
  {
    FineHealthy(c, script, s);
    ShapeKept(c, s, a);
    hide Fine, Step, ShapeRank;
    var t := Step(c, s, a);
    forall r | 0 <= r < |t.ranks| ensures t.ranks[r].join == s.sh.active {
      CellsStay(c, script, s, a, r);
    }
  }

  lemma CheckingAdvances(c: Config, script: seq<Job>, s: State, a: Action, e: nat)
    requires Fine(c, script, s) && Fine(c, script, Step(c, s, a)) && Proper(c, script, s, a)
    requires Checking(s, e) && Step(c, s, a).sh.active == e
    ensures var t := Step(c, s, a);
            || UnderWay(t)
            || (&& Checking(t, e) && CheckWay(t.sh.producer) <= CheckWay(s.sh.producer)
                && (OwnStep(a, TheWriter) ==> CheckWay(t.sh.producer) < CheckWay(s.sh.producer)))
  {
    FineHealthy(c, script, s);
    ShapeKept(c, s, a);
    hide Fine, Inv, Step, ShapeRank, CheckWay, Disciplined, Patient, AllJoined, UnderWay;
    CheckingIs(s, e);
    if OwnStep(a, TheWriter) {
      OwnChecking(c, script, s, a);
    } else {
      AllJoinedStays(c, script, s, a);
      OthersKeep(c, s, TheWriter, a);
    }
  }

  lemma CheckingIs(s: State, e: nat)
    requires Checking(s, e)
    ensures s.sh.active == e > 0
  {
  }

  function IsChecking(e: nat): State -> bool { (s: State) => Checking(s, e) }

  function IsUnderWay(): State -> bool { (s: State) => UnderWay(s) }

  function CheckLength(): State -> nat { (s: State) => CheckWay(s.sh.producer) }

  lemma CheckingAdvancesAt(c: Config, script: seq<Job>, sigma: nat -> State, sched: nat -> Action,
                           p: nat, e: nat, i: nat, j: nat)
    requires Whole(c, script, sigma, sched) && Lasting(sigma, p, e, i) && i <= j
    ensures Advances(sigma, sched, TheWriter, IsChecking(e), IsUnderWay(), CheckLength(), j)
  {
    hide Whole, Fine, Step, Shape, CheckWay, Checking, UnderWay, Proper;
    StaysFine(c, script, sigma, sched, j);
    if Checking(sigma(j), e) { CheckingAdvances(c, script, sigma(j), sched(j), e); }
  }

  lemma WriterTurns(c: Config, script: seq<Job>, sigma: nat -> State, sched: nat -> Action)
    requires Whole(c, script, sigma, sched)
    ensures TurnsOf(sched, TheWriter)
  {
    hide Execution, CleanExecution, Eager, Patient;
    forall i: nat ensures NextTurn(sched, TheWriter, i) {
      assert ValidAgent(c, TheProducer) && TurnFrom(sched, TheProducer, i);
    }
  }

  lemma CheckingLeads(c: Config, script: seq<Job>, sigma: nat -> State, sched: nat -> Action, p: nat, e: nat, i: nat)
    returns (n: nat)
    requires Whole(c, script, sigma, sched) && Lasting(sigma, p, e, i) && Checking(sigma(i), e)
    ensures i <= n && UnderWay(sigma(n))
  {
    hide Whole, Advances, CheckWay, Checking, UnderWay, Lasting;
    WriterTurns(c, script, sigma, sched);
    forall j: nat | i <= j
      ensures Advances(sigma, sched, TheWriter, IsChecking(e), IsUnderWay(), CheckLength(), j)
    {
      CheckingAdvancesAt(c, script, sigma, sched, p, e, i, j);
    }
    n := LeadsTo(sigma, sched, TheWriter, IsChecking(e), IsUnderWay(), CheckLength(), i);
  }

  /** With all joined, a producer in a call is at its checks or the epoch is under way. */
  lemma InCallOrUnderWay(c: Config, script: seq<Job>, s: State)
    requires Fine(c, script, s) && AllJoined(s, s.sh.active) && !s.sh.producer.PIdle?
    ensures UnderWay(s) || Checking(s, s.sh.active)
  {
    FineHealthy(c, script, s);
    if InRun(s.sh.producer) { RunIsActive(c, s); }
    hide Inv, CleanState, AllPatient, Reachable, ShapeRank, After;
  }

  lemma RunIsActive(c: Config, s: State)
    requires Inv(c, s) && !s.sh.rerun && InRun(s.sh.producer)
    ensures s.sh.log.epoch == s.sh.active
  {
    hide RankInv, PublicationsShared, ReadyShared, ProducedShared, CallAt, LogShared, RerunAt, OpenerShared, FillAt;
  }

  lemma NotProduced(c: Config, s: State)
    requires Inv(c, s) && s.sh.active > 0 && s.sh.log.epoch != s.sh.active
    ensures s.sh.producerDone < s.sh.active
  {
    hide RankInv, PublicationsShared, ReadyShared, ProducedShared, CallAt, RunAt, RerunAt, OpenerShared, FillAt;
  }

  /** A call for the active epoch gets in. */
  lemma ProduceEnters(c: Config, script: seq<Job>, s: State, a: Action)
    requires Fine(c, script, s) && AllJoined(s, s.sh.active) && s.sh.producer.PIdle?
    requires a.CallProduce? && Disciplined(c, script, s, a)
    ensures Checking(Step(c, s, a), s.sh.active)
  {
    FineHealthy(c, script, s);
    ActiveIsValid(c, script, s);
    hide Fine, Inv, ShapeRank;
    assert CleanRank(s.ranks[0]);
  }

  lemma ActiveIsValid(c: Config, script: seq<Job>, s: State)
    requires Fine(c, script, s) && s.sh.active > 0
    ensures c.tp > 0 && ValidCall(c, 0, s.sh.active, s.sh.openLayer, s.sh.openCount)
  {
    JobIsValid(c, script, s.sh.previous, Job(s.sh.active, s.sh.openLayer, s.sh.openCount), 0);
  }

  lemma {:induction false} AllJoinedFrom(c: Config, script: seq<Job>, sigma: nat -> State, sched: nat -> Action,
                                         p: nat, e: nat, i: nat, n: nat)
    requires Whole(c, script, sigma, sched) && Lasting(sigma, p, e, i) && i <= n && AllJoined(sigma(i), e)
    ensures AllJoined(sigma(n), e)
    decreases n - i
  {
    hide Whole, Fine, Step, Inv, AllJoined;
    if i < n {
      var k: nat := n - 1;
      AllJoinedFrom(c, script, sigma, sched, p, e, i, k);
      StaysFine(c, script, sigma, sched, k);
      AllJoinedStays(c, script, sigma(k), sched(k));
    }
  }

  /** A lasting epoch that all ranks have joined gets under way. */
  lemma GetsUnderWay(c: Config, script: seq<Job>, sigma: nat -> State, sched: nat -> Action, p: nat, e: nat, i: nat)
    returns (n: nat)
    requires Whole(c, script, sigma, sched) && Lasting(sigma, p, e, i) && AllJoined(sigma(i), e)
    ensures i <= n && UnderWay(sigma(n))
  {
    hide Whole, Fine, Step, Inv, Checking, Shape;
    StaysFine(c, script, sigma, sched, i);
    FineHealthy(c, script, sigma(i));
    if sigma(i).sh.log.epoch == e { return i; }
    NotProduced(c, sigma(i));
    var j := i;
    if sigma(i).sh.producer.PIdle? { j := NextProduce(c, script, sigma, sched, i); }
    AllJoinedFrom(c, script, sigma, sched, p, e, i, j);
    StaysFine(c, script, sigma, sched, j);
    if sigma(j).sh.producer.PIdle? {
      ProduceEnters(c, script, sigma(j), sched(j));
      LastingLater(sigma, p, e, i, j + 1);
      n := CheckingLeads(c, script, sigma, sched, p, e, j + 1);
    } else {
      InCallOrUnderWay(c, script, sigma(j));
      if UnderWay(sigma(j)) { return j; }
      LastingLater(sigma, p, e, i, j);
      n := CheckingLeads(c, script, sigma, sched, p, e, j);
    }
  }

  // ------------------------------------------------------------ every rank returns

  predicate EndedFor(s: State, r: nat, e: nat) {
    s.sh.producerDone == e && r < |s.ranks| && s.ranks[r].join == e && s.ranks[r].consumerDone == e
  }

  lemma EndedFrom(c: Config, script: seq<Job>, sigma: nat -> State, sched: nat -> Action,
                  p: nat, e: nat, r: nat, i: nat, n: nat)
    requires Whole(c, script, sigma, sched) && Lasting(sigma, p, e, i) && i <= n && r < c.tp
    requires EndedFor(sigma(i), r, e)
    ensures EndedFor(sigma(n), r, e) && sigma(n).sh.active == e
  {
    hide Whole, Fine, Step, Inv;
    ReachedStays(c, script, sigma, sched, p, e, r, i, n);
  }

  lemma WaitEnters(c: Config, script: seq<Job>, s: State, r: nat)
    requires Fine(c, script, s) && r < c.tp && s.ranks[r].caller.CIdle?
    requires EndedFor(s, r, s.sh.active) && s.sh.active > 0
    ensures Leaving(Step(c, s, CallWait(r, s.sh.active)), r, s.sh.active)
  {
    FineHealthy(c, script, s);
    hide Fine, Inv, ShapeRank;
    assert CleanRank(s.ranks[r]);
  }

  /** In a lasting epoch that has ended everywhere, every rank returns from its `wait`. */
  lemma Returns(c: Config, script: seq<Job>, sigma: nat -> State, sched: nat -> Action,
                p: nat, e: nat, r: nat, i: nat) returns (n: nat)
    requires Whole(c, script, sigma, sched) && Lasting(sigma, p, e, i) && r < c.tp && EndedFor(sigma(i), r, e)
    ensures i <= n && r < |sigma(n).ranks| && sigma(n).ranks[r].waitReturned == e
  {
    hide Whole, Fine, Step, Shape, Inv;
    StaysFine(c, script, sigma, sched, i);
    FineHealthy(c, script, sigma(i));
    if sigma(i).ranks[r].waitReturned == e { return i; }
    CallerPlace(c, script, sigma(i), r);
    LockstepAt(c, sigma(i), r);
    var j := i;
    if Waiting(sigma(i).ranks[r].caller) {
      WaitsForJoined(c, sigma(i), r);
    } else {
      var called := NextWait(c, script, sigma, sched, r, i);
      EndedFrom(c, script, sigma, sched, p, e, r, i, called);
      StaysFine(c, script, sigma, sched, called);
      FineHealthy(c, script, sigma(called));
      LockstepAt(c, sigma(called), r);
      if sigma(called).ranks[r].waitReturned == e { return called; }
      WaitEnters(c, script, sigma(called), r);
      j := called + 1;
    }
    n := LeavingLeads(c, script, sigma, sched, e, r, j);
  }

  /** The first m ranks have returned together. */
  lemma AllReturn(c: Config, script: seq<Job>, sigma: nat -> State, sched: nat -> Action,
                  p: nat, e: nat, m: nat, i: nat) returns (n: nat)
    requires Whole(c, script, sigma, sched) && Lasting(sigma, p, e, i) && m <= c.tp
    requires forall r: nat :: r < c.tp ==> EndedFor(sigma(i), r, e)
    ensures i <= n && |sigma(n).ranks| == c.tp && forall r :: 0 <= r < m ==> sigma(n).ranks[r].waitReturned == e
    decreases m
  {
    hide Whole, Fine, Step, Inv, Lasting, EndedFor;
    if m == 0 {
      StaysFine(c, script, sigma, sched, i);
      FineHealthy(c, script, sigma(i));
      return i;
    }
    var k := AllReturn(c, script, sigma, sched, p, e, m - 1, i);
    LastingLater(sigma, p, e, i, k);
    EndedFrom(c, script, sigma, sched, p, e, m - 1, i, k);
    n := Returns(c, script, sigma, sched, p, e, m - 1, k);
    StaysFine(c, script, sigma, sched, n);
    FineHealthy(c, script, sigma(n));
    forall r: nat | r < m - 1 ensures sigma(n).ranks[r].waitReturned == e {
      ReachedStays(c, script, sigma, sched, p, e, r, k, n);
    }
  }

  // --------------------------------------------------------------- the whole script

  /** One job, in an epoch that lasts. */
  lemma LastingEnds(c: Config, script: seq<Job>, sigma: nat -> State, sched: nat -> Action, p: nat, job: Job, i: nat)
    returns (n: nat)
    requires Whole(c, script, sigma, sched) && Lasting(sigma, p, job.epoch, i) && After(script, p, job)
    ensures i <= n && Through(sigma(n), job.epoch)
  {
    hide Whole, Fine, Step, Inv, After, UnderWay, Lasting;
    var e := job.epoch;
    TurnsFor(c, script, sigma, sched, 0);
    LastingAt(sigma, p, e, i);
    var joined := AllJoin(c, script, sigma, sched, p, job, c.tp, i);
    LastingLater(sigma, p, e, i, joined);
    LastingAt(sigma, p, e, joined);
    var under := GetsUnderWay(c, script, sigma, sched, p, e, joined);
    LastingLater(sigma, p, e, joined, under);
    LastingAt(sigma, p, e, under);
    var ended := FinishedAt(c, script, sigma, sched, under);
    AllJoinedFrom(c, script, sigma, sched, p, e, joined, ended);
    LastingLater(sigma, p, e, joined, ended);
    LastingAt(sigma, p, e, ended);
    StaysFine(c, script, sigma, sched, ended);
    FineHealthy(c, script, sigma(ended));
    n := AllReturn(c, script, sigma, sched, p, e, c.tp, ended);
    LastingLater(sigma, p, e, ended, n);
    LastingAt(sigma, p, e, n);
  }

  lemma LastingAt(sigma: nat -> State, p: nat, e: nat, i: nat)
    requires Lasting(sigma, p, e, i)
    ensures sigma(i).sh.active == e > 0
  {
  }

  lemma FinishedAt(c: Config, script: seq<Job>, sigma: nat -> State, sched: nat -> Action, i: nat) returns (n: nat)
    requires Whole(c, script, sigma, sched) && UnderWay(sigma(i))
    ensures i <= n && Finished(sigma(n)) && sigma(n).sh.active == sigma(i).sh.active
  {
    hide Execution, Fair, CleanExecution, Eager, Patient, UnderWay, Finished;
    CleanEpochsFinish(c, script, sigma, sched, i);
    n :| i <= n && Finished(sigma(n)) && sigma(n).sh.active == sigma(i).sh.active;
  }

  /** Everybody gets through with an active epoch. */
  lemma EpochEnds(c: Config, script: seq<Job>, sigma: nat -> State, sched: nat -> Action, p: nat, job: Job, i: nat)
    returns (n: nat)
    requires Whole(c, script, sigma, sched) && After(script, p, job)
    requires sigma(i).sh.active == job.epoch && sigma(i).sh.previous == p
    ensures i <= n && Through(sigma(n), job.epoch)
  {
    hide Whole, After, Through;
    if exists m: nat :: i <= m && Through(sigma(m), job.epoch) {
      n :| i <= n && Through(sigma(n), job.epoch);
    } else {
      forall m: nat | i <= m ensures sigma(m).sh.active == job.epoch && sigma(m).sh.previous == p {
        ActiveStays(c, script, sigma, sched, p, job.epoch, i, m);
      }
      NextIsLarger(c, script, sigma, sched, p, job);
      n := LastingEnds(c, script, sigma, sched, p, job, i);
    }
  }

  /** One job: from everybody through with the epoch before to everybody through with its own. */
  lemma JobEnds(c: Config, script: seq<Job>, sigma: nat -> State, sched: nat -> Action, p: nat, job: Job, i: nat)
    returns (n: nat)
    requires Whole(c, script, sigma, sched) && Through(sigma(i), p) && After(script, p, job)
    ensures i <= n && Through(sigma(n), job.epoch)
  {
    hide Whole, After, Through;
    var begun := Opens(c, script, sigma, sched, p, job, i);
    n := EpochEnds(c, script, sigma, sched, p, job, begun);
  }

  /** A clean `wait` ends only by returning. */
  lemma WaitLasts(c: Config, script: seq<Job>, s: State, a: Action, r: nat, e: nat)
    requires Fine(c, script, s) && Proper(c, script, s, a) && r < c.tp
    requires Waiting(s.ranks[r].caller) && s.ranks[r].caller.epoch == e
    ensures Shape(c, Step(c, s, a))
    ensures var t := Step(c, s, a); Back(t, r, e) || (Waiting(t.ranks[r].caller) && t.ranks[r].caller.epoch == e)
  {
    FineHealthy(c, script, s);
    ShapeKept(c, s, a);
    hide Fine, Inv, ShapeRank, Disciplined, Patient;
    if OwnStep(a, CallerOf(r)) {
      hide CallerStep;
      WaitGoesOn(s.sh, s.ranks[r]);
    } else {
      hide Step;
      OthersKeep(c, s, CallerOf(r), a);
    }
  }

  lemma WaitGoesOn(sh: Shared, rk: Rank)
    requires ShapeRank(rk) && Waiting(rk.caller) && CleanRank(rk)
    ensures var t := CallerStep(Healthy, sh, rk, Go).1;
            || (t.caller.CIdle? && t.waitReturned == rk.caller.epoch)
            || (Waiting(t.caller) && t.caller.epoch == rk.caller.epoch)
  {
    hide JoinStep, CloseStep, ShapeRank;
  }

  lemma WaitUntil(c: Config, script: seq<Job>, sigma: nat -> State, sched: nat -> Action, r: nat, e: nat,
                  i: nat, j: nat) returns (n: nat)
    requires Whole(c, script, sigma, sched) && r < c.tp && i <= j && r < |sigma(i).ranks|
    requires Waiting(sigma(i).ranks[r].caller) && sigma(i).ranks[r].caller.epoch == e
    ensures i <= n <= j && r < |sigma(n).ranks|
    ensures Back(sigma(n), r, e)
            || (n == j && Waiting(sigma(j).ranks[r].caller) && sigma(j).ranks[r].caller.epoch == e)
    decreases j - i
  {
    hide Whole, Fine, Step, Proper;
    if i == j { return i; }
    StaysFine(c, script, sigma, sched, i);
    WaitLasts(c, script, sigma(i), sched(i), r, e);
    if Back(sigma(i + 1), r, e) { return i + 1; }
    n := WaitUntil(c, script, sigma, sched, r, e, i + 1, j);
  }

  /** Every `wait` that has begun returns, a first one and a repeated one. */
  lemma WaitReturns(c: Config, script: seq<Job>, sigma: nat -> State, sched: nat -> Action, r: nat, i: nat)
    returns (n: nat)
    requires Whole(c, script, sigma, sched) && r < c.tp && r < |sigma(i).ranks|
    requires Waiting(sigma(i).ranks[r].caller)
    ensures i <= n && Back(sigma(n), r, sigma(i).ranks[r].caller.epoch)
  {
    hide Whole, Fine, Step, Shape, Inv, After, Leaving, Back;
    var e := sigma(i).ranks[r].caller.epoch;
    StaysFine(c, script, sigma, sched, i);
    FineHealthy(c, script, sigma(i));
    WaitsForJoined(c, sigma(i), r);
    if sigma(i).ranks[r].waitReturned == e {
      n := LeavingLeads(c, script, sigma, sched, e, r, i);
      return;
    }
    LockstepAt(c, sigma(i), r);
    var job := ActiveJob(c, script, sigma(i));
    var m := EpochEnds(c, script, sigma, sched, sigma(i).sh.previous, job, i);
    n := WaitUntil(c, script, sigma, sched, r, e, i, m);
    if !Back(sigma(n), r, e) {
      StaysFine(c, script, sigma, sched, m);
      FineHealthy(c, script, sigma(m));
      WaitsForJoined(c, sigma(m), r);
      n := LeavingLeads(c, script, sigma, sched, e, r, m);
    }
  }

  lemma ActiveJob(c: Config, script: seq<Job>, s: State) returns (job: Job)
    requires Fine(c, script, s) && s.sh.active > 0
    ensures After(script, s.sh.previous, job) && job.epoch == s.sh.active
  {
    job := Job(s.sh.active, s.sh.openLayer, s.sh.openCount);
  }

  lemma NextIsLarger(c: Config, script: seq<Job>, sigma: nat -> State, sched: nat -> Action, p: nat, job: Job)
    requires Whole(c, script, sigma, sched) && After(script, p, job)
    ensures p < job.epoch
  {
    hide Execution, Fair, CleanExecution, Eager, Patient;
    AfterIsUnique(c, script, p, job, job);
  }

  /** The first m jobs. */
  lemma JobsEnd(c: Config, script: seq<Job>, sigma: nat -> State, sched: nat -> Action, m: nat) returns (n: nat)
    requires Whole(c, script, sigma, sched) && m <= |script|
    ensures Through(sigma(n), if m == 0 then 0 else script[m - 1].epoch)
    decreases m
  {
    hide Whole, Through;
    if m == 0 {
      StartsThrough(c, script, sigma, sched);
      return 0;
    }
    var k := JobsEnd(c, script, sigma, sched, m - 1);
    assert script[m - 1] == script[m - 1] && EpochBefore(script, m - 1) == if m == 1 then 0 else script[m - 2].epoch;
    n := JobEnds(c, script, sigma, sched, EpochBefore(script, m - 1), script[m - 1], k);
  }

  lemma StartsThrough(c: Config, script: seq<Job>, sigma: nat -> State, sched: nat -> Action)
    requires Whole(c, script, sigma, sched)
    ensures Through(sigma(0), 0)
  {
    hide Fair, Eager, Patient, Disciplined, Reachable, Step, ShapeRank;
    assert sigma(0) == Init(c);
  }

  /**
   If nothing times out, fails or closes, all threads get their turns, and the callers follow the
   script, each rank joining its next job after it has returned from the last, then every rank
   returns from every job: in the end all have returned from the last one.
   */
  lemma ScriptCompletes(c: Config, script: seq<Job>, sigma: nat -> State, sched: nat -> Action) returns (n: nat)
    requires Whole(c, script, sigma, sched) && |script| > 0
    ensures Through(sigma(n), script[|script| - 1].epoch)
  {
    n := JobsEnd(c, script, sigma, sched, |script|);
  }
}
