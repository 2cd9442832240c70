/** Taking turns in a fixed order is such a whole execution, for every configuration and script. */
module TransportRoundRobin {
  import opened TransportModel
  import opened TransportInvariant
  import opened TransportSafety
  import opened TransportTheorems
  import opened TransportProgress
  import opened TransportDiscipline
  import opened TransportClean
  import opened TransportLeaving
  import opened TransportScript
  import opened TransportPhases
  import opened TransportCompletes

  // ------------------------------------------------------------- the schedule

  /** Whose turn it is. */
  datatype Turn = Produce | Production | Call(r: nat) | Calling(r: nat) | Consumption(r: nat) | Copying(r: nat)

  /** The producer, then rank by rank. */
  function Following(c: Config, t: Turn): Turn {
    match t
    case Produce => Production
    case Production => Call(0)
    case Call(r) => Calling(r)
    case Calling(r) => Consumption(r)
    case Consumption(r) => Copying(r)
    case Copying(r) => if r + 1 < c.tp then Call(r + 1) else Produce
  }

  function TurnAt(c: Config, i: nat): (t: Turn)
    requires ValidConfig(c)
    ensures t.Produce? || t.Production? || t.r < c.tp
  {
    if i == 0 then Produce else Following(c, TurnAt(c, i - 1))
  }

  /** The rank's next call: `wait` for what it joined, else `join` for the next job, if there is one. */
  ghost function NextCall(script: seq<Job>, r: nat, rk: Rank): Action {
    if rk.waitReturned < rk.join then CallWait(r, rk.join)
    else if rk.waitReturned == rk.join && exists job :: After(script, rk.join, job) then
      var job :| After(script, rk.join, job);
      CallJoin(r, job.epoch, job.layer, job.count)
    else StepCaller(r, Go)
  }

  predicate ToProduce(s: State) {
    s.sh.producer.PIdle? && |s.ranks| > 0 && s.ranks[0].join == s.sh.active && s.sh.producerDone < s.sh.active
  }

  ghost function Pick(c: Config, script: seq<Job>, s: State, i: nat): Action
    requires Shape(c, s)
  {
    match TurnAt(c, i)
    case Produce =>
      if ToProduce(s) then CallProduce(s.sh.active, s.sh.openLayer, s.sh.openCount) else StepProducer(Go)
    case Production => StepProducer(Go)
    case Call(r) => NextCall(script, r, s.ranks[r])
    case Calling(r) => StepCaller(r, Go)
    case Consumption(r) => StepConsumer(r, Go)
    case Copying(r) => DeviceCopies(r)
  }

  ghost function Played(c: Config, script: seq<Job>, i: nat): (s: State)
    requires ValidConfig(c)
    ensures Shape(c, s)
  {
    if i == 0 then Init(c)
    else
      var s := Played(c, script, i - 1);
      ShapeKept(c, s, Pick(c, script, s, i - 1));
      Step(c, s, Pick(c, script, s, i - 1))
  }

  ghost function States(c: Config, script: seq<Job>): nat -> State
    requires ValidConfig(c)
  {
    (i: nat) => Played(c, script, i)
  }

  ghost function Actions(c: Config, script: seq<Job>): nat -> Action
    requires ValidConfig(c)
  {
    (i: nat) => Pick(c, script, Played(c, script, i), i)
  }

  // ------------------------------------------------------------- it is proper

  lemma PickIsProper(c: Config, script: seq<Job>, s: State, i: nat)
    requires Shape(c, s)
    ensures Proper(c, script, s, Pick(c, script, s, i))
  {
    hide ShapeShared, ShapeRank, TurnAt;
  }

  lemma {:induction false} PlayedFine(c: Config, script: seq<Job>, i: nat)
    requires ValidConfig(c) && ValidScript(c, script)
    ensures Fine(c, script, Played(c, script, i))
  {
    hide Fine, Proper, Step, Pick;
    if i == 0 {
      InitFine(c, script);
    } else {
      PlayedFine(c, script, i - 1);
      var s := Played(c, script, i - 1);
      PickIsProper(c, script, s, i - 1);
      FineStep(c, script, s, Pick(c, script, s, i - 1));
    }
  }

  // ------------------------------------------------------------- every turn comes

  function Place(t: Turn): nat {
    match t
    case Produce => 0
    case Production => 1
    case Call(r) => 4 * r + 2
    case Calling(r) => 4 * r + 3
    case Consumption(r) => 4 * r + 4
    case Copying(r) => 4 * r + 5
  }

  lemma RoundEnds(c: Config, i: nat) returns (j: nat)
    requires ValidConfig(c)
    ensures i <= j && TurnAt(c, j).Produce?
    decreases 4 * c.tp + 2 - Place(TurnAt(c, i))
  {
    if TurnAt(c, i).Produce? || TurnAt(c, i + 1).Produce? { return if TurnAt(c, i).Produce? then i else i + 1; }
    j := RoundEnds(c, i + 1);
  }

  lemma TurnComes(c: Config, i: nat, t: Turn) returns (j: nat)
    requires ValidConfig(c) && Place(TurnAt(c, i)) <= Place(t) < 4 * c.tp + 2
    ensures i <= j && TurnAt(c, j) == t
    decreases Place(t) - Place(TurnAt(c, i))
  {
    if TurnAt(c, i) == t { return i; }
    j := TurnComes(c, i + 1, t);
  }

  /** The turn comes, and there is a first time that it does. */
  lemma NextTurnAt(c: Config, i: nat, t: Turn) returns (j: nat)
    requires ValidConfig(c) && Place(t) < 4 * c.tp + 2
    ensures i <= j && TurnAt(c, j) == t && forall k: nat :: i <= k < j ==> TurnAt(c, k) != t
  {
    var round := RoundEnds(c, i);
    var n := TurnComes(c, round, t);
    j := FirstTurn(c, i, n, t);
  }

  lemma FirstTurn(c: Config, i: nat, n: nat, t: Turn) returns (j: nat)
    requires ValidConfig(c) && i <= n && TurnAt(c, n) == t
    ensures i <= j <= n && TurnAt(c, j) == t && forall k: nat :: i <= k < j ==> TurnAt(c, k) != t
    decreases n - i
  {
    if TurnAt(c, i) == t { return i; }
    j := FirstTurn(c, i + 1, n, t);
  }

  lemma FairTurns(c: Config, script: seq<Job>)
    requires ValidConfig(c)
    ensures Fair(c, Actions(c, script))
    ensures forall r: nat :: r < c.tp ==> TurnsOf(Actions(c, script), CallerOf(r))
  {
    var sched := Actions(c, script);
    hide Played, TurnAt;
    forall g: Agent, i: nat | ValidAgent(c, g) ensures TurnFrom(sched, g, i) {
      var t :=
        match g
        case TheProducer => Production
        case TheConsumer(r) => Consumption(r)
        case TheCopier(r) => Copying(r);
      var j := NextTurnAt(c, i, t);
      assert IsTurnOf(sched(j), g);
    }
    forall r: nat, i: nat | r < c.tp ensures NextTurn(sched, CallerOf(r), i) {
      var j := NextTurnAt(c, i, Calling(r));
      assert OwnStep(sched(j), CallerOf(r));
    }
  }

  // ------------------------------------------------------------- who is idle stays idle until its turn

  predicate CallOf(a: Action, r: nat) { (a.CallJoin? || a.CallWait? || a.CallClose?) && a.r == r }

  /** Only its own calls move an idle caller. */
  lemma IdleStays(c: Config, s: State, a: Action, r: nat)
    requires Inv(c, s) && Shape(c, s) && r < c.tp && s.ranks[r].caller.CIdle? && !CallOf(a, r)
    ensures Shape(c, Step(c, s, a))
    ensures var rk, t := s.ranks[r], Step(c, s, a).ranks[r];
            t.caller.CIdle? && t.join == rk.join && t.waitReturned == rk.waitReturned
  {
    ShapeKept(c, s, a);
    var w := CallerOf(r);
    if a.StepCaller? && a.r < c.tp && s.ranks[a.r].caller.COpening? { OnlyZeroOpens(c, s, a.r); }
    hide Inv, ShapeRank, Step;
    match a
    case StepCaller(q, o) =>
      if q == r { OwnIdle(c, s, r, o); }
      else if q >= c.tp { BeyondClean(c, s, a); }
      else if s.ranks[q].caller.COpening? { OtherOpener(c, s, w, o); }
      else { OtherCallers(c, s, w, q, o); }
    case StepProducer(o) => OtherProducer(c, s, w, o);
    case StepConsumer(q, o) => OtherConsumers(c, s, w, q, o);
    case _ => OthersIdle(c, s, a, r);
  }

  lemma OthersIdle(c: Config, s: State, a: Action, r: nat)
    requires Shape(c, s) && r < c.tp && s.ranks[r].caller.CIdle? && !CallOf(a, r)
    requires !a.StepCaller? && !a.StepProducer? && !a.StepConsumer?
    ensures Shape(c, Step(c, s, a))
    ensures var rk, t := s.ranks[r], Step(c, s, a).ranks[r];
            t.caller.CIdle? && t.join == rk.join && t.waitReturned == rk.waitReturned
  {
    ShapeKept(c, s, a);
    hide ShapeRank;
  }

  lemma OwnIdle(c: Config, s: State, r: nat, o: Outcome)
    requires Shape(c, s) && r < c.tp && s.ranks[r].caller.CIdle?
    ensures Step(c, s, StepCaller(r, o)).ranks == s.ranks
  {
    hide ShapeRank, CallerStep;
    IdleSteps(s.poison, s.sh, s.ranks[r], o);
  }

  lemma IdleSteps(p: Poison, sh: Shared, rk: Rank, o: Outcome)
    requires ShapeRank(rk)
    ensures rk.caller.CIdle? ==> CallerStep(p, sh, rk, o).1 == rk
  {
    hide JoinStep, WaitStep, ShapeRank;
  }

  lemma IdleUntil(c: Config, script: seq<Job>, r: nat, i: nat, j: nat)
    requires ValidConfig(c) && ValidScript(c, script) && r < c.tp && i <= j
    requires Played(c, script, i).ranks[r].caller.CIdle?
    requires forall k: nat :: i <= k < j ==> TurnAt(c, k) != Call(r)
    ensures var rk, t := Played(c, script, i).ranks[r], Played(c, script, j).ranks[r];
            t.caller.CIdle? && t.join == rk.join && t.waitReturned == rk.waitReturned
    decreases j - i
  {
    hide Played, Fine, Step, TurnAt, Pick;
    if i < j {
      var k: nat := j - 1;
      IdleUntil(c, script, r, i, k);
      PlayedFine(c, script, k);
      var s := Played(c, script, k);
      FineHealthy(c, script, s);
      NotCalled(c, script, s, k, r);
      IdleStays(c, s, Pick(c, script, s, k), r);
      PlayedNext(c, script, k);
    }
  }

  lemma NotCalled(c: Config, script: seq<Job>, s: State, k: nat, r: nat)
    requires Shape(c, s) && TurnAt(c, k) != Call(r)
    ensures !CallOf(Pick(c, script, s, k), r)
  {
    hide Shape, TurnAt;
  }

  lemma PlayedNext(c: Config, script: seq<Job>, k: nat)
    requires ValidConfig(c)
    ensures var s := Played(c, script, k); Played(c, script, k + 1) == Step(c, s, Pick(c, script, s, k))
  {
    hide Step, Pick;
  }

  lemma CallsMade(c: Config, script: seq<Job>, r: nat, i: nat) returns (j: nat)
    requires ValidConfig(c) && ValidScript(c, script) && r < c.tp
    requires Played(c, script, i).ranks[r].caller.CIdle?
    ensures i <= j
    ensures var rk, t := Played(c, script, i).ranks[r], Played(c, script, j).ranks[r];
            && t.caller.CIdle? && t.join == rk.join && t.waitReturned == rk.waitReturned
            && Pick(c, script, Played(c, script, j), j) == NextCall(script, r, t)
  {
    j := NextTurnAt(c, i, Call(r));
    hide Played, Shape, NextCall, Fine, TurnAt;
    IdleUntil(c, script, r, i, j);
  }

  lemma EagerToJoin(c: Config, script: seq<Job>, r: nat, i: nat, job: Job) returns (j: nat)
    requires ValidConfig(c) && ValidScript(c, script) && r < c.tp
    requires var rk := Played(c, script, i).ranks[r];
      rk.caller.CIdle? && rk.waitReturned == rk.join && After(script, rk.join, job)
    ensures i <= j && JoinsAt(States(c, script), Actions(c, script), r, job, i, j)
  {
    hide Played, ShapeShared, ShapeRank, After, Pick;
    j := CallsMade(c, script, r, i);
    NextJobUnique(c, script, r, Played(c, script, j).ranks[r], job);
  }

  lemma NextJobUnique(c: Config, script: seq<Job>, r: nat, rk: Rank, job: Job)
    requires ValidConfig(c) && ValidScript(c, script)
    requires rk.waitReturned == rk.join && After(script, rk.join, job)
    ensures NextCall(script, r, rk) == CallJoin(r, job.epoch, job.layer, job.count)
  {
    var called := NextCall(script, r, rk);
    var other := Job(called.epoch, called.layer, called.count);
    assert After(script, rk.join, other);
    AfterIsUnique(c, script, rk.join, job, other);
  }

  lemma EagerToWait(c: Config, script: seq<Job>, r: nat, i: nat) returns (j: nat)
    requires ValidConfig(c) && ValidScript(c, script) && r < c.tp
    requires var rk := Played(c, script, i).ranks[r]; rk.caller.CIdle? && rk.waitReturned < rk.join
    ensures i <= j && WaitsAt(States(c, script), Actions(c, script), r, i, j)
  {
    hide Played, Shape, Pick;
    j := CallsMade(c, script, r, i);
  }

  // ------------------------------------------------------------- rank zero produces

  lemma ToProduceStays(c: Config, script: seq<Job>, s: State, a: Action)
    requires Fine(c, script, s) && ToProduce(s) && !a.CallProduce?
    ensures ToProduce(Step(c, s, a))
  {
    FineHealthy(c, script, s);
    var t := Step(c, s, a);
    if t.sh.active != s.sh.active {
      ActiveMoves(c, script, s, a);
      ThroughCells(c, s, s.sh.active, 0);
    }
    CellsStay(c, script, s, a, 0);
    OnlyDoneEnds(c, s, a);
    hide Fine, Inv, Step, ShapeRank;
    IdleProducerStays(c, s, a);
  }

  lemma IdleProducerStays(c: Config, s: State, a: Action)
    requires Inv(c, s) && Shape(c, s) && s.sh.producer.PIdle? && !a.CallProduce?
    ensures Shape(c, Step(c, s, a)) && Step(c, s, a).sh.producer.PIdle?
  {
    ShapeKept(c, s, a);
    if a.StepCaller? && a.r < c.tp && s.ranks[a.r].caller.COpening? {
      OnlyZeroOpens(c, s, a.r);
      OpenerClaims(c, s, a.outcome);
    }
    hide Inv, ShapeRank, ConsumerStep, CallerStep, OpenerStep, CallStep, ExpertStep, DrainStep;
  }

  lemma ToProduceUntil(c: Config, script: seq<Job>, i: nat, j: nat)
    requires ValidConfig(c) && ValidScript(c, script) && i <= j && ToProduce(Played(c, script, i))
    requires forall k: nat :: i <= k < j ==> TurnAt(c, k) != Produce
    ensures ToProduce(Played(c, script, j))
    decreases j - i
  {
    hide Played, Fine, Step, TurnAt, ToProduce;
    if i < j {
      var k: nat := j - 1;
      ToProduceUntil(c, script, i, k);
      PlayedFine(c, script, k);
      var s := Played(c, script, k);
      NotProducing(c, script, s, k);
      ToProduceStays(c, script, s, Pick(c, script, s, k));
      PlayedNext(c, script, k);
    }
  }

  lemma NotProducing(c: Config, script: seq<Job>, s: State, k: nat)
    requires Shape(c, s) && TurnAt(c, k) != Produce
    ensures !Pick(c, script, s, k).CallProduce?
  {
    hide Shape, TurnAt;
  }

  lemma EagerToProduce(c: Config, script: seq<Job>, i: nat) returns (j: nat)
    requires ValidConfig(c) && ValidScript(c, script) && ToProduce(Played(c, script, i))
    ensures i <= j && ProducesAt(States(c, script), Actions(c, script), j)
  {
    j := NextTurnAt(c, i, Produce);
    ToProduceUntil(c, script, i, j);
    hide Played, Shape, TurnAt, ToProduce;
  }

  // ------------------------------------------------------------- the whole script

  lemma IsExecution(c: Config, script: seq<Job>)
    requires ValidConfig(c) && ValidScript(c, script)
    ensures Execution(c, States(c, script), Actions(c, script))
    ensures CleanExecution(c, script, States(c, script), Actions(c, script))
    ensures forall i: nat :: Patient(c, States(c, script)(i), Actions(c, script)(i))
  {
    var sigma, sched := States(c, script), Actions(c, script);
    hide Fine, Step, ShapeShared, ShapeRank, Reachable, Pick, Disciplined, Patient;
    PlayedFine(c, script, 0);
    FineIsReachable(c, script, sigma(0));
    forall i: nat
      ensures sigma(i + 1) == Step(c, sigma(i), sched(i)) && Proper(c, script, sigma(i), sched(i))
    {
      PlayedNext(c, script, i);
      PickIsProper(c, script, sigma(i), i);
    }
  }

  lemma FineIsReachable(c: Config, script: seq<Job>, s: State)
    requires Fine(c, script, s)
    ensures Reachable(c, s)
  {}

  lemma IsEager(c: Config, script: seq<Job>)
    requires ValidConfig(c) && ValidScript(c, script)
    requires Execution(c, States(c, script), Actions(c, script))
    ensures Eager(c, script, States(c, script), Actions(c, script))
  {
    var sigma, sched := States(c, script), Actions(c, script);
    hide Execution, Played, After;
    forall r: nat, i: nat, job: Job |
      r < c.tp && sigma(i).ranks[r].caller.CIdle? && sigma(i).ranks[r].waitReturned == sigma(i).ranks[r].join
      && After(script, sigma(i).ranks[r].join, job)
      ensures exists j: nat :: i <= j && JoinsAt(sigma, sched, r, job, i, j)
    {
      var j := EagerToJoin(c, script, r, i, job);
    }
    forall r: nat, i: nat |
      r < c.tp && sigma(i).ranks[r].caller.CIdle? && sigma(i).ranks[r].waitReturned < sigma(i).ranks[r].join
      ensures exists j: nat :: i <= j && WaitsAt(sigma, sched, r, i, j)
    {
      var j := EagerToWait(c, script, r, i);
    }
    forall i: nat |
      sigma(i).sh.producer.PIdle? && sigma(i).ranks[0].join == sigma(i).sh.active
      && sigma(i).sh.producerDone < sigma(i).sh.active
      ensures exists j: nat :: i <= j && ProducesAt(sigma, sched, j)
    {
      var j := EagerToProduce(c, script, i);
    }
  }

  /** For every configuration and script there is a whole execution: this one. */
  lemma RoundRobinIsWhole(c: Config, script: seq<Job>)
    requires ValidConfig(c) && ValidScript(c, script)
    ensures Whole(c, script, States(c, script), Actions(c, script))
  {
    IsExecution(c, script);
    IsEager(c, script);
    FairTurns(c, script);
    hide Execution, CleanExecution, Eager, Fair, Patient, TurnsOf;
  }

  /** So on every configuration every script can be completed from the initialised region. */
  lemma RoundRobinCompletes(c: Config, script: seq<Job>) returns (n: nat)
    requires ValidConfig(c) && ValidScript(c, script) && |script| > 0
    ensures Reachable(c, Played(c, script, n)) && Through(Played(c, script, n), script[|script| - 1].epoch)
  {
    RoundRobinIsWhole(c, script);
    hide Whole, Through, Played, Fine;
    n := ScriptCompletes(c, script, States(c, script), Actions(c, script));
    PlayedFine(c, script, n);
    FineIsReachable(c, script, Played(c, script, n));
  }
}
