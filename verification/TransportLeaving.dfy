/** Once the latch is set, everybody inside `wait_until` is out of it in the end, by throwing. */
module TransportLeaving {
  import opened TransportModel
  import opened TransportInvariant
  import opened TransportConsumer
  import opened TransportSafety
  import opened TransportTheorems
  import opened TransportProgress
  import opened TransportRerun

  /** A thread that may be waiting. */
  datatype Thread = CallerOf(r: nat) | TheWriter | ConsumerOf(r: nat)

  predicate Exists(c: Config, w: Thread) { w.TheWriter? || w.r < c.tp }

  predicate OwnStep(a: Action, w: Thread) {
    match w
    case CallerOf(r) => a.StepCaller? && a.r == r
    case TheWriter => a.StepProducer?
    case ConsumerOf(r) => a.StepConsumer? && a.r == r
  }

  /** Own steps the thread can still take inside `wait_until`; none when it is not in it. */
  function Left(c: Config, s: State, w: Thread): int
    requires Shape(c, s) && Exists(c, w)
  {
    match w
    case CallerOf(r) =>
      if s.ranks[r].caller.COpening? then OpenerLeft(c, s.sh.opener) else CallerLeft(s.ranks[r].caller)
    case TheWriter => ProducerLeft(c, s.sh.producer)
    case ConsumerOf(r) => ConsumerLeft(s.ranks[r].consumer)
  }

  /** The thread threw: its call is over, or it is in its catch clause. */
  predicate Threw(c: Config, s: State, w: Thread)
    requires Shape(c, s) && Exists(c, w)
  {
    match w
    case CallerOf(r) => s.ranks[r].caller.CIdle?
    case TheWriter => s.sh.producer.PCatch?
    case ConsumerOf(r) => s.ranks[r].consumer.KCatch?
  }

  /** A caller's join and wait_returned cells are as they were: what it did not finish left no trace there. */
  predicate SameCells(c: Config, s: State, t: State, w: Thread)
    requires Shape(c, s) && Shape(c, t) && Exists(c, w)
  {
    w.CallerOf? ==> t.ranks[w.r].join == s.ranks[w.r].join && t.ranks[w.r].waitReturned == s.ranks[w.r].waitReturned
  }

  // ------------------------------------------------------------- own steps

  lemma OpenerThrew(c: Config, s: State, o: Outcome)
    requires Shape(c, s) && !s.poison.Healthy? && s.ranks[0].caller.COpening? && OpenerLeft(c, s.sh.opener) > 0
    ensures Shape(c, Step(c, s, StepCaller(0, o)))
    ensures var t := Step(c, s, StepCaller(0, o));
            t.ranks[0].caller.CIdle?
            || (t.ranks[0].caller.COpening? && 0 < OpenerLeft(c, t.sh.opener) < OpenerLeft(c, s.sh.opener))
    ensures SameCells(c, s, Step(c, s, StepCaller(0, o)), CallerOf(0))
  {
    ShapeKept(c, s, StepCaller(0, o));
    OpenerLeaves(c, s, o);
    hide ShapeRank, OpenerStep;
  }

  lemma OwnStepLeaves(c: Config, s: State, w: Thread, a: Action)
    requires Inv(c, s) && Shape(c, s) && Exists(c, w) && OwnStep(a, w)
    requires !s.poison.Healthy? && Left(c, s, w) > 0
    ensures Shape(c, Step(c, s, a))
    ensures Threw(c, Step(c, s, a), w) || 0 < Left(c, Step(c, s, a), w) < Left(c, s, w)
    ensures SameCells(c, s, Step(c, s, a), w)
  {
    ShapeKept(c, s, a);
    match w
    case CallerOf(r) =>
      if s.ranks[r].caller.COpening? {
        OnlyZeroOpens(c, s, r);
        hide Inv, Step, ShapeRank;
        OpenerThrew(c, s, a.outcome);
      } else {
        hide Inv, ShapeRank;
        CallersLeave(c, s, r, a.outcome);
        CallerNotOpening(s.poison, s.sh, s.ranks[r], a.outcome);
        WaitingStoresNothing(s.poison, s.sh, s.ranks[r], a.outcome);
        hide CallerStep;
      }
    case TheWriter =>
      hide Inv, Step, ShapeRank;
      ProducerLeaves(c, s, a.outcome);
    case ConsumerOf(r) =>
      hide Inv, Step, ShapeRank;
      ConsumersLeave(c, s, r, a.outcome);
  }

  lemma WaitingStoresNothing(p: Poison, sh: Shared, rk: Rank, o: Outcome)
    requires ShapeRank(rk) && CallerLeft(rk.caller) > 0
    ensures var t := CallerStep(p, sh, rk, o).1; t.join == rk.join && t.waitReturned == rk.waitReturned
  {
    hide ShapeRank;
  }

  lemma CallerNotOpening(p: Poison, sh: Shared, rk: Rank, o: Outcome)
    requires ShapeRank(rk) && !rk.caller.COpening?
    ensures !CallerStep(p, sh, rk, o).1.caller.COpening?
  {
    hide ShapeRank;
    if rk.caller.JWait? || Joining(rk.caller) { hide WaitStep, CloseStep; }
    else if Waiting(rk.caller) { hide JoinStep, CloseStep; }
    else { hide JoinStep, WaitStep; }
  }

  // ---------------------------------------------------------- others' steps

  /** In a call; a consumer always is. */
  predicate Busy(c: Config, s: State, w: Thread)
    requires Shape(c, s) && Exists(c, w)
  {
    && (w.CallerOf? ==> !s.ranks[w.r].caller.CIdle?)
    && (w.TheWriter? ==> !s.sh.producer.PIdle?)
  }

  /** What a thread's place is made of. */
  predicate SamePlace(c: Config, s: State, t: State, w: Thread)
    requires Shape(c, s) && Shape(c, t) && Exists(c, w)
  {
    match w
    case CallerOf(r) =>
      && t.ranks[r].caller == s.ranks[r].caller && (s.ranks[r].caller.COpening? ==> t.sh.opener == s.sh.opener)
      && SameCells(c, s, t, w)
    case TheWriter => t.sh.producer == s.sh.producer
    case ConsumerOf(r) => t.ranks[r].consumer == s.ranks[r].consumer
  }

  lemma OtherConsumers(c: Config, s: State, w: Thread, q: nat, o: Outcome)
    requires Shape(c, s) && Exists(c, w) && !OwnStep(StepConsumer(q, o), w)
    ensures Shape(c, Step(c, s, StepConsumer(q, o))) && SamePlace(c, s, Step(c, s, StepConsumer(q, o)), w)
  {
    ShapeKept(c, s, StepConsumer(q, o));
    if q < c.tp { ConsumerKeepsCaller(c, s.poison, s.sh, s.ranks[q], q, o); }
    hide ShapeRank, ConsumerStep;
  }

  lemma OtherCallers(c: Config, s: State, w: Thread, q: nat, o: Outcome)
    requires Shape(c, s) && Exists(c, w) && !OwnStep(StepCaller(q, o), w) && q < c.tp && !s.ranks[q].caller.COpening?
    ensures Shape(c, Step(c, s, StepCaller(q, o))) && SamePlace(c, s, Step(c, s, StepCaller(q, o)), w)
  {
    ShapeKept(c, s, StepCaller(q, o));
    CallerKeepsConsumer(s.poison, s.sh, s.ranks[q], o);
    hide ShapeRank, CallerStep;
  }

  lemma OtherOpener(c: Config, s: State, w: Thread, o: Outcome)
    requires Shape(c, s) && Exists(c, w) && !OwnStep(StepCaller(0, o), w) && s.ranks[0].caller.COpening?
    ensures Shape(c, Step(c, s, StepCaller(0, o)))
    ensures (w.CallerOf? ==> !s.ranks[w.r].caller.COpening?) ==> SamePlace(c, s, Step(c, s, StepCaller(0, o)), w)
  {
    ShapeKept(c, s, StepCaller(0, o));
    OpenerClaims(c, s, o);
    hide ShapeRank, OpenerStep;
  }

  lemma OtherProducer(c: Config, s: State, w: Thread, o: Outcome)
    requires Shape(c, s) && Exists(c, w) && !OwnStep(StepProducer(o), w)
    ensures Shape(c, Step(c, s, StepProducer(o))) && SamePlace(c, s, Step(c, s, StepProducer(o)), w)
  {
    ShapeKept(c, s, StepProducer(o));
    ProducerKeepsEpoch(c, s, o);
    hide ShapeRank, ProducerStep;
  }

  lemma OtherActions(c: Config, s: State, w: Thread, a: Action)
    requires Shape(c, s) && Exists(c, w) && !a.StepCaller? && !a.StepProducer? && !a.StepConsumer?
    requires Busy(c, s, w) && (w.CallerOf? && s.ranks[w.r].caller.COpening? ==> w.r == 0)
    ensures Shape(c, Step(c, s, a)) && SamePlace(c, s, Step(c, s, a), w)
  {
    ShapeKept(c, s, a);
    hide ShapeRank, ConsumerStep, CallerStep, OpenerStep, ProducerStep;
  }

  /** Nobody else moves a thread that is in a call. */
  lemma OthersKeep(c: Config, s: State, w: Thread, a: Action)
    requires Inv(c, s) && Shape(c, s) && Exists(c, w) && !OwnStep(a, w) && Busy(c, s, w)
    ensures Shape(c, Step(c, s, a)) && SamePlace(c, s, Step(c, s, a), w)
  {
    if a.StepCaller? && a.r < c.tp && s.ranks[a.r].caller.COpening? { OnlyZeroOpens(c, s, a.r); }
    if w.CallerOf? && s.ranks[w.r].caller.COpening? { OnlyZeroOpens(c, s, w.r); }
    hide Inv, ShapeRank, Step, SamePlace, Busy, OwnStep;
    match a
    case StepCaller(q, o) =>
      if q >= c.tp { Beyond(c, s, w, a); }
      else if s.ranks[q].caller.COpening? { OpenerAlone(c, s, w, o); OtherOpener(c, s, w, o); }
      else { OtherCallers(c, s, w, q, o); }
    case StepProducer(o) => OtherProducer(c, s, w, o);
    case StepConsumer(q, o) => OtherConsumers(c, s, w, q, o);
    case _ => OtherActions(c, s, w, a);
  }

  /** Nobody else moves a waiting thread. */
  lemma OthersKeepPlace(c: Config, s: State, w: Thread, a: Action)
    requires Inv(c, s) && Shape(c, s) && Exists(c, w) && !OwnStep(a, w) && Left(c, s, w) > 0
    ensures Shape(c, Step(c, s, a)) && Left(c, Step(c, s, a), w) == Left(c, s, w)
    ensures SameCells(c, s, Step(c, s, a), w)
  {
    OthersKeep(c, s, w, a);
    hide Inv, ShapeRank, Step;
  }

  /** Rank zero's opening caller is stepped by its own steps only. */
  lemma OpenerAlone(c: Config, s: State, w: Thread, o: Outcome)
    requires Shape(c, s) && Exists(c, w) && !OwnStep(StepCaller(0, o), w)
    requires w.CallerOf? && s.ranks[w.r].caller.COpening? ==> w.r == 0
    ensures w.CallerOf? ==> !s.ranks[w.r].caller.COpening?
  {
    hide ShapeRank;
  }

  lemma Beyond(c: Config, s: State, w: Thread, a: Action)
    requires Shape(c, s) && Exists(c, w) && a.StepCaller? && a.r >= c.tp
    ensures Step(c, s, a) == s && SamePlace(c, s, s, w)
  {
  }

  // ------------------------------------------------------------- executions

  ghost predicate TurnsOf(sched: nat -> Action, w: Thread) {
    forall i: nat :: NextTurn(sched, w, i)
  }

  ghost predicate NextTurn(sched: nat -> Action, w: Thread, i: nat) {
    exists j: nat :: i <= j && OwnStep(sched(j), w)
  }

  /** Until its own turn at j the thread stays where it is, and the latch stays set. */
  lemma {:induction false} WaitsUntil(c: Config, sigma: nat -> State, sched: nat -> Action, w: Thread, i: nat, j: nat)
    requires Execution(c, sigma, sched) && Exists(c, w) && i <= j
    requires forall k: nat :: i <= k < j ==> !OwnStep(sched(k), w)
    requires !sigma(i).poison.Healthy? && Left(c, sigma(i), w) > 0
    ensures !sigma(j).poison.Healthy? && Left(c, sigma(j), w) == Left(c, sigma(i), w)
    ensures SameCells(c, sigma(i), sigma(j), w)
    decreases j - i
  {
    hide Reachable, Shape, Step, Left, Inv;
    if i < j {
      var k: nat := j - 1;
      WaitsUntil(c, sigma, sched, w, i, k);
      StaysInExecution(c, sigma, sched, k);
      ReachableInv(c, sigma(k));
      OthersKeepPlace(c, sigma(k), w, sched(k));
      PoisonStays(c, sigma(k), sched(k));
      assert sigma(k + 1) == Step(c, sigma(k), sched(k));
    }
  }

  /** The first own turn from i on. */
  lemma FirstTurn(sched: nat -> Action, w: Thread, i: nat, j: nat) returns (n: nat)
    requires i <= j && OwnStep(sched(j), w)
    ensures i <= n && OwnStep(sched(n), w) && forall k: nat :: i <= k < n ==> !OwnStep(sched(k), w)
    decreases j - i
  {
    if OwnStep(sched(i), w) { return i; }
    n := FirstTurn(sched, w, i + 1, j);
  }

  /**
   In every execution with the latch set, a thread inside `wait_until` that gets its turns throws,
   whatever the others do; a caller's join or wait has not taken effect.
   */
  lemma WaitersThrow(c: Config, sigma: nat -> State, sched: nat -> Action, w: Thread, i: nat)
    requires Execution(c, sigma, sched) && Exists(c, w) && TurnsOf(sched, w)
    requires !sigma(i).poison.Healthy? && Left(c, sigma(i), w) > 0
    ensures exists n: nat :: i < n && Threw(c, sigma(n), w) && SameCells(c, sigma(i), sigma(n), w)
    decreases Left(c, sigma(i), w)
  {
    hide Reachable, Shape, Step, Left, Inv, Threw;
    assert NextTurn(sched, w, i);
    var j: nat :| i <= j && OwnStep(sched(j), w);
    var n := FirstTurn(sched, w, i, j);
    WaitsUntil(c, sigma, sched, w, i, n);
    StaysInExecution(c, sigma, sched, n);
    ReachableInv(c, sigma(n));
    OwnStepLeaves(c, sigma(n), w, sched(n));
    PoisonStays(c, sigma(n), sched(n));
    assert sigma(n + 1) == Step(c, sigma(n), sched(n));
    if !Threw(c, sigma(n + 1), w) {
      WaitersThrow(c, sigma, sched, w, n + 1);
    }
  }
}
