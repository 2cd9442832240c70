/** What each error code means, that no failure is passed over, what `close` does by itself, and when counters start. */
module TransportBlame {
  import opened TransportModel
  import opened TransportInvariant
  import opened TransportSafety
  import opened TransportTheorems
  import opened TransportWriter

  /** What a thread asks for is not what the control cell it reads now says. */
  predicate Mismatch(c: Config, s: State, a: Action)
    requires Shape(c, s)
  {
    var sh := s.sh;
    match a
    case CallWait(r, e) =>
      r < c.tp && s.ranks[r].caller.CIdle? && !s.ranks[r].closed && (e == 0 || e != s.ranks[r].join)
    case StepCaller(r, o) =>
      r < c.tp && CallerMismatch(sh, s.ranks[r].caller, o)
    case StepProducer(_) =>
      (match sh.producer
       case PActive(e, _, _) => e != sh.active
       case PLayer(_, l, _) => l != sh.layerId
       case PCount(_, n) => n != sh.expertCount
       case PJoined(e, _) => e != s.ranks[0].join
       case _ => false)
    case StepConsumer(r, o) =>
      r < c.tp &&
      (match s.ranks[r].consumer
       case KCount(_) => sh.expertCount == 0 || c.numExperts[r] < sh.expertCount
       case KScan(e, _, _) => !o.TimesOut? && e < sh.active
       case _ => false)
    case _ => false
  }

  predicate CallerMismatch(sh: Shared, k: Caller, o: Outcome) {
    match k
    case COpening => sh.opener.OActive? && sh.opener.epoch <= sh.active
    case JWait(e, _, _) => !o.TimesOut? && e < sh.active
    case JLayer(_, l, _) => l != sh.layerId
    case JCount(_, _, n) => n != sh.expertCount
    case _ => false
  }

  /** A thread inside a wait whose deadline runs out. */
  predicate Late(c: Config, s: State, a: Action)
    requires Shape(c, s)
  {
    match a
    case StepCaller(r, o) =>
      o.TimesOut? && r < c.tp &&
      (s.ranks[r].caller.JWait? || s.ranks[r].caller.WConsumer? || (s.ranks[r].caller.COpening? && s.sh.opener.OScan?))
    case StepProducer(o) => o.TimesOut? && (s.sh.producer.PScan? || s.sh.producer.PAck? || s.sh.producer.PDrain?)
    case StepConsumer(r, o) =>
      o.TimesOut? && r < c.tp && (s.ranks[r].consumer.KScan? || s.ranks[r].consumer.KEvent?)
    case _ => false
  }

  /** The code that a step reports on a healthy latch, if it reports anything. */
  predicate Reports(c: Config, s: State, a: Action, code: Code)
    requires Shape(c, s)
  {
    match code
    case Protocol => Mismatch(c, s, a)
    case TimedOut => Late(c, s, a)
    case CudaCopy => a.StepConsumer? && a.r < c.tp && s.ranks[a.r].consumer.KCatch? && !s.ranks[a.r].stopping
    case Writer => a.StepProducer? && s.sh.producer.PCatch?
    case ClosedWhileActive => a.StepCaller? && a.r < c.tp && s.ranks[a.r].caller.XPublish?
  }

  /** A step claims a healthy latch if and only if it has one of these reasons, and with the code of the reason. */
  lemma CodeTellsWhy(c: Config, s: State, a: Action, code: Code)
    requires Shape(c, s) && s.poison.Healthy?
    ensures Step(c, s, a).poison == Claimed(code) <==> Reports(c, s, a, code)
    ensures Step(c, s, a).poison.Healthy? || Step(c, s, a).poison.Claimed?
  {
    match a
    case StepCaller(r, o) => if r < c.tp { CallerBlames(c, s, r, o, code); }
    case StepProducer(o) => ProducerBlames(c, s, o, code);
    case StepConsumer(r, o) => if r < c.tp { ConsumerBlames(c, s, r, o, code); }
    case _ =>
    hide ShapeRank, ShapeShared, CallerStep, OpenerStep, ProducerStep, ConsumerStep;
  }

  lemma CallerBlames(c: Config, s: State, r: nat, o: Outcome, code: Code)
    requires Shape(c, s) && s.poison.Healthy? && r < c.tp
    ensures Step(c, s, StepCaller(r, o)).poison == Claimed(code) <==> Reports(c, s, StepCaller(r, o), code)
    ensures var p := Step(c, s, StepCaller(r, o)).poison; p.Healthy? || p.Claimed?
  {
    hide ShapeRank;
  }

  lemma ProducerBlames(c: Config, s: State, o: Outcome, code: Code)
    requires Shape(c, s) && s.poison.Healthy?
    ensures Step(c, s, StepProducer(o)).poison == Claimed(code) <==> Reports(c, s, StepProducer(o), code)
    ensures var p := Step(c, s, StepProducer(o)).poison; p.Healthy? || p.Claimed?
  {
    hide ShapeRank;
  }

  lemma ConsumerBlames(c: Config, s: State, r: nat, o: Outcome, code: Code)
    requires Shape(c, s) && s.poison.Healthy? && r < c.tp
    ensures Step(c, s, StepConsumer(r, o)).poison == Claimed(code) <==> Reports(c, s, StepConsumer(r, o), code)
    ensures var p := Step(c, s, StepConsumer(r, o)).poison; p.Healthy? || p.Claimed?
  {
    hide ShapeRank;
  }

  // ------------------------------------------------------- failures and orders to stop

  /** The writer, a copy, an event or its deadline fails. */
  predicate Fails(c: Config, s: State, a: Action)
    requires Shape(c, s)
  {
    || Late(c, s, a)
    || (a == StepProducer(Errs) && s.sh.producer.PWrite?)
    || (a.StepConsumer? && a.outcome.Errs? && a.r < c.tp
        && (s.ranks[a.r].consumer.KIssue? || s.ranks[a.r].consumer.KRecord? || s.ranks[a.r].consumer.KEvent?))
  }

  /** Out of its call, or in the catch clause that ends it. */
  predicate Thrown(t: State, a: Action) {
    match a
    case StepCaller(r, _) => r < |t.ranks| && (t.ranks[r].caller.CIdle? || (r == 0 && t.sh.opener.ONone?))
    case StepProducer(_) => t.sh.producer.PCatch?
    case StepConsumer(r, _) => r < |t.ranks| && t.ranks[r].consumer.KCatch?
    case _ => false
  }

  /** No failure is passed over: the thread throws at once, nothing is published, acknowledged or returned from. */
  lemma FailureThrows(c: Config, s: State, a: Action)
    requires Shape(c, s) && Fails(c, s, a) && (a.StepCaller? && s.ranks[a.r].caller.COpening? ==> a.r == 0)
    ensures var t := Step(c, s, a);
      && Thrown(t, a) && t.sh.publications == s.sh.publications && t.sh.producerDone == s.sh.producerDone
      && |t.ranks| == |s.ranks|
      && forall q :: 0 <= q < |s.ranks| ==>
           && t.ranks[q].consumed == s.ranks[q].consumed && t.ranks[q].consumerDone == s.ranks[q].consumerDone
           && t.ranks[q].waitReturned == s.ranks[q].waitReturned && t.ranks[q].join == s.ranks[q].join
  {
    hide ShapeRank;
    match a
    case StepCaller(_, _) => hide ProducerStep, ConsumerStep, CloseStep;
    case StepProducer(_) => hide CallerStep, OpenerStep, ConsumerStep;
    case StepConsumer(_, _) => hide CallerStep, OpenerStep, ProducerStep, SeekStep, FinishStep, CatchStep;
    case _ =>
  }

  /** A catch clause ends its thread's call with the latch set, a consumer that was told to stop excepted. */
  lemma CatchTells(c: Config, s: State, r: nat, o: Outcome)
    requires Shape(c, s) && r < c.tp
    ensures s.sh.producer.PCatch? ==>
              var t := Step(c, s, StepProducer(o)); t.sh.producer.PIdle? && !t.poison.Healthy?
    ensures s.ranks[r].consumer.KCatch? ==>
              var t := Step(c, s, StepConsumer(r, o));
              t.ranks[r].consumer.KStopped? && (t.poison.Healthy? ==> s.ranks[r].stopping)
  {
    hide ShapeRank, CallStep, ExpertStep, SeekStep, PollStep, CopyStep, FinishStep;
  }

  /** On a rank that was told to stop, no wait begins again: each look at what is waited for is nearer to the end of
      the wait, one way or the other. */
  lemma StoppingEndsWaits(c: Config, s: State, r: nat, o: Outcome)
    requires Shape(c, s) && r < c.tp && s.ranks[r].stopping
    ensures !s.ranks[r].caller.COpening? && CallerLeft(s.ranks[r].caller) > 0 ==>
              CallerLeft(Step(c, s, StepCaller(r, o)).ranks[r].caller) < CallerLeft(s.ranks[r].caller)
    ensures ConsumerLeft(s.ranks[r].consumer) > 0 ==>
              ConsumerLeft(Step(c, s, StepConsumer(r, o)).ranks[r].consumer) < ConsumerLeft(s.ranks[r].consumer)
  {
    hide ShapeRank, OpenerStep, SeekStep, FinishStep, CatchStep, CloseStep;
    var k := s.ranks[r].consumer;
    if Polling(k) { PollEnds(s.poison, s.sh, s.ranks[r], o); }
    else if Copying(k) { CopyEnds(s.poison, s.ranks[r], o); }
    hide PollStep, CopyStep;
  }

  lemma PollEnds(p: Poison, sh: Shared, rk: Rank, o: Outcome)
    requires |sh.ready| == SLOTS && ShapeRank(rk) && rk.stopping && Polling(rk.consumer)
    ensures |rk.lastReady| == SLOTS
    ensures ConsumerLeft(PollStep(p, sh, rk, o).1.consumer) < ConsumerLeft(rk.consumer)
  {
  }

  lemma CopyEnds(p: Poison, rk: Rank, o: Outcome)
    requires ShapeRank(rk) && rk.stopping && Copying(rk.consumer)
    ensures ConsumerLeft(rk.consumer) > 0 ==>
              ConsumerLeft(CopyStep(p, rk, o).1.consumer) < ConsumerLeft(rk.consumer)
  {
    hide ShapeRank;
  }

  /** The same for the two threads that only rank zero has. */
  lemma StoppingEndsZero(c: Config, s: State, o: Outcome)
    requires Shape(c, s) && s.ranks[0].stopping
    ensures s.ranks[0].caller.COpening? && s.sh.opener.OScan? ==>
              OpenerLeft(c, Step(c, s, StepCaller(0, o)).sh.opener) < OpenerLeft(c, s.sh.opener)
    ensures s.sh.producer.PScan? || s.sh.producer.PAck? || s.sh.producer.PDrain? ==>
              ProducerLeft(c, Step(c, s, StepProducer(o)).sh.producer) < ProducerLeft(c, s.sh.producer)
  {
    hide ShapeRank, CallerStep;
    if Calling(s.sh.producer) { hide ExpertStep, DrainStep; }
    else if OnExpert(s.sh.producer) { hide CallStep, DrainStep; }
    else { hide CallStep, ExpertStep; }
  }

  // ------------------------------------------------------- close by itself

  /** The rank's own next steps, one after the other. */
  function Alone(c: Config, s: State, r: nat, n: nat): (t: State)
    requires Shape(c, s)
    ensures Shape(c, t)
  {
    if n == 0 then s
    else
      var before := Alone(c, s, r, n - 1);
      ShapeKept(c, before, StepCaller(r, Go));
      Step(c, before, StepCaller(r, Go))
  }

  function With(s: State, r: nat, p: Poison, rk: Rank): State
    requires r < |s.ranks|
  {
    s.(poison := p, ranks := s.ranks[r := rk])
  }

  lemma CloseCalled(c: Config, s: State, r: nat)
    requires Shape(c, s) && r < c.tp && s.ranks[r].caller.CIdle? && !s.ranks[r].closed
    ensures Shape(c, Step(c, s, CallClose(r)))
    ensures Step(c, s, CallClose(r)) == With(s, r, s.poison, s.ranks[r].(closed := true, caller := XActive))
  {
    ShapeKept(c, s, CallClose(r));
    hide ShapeRank;
  }

  /** One more of its own steps. */
  lemma CloseSteps(c: Config, s: State, r: nat, n: nat, p: Poison, was: Rank, q: Poison, now: Rank)
    requires Shape(c, s) && r < c.tp && Closing(was.caller)
    requires Alone(c, s, r, n) == With(s, r, p, was)
    requires ShapeRank(was) && CloseStep(p, s.sh, was) == (q, now)
    ensures Alone(c, s, r, n + 1) == With(s, r, q, now)
  {
    hide ShapeRank, CloseStep;
    assert s.ranks[r := was][r := now] == s.ranks[r := now];
  }

  /** Where `close` goes from each of its places. */
  lemma ClosePlaces(p: Poison, sh: Shared, rk: Rank)
    requires ShapeRank(rk) && !rk.consumer.KStopped?
    ensures CloseStep(p, sh, rk.(caller := XActive)) == (p, rk.(caller := XDone(sh.active)))
    ensures CloseStep(p, sh, rk.(caller := XDone(sh.active)))
         == (p, rk.(caller := if sh.active != 0 && rk.consumerDone < sh.active then XPublish else XStop))
    ensures CloseStep(p, sh, rk.(caller := XPublish)) == (Claim(p, ClosedWhileActive), rk.(caller := XStop))
    ensures CloseStep(p, sh, rk.(caller := XStop)) == (p, rk.(stopping := true, caller := XReap))
    ensures var reaping := rk.(stopping := true, caller := XReap); CloseStep(p, sh, reaping) == (p, reaping)
  {
    hide ShapeRank;
  }

  /** `close` of a rank that has finished the active epoch, or of one with none, leaves a healthy latch healthy; any
      other reports that it closed in the middle. It marks the rank closed, tells its consumer to stop, and does
      nothing else. */
  lemma CloseAlone(c: Config, s: State, r: nat)
    requires Shape(c, s) && r < c.tp && s.ranks[r].caller.CIdle? && !s.ranks[r].closed
    requires !s.ranks[r].consumer.KStopped?
    ensures Shape(c, Step(c, s, CallClose(r)))
    ensures var unfinished := s.sh.active != 0 && s.ranks[r].consumerDone < s.sh.active;
      Alone(c, Step(c, s, CallClose(r)), r, 4)
      == With(s, r, if unfinished && s.poison.Healthy? then Claimed(ClosedWhileActive) else s.poison,
              s.ranks[r].(closed := true, stopping := true, caller := XReap))
  {
    var rk := s.ranks[r].(closed := true, caller := XActive);
    var unfinished := s.sh.active != 0 && s.ranks[r].consumerDone < s.sh.active;
    var p := if unfinished then Claim(s.poison, ClosedWhileActive) else s.poison;
    CloseCalled(c, s, r);
    var called := Step(c, s, CallClose(r));
    var done, looked := rk.(caller := XDone(s.sh.active)), rk.(caller := if unfinished then XPublish else XStop);
    var third := if unfinished then rk.(caller := XStop) else rk.(stopping := true, caller := XReap);
    assert ShapeRank(s.ranks[r]) && called.ranks[r := rk] == called.ranks;
    ClosePlaces(s.poison, s.sh, rk);
    ClosePlaces(p, s.sh, rk);
    hide Step, ShapeShared, ShapeRank, CloseStep;
    CloseSteps(c, called, r, 0, s.poison, rk, s.poison, done);
    CloseSteps(c, called, r, 1, s.poison, done, s.poison, looked);
    CloseSteps(c, called, r, 2, s.poison, looked, p, third);
    CloseSteps(c, called, r, 3, p, third, p, rk.(stopping := true, caller := XReap));
  }

  // ------------------------------------------------------- the byte counters

  /** Rank zero has been at this rank's counter, and not yet activated. */
  predicate Passed(o: Opener, r: nat) { (o.OBytes? && r < o.k) || o.OActivate? }

  /** While rank zero stores, no consumer is inside an epoch. */
  lemma NobodyCounts(c: Config, s: State, r: nat)
    requires Inv(c, s) && r < c.tp && Storing(s.sh.opener)
    ensures !s.ranks[r].consumer.KBytes?
  {
    assert RankInv(c, s.poison, s.sh, r, s.ranks[r]);
    hide PublicationsShared, ReadyShared, ProducedShared, CallAt, LogShared, RunAt, RerunAt, FillAt;
    hide Acked, Arguments, BytesAt, SeekAt, GenerationAt, CloseAt, JoinAt, WaitAt;
    hide LocalBytesAt, AckCounts, AckCells, SeenByProducer, Stream, Memory, History, SeenByScan, ShapeRank;
  }

  lemma OpenerClears(c: Config, s: State, o: Outcome, r: nat)
    requires Shape(c, s) && s.ranks[0].caller.COpening? && r < c.tp
    requires Passed(s.sh.opener, r) ==> s.ranks[r].bytes == 0
    ensures Shape(c, Step(c, s, StepCaller(0, o)))
    ensures var t := Step(c, s, StepCaller(0, o)); Passed(t.sh.opener, r) ==> t.ranks[r].bytes == 0
  {
    ShapeKept(c, s, StepCaller(0, o));
    hide ShapeRank;
  }

  lemma CallerClears(c: Config, s: State, q: nat, o: Outcome, r: nat)
    requires Shape(c, s) && r < c.tp && q < c.tp && !s.ranks[q].caller.COpening?
    ensures var t := Step(c, s, StepCaller(q, o)); Shape(c, t) && t.sh == s.sh && t.ranks[r].bytes == s.ranks[r].bytes
  {
    ShapeKept(c, s, StepCaller(q, o));
    CallerKeepsMemory(s.poison, s.sh, s.ranks[q], o);
    hide ShapeRank, CallerStep;
  }

  lemma ConsumerClears(c: Config, s: State, q: nat, o: Outcome, r: nat)
    requires Shape(c, s) && r < c.tp && q < c.tp && (q == r ==> !s.ranks[r].consumer.KBytes?)
    ensures var t := Step(c, s, StepConsumer(q, o));
      Shape(c, t) && t.sh == s.sh && t.ranks[r].bytes == s.ranks[r].bytes
  {
    ShapeKept(c, s, StepConsumer(q, o));
    if q == r { ConsumerKeepsMemory(c, s.poison, s.sh, s.ranks[r], r, o); }
    hide ShapeRank, ConsumerStep;
  }

  lemma OthersClear(c: Config, s: State, a: Action, r: nat)
    requires Shape(c, s) && r < c.tp && !a.StepCaller? && !a.StepConsumer?
    ensures Shape(c, Step(c, s, a))
    ensures var t := Step(c, s, a);
      t.ranks[r].bytes == s.ranks[r].bytes && (Passed(t.sh.opener, r) ==> Passed(s.sh.opener, r))
  {
    ShapeKept(c, s, a);
    if a.StepProducer? { ProducerKeepsEpoch(c, s, a.outcome); }
    hide ShapeRank, ProducerStep;
  }

  lemma StepClears(c: Config, s: State, a: Action, r: nat)
    requires Inv(c, s) && Shape(c, s) && r < c.tp && (Passed(s.sh.opener, r) ==> s.ranks[r].bytes == 0)
    ensures Shape(c, Step(c, s, a))
    ensures var t := Step(c, s, a); Passed(t.sh.opener, r) ==> t.ranks[r].bytes == 0
  {
    ShapeKept(c, s, a);
    if a.StepCaller? && a.r < c.tp && s.ranks[a.r].caller.COpening? { OnlyZeroOpens(c, s, a.r); }
    if Passed(s.sh.opener, r) { NobodyCounts(c, s, r); }
    hide Inv, ShapeRank, ShapeShared;
    match a
    case StepCaller(q, o) =>
      if q >= c.tp { assert Step(c, s, a) == s; return; }
      hide Step;
      if s.ranks[q].caller.COpening? { OpenerClears(c, s, o, r); } else { CallerClears(c, s, q, o, r); }
    case StepConsumer(q, o) =>
      if q >= c.tp { assert Step(c, s, a) == s; return; }
      if q == r && s.ranks[r].consumer.KBytes? { KeepsShared(c, s, q, o); return; }
      hide Step;
      ConsumerClears(c, s, q, o, r);
    case _ =>
      hide Step;
      OthersClear(c, s, a, r);
  }

  lemma KeepsShared(c: Config, s: State, q: nat, o: Outcome)
    requires Shape(c, s)
    ensures Step(c, s, StepConsumer(q, o)).sh == s.sh
  {
    hide ShapeRank, ConsumerStep;
  }

  /** An epoch is activated with every rank's byte counter at zero. */
  lemma {:induction false} CountersCleared(c: Config, schedule: seq<Action>, r: nat)
    requires ValidConfig(c) && r < c.tp
    ensures var s := Run(c, Init(c), schedule); Passed(s.sh.opener, r) ==> s.ranks[r].bytes == 0
  {
    hide Inv, Step, ShapeRank, ShapeShared;
    if schedule != [] {
      var n := |schedule| - 1;
      CountersCleared(c, schedule[..n], r);
      RunThen(c, Init(c), schedule[..n], schedule[n]);
      assert schedule[..n] + [schedule[n]] == schedule;
      var s := Run(c, Init(c), schedule[..n]);
      assert Reachable(c, s);
      ReachableInv(c, s);
      StepClears(c, s, schedule[n], r);
    }
  }
}
