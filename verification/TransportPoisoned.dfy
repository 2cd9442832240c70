/** With the latch set the background threads come to their end: consumers stop, and `run_producer` is left. */
module TransportPoisoned {
  import opened TransportModel
  import opened TransportInvariant
  import opened TransportTheorems
  import opened TransportProgress
  import opened TransportRerun
  import opened TransportLeaving
  import opened TransportEnding

  // ------------------------------------------------------------- the consumer

  /** Own steps to the end: every way round the loop passes a gate or a look for work, and both throw. */
  function ConsumerWay(k: Consumer): nat {
    match k
    case KIssue(_, _, _, _, kind) => 40 + if kind < KINDS then KINDS - kind else 0
    case KRecord(_, _, _, _) => 40
    case KEvent(_, _, _, _) => 39
    case KEventGate(_, _, _, _) => 38
    case KLast(_, _, _, _) => 30
    case KAck(_, _, _, _) => 29
    case KBytes(_, _) => 28
    case KDone(_, _) => 27
    case KTop => 26
    case KActive => 25
    case KJoin(_) => 24
    case KCount(_) => 23
    case KScan(_, _, _) => 22
    case KSequence(_, _, _) => 21
    case KEpoch(_, _, _, _) => 20
    case KExpert(_, _, _, _) => 19
    case KGate(_, _, _, _) => 18
    case KCatch => 1
    case KStopped => 0
  }

  lemma SeekPoisoned(c: Config, p: Poison, sh: Shared, rk: Rank, r: nat)
    requires ValidConfig(c) && r < c.tp && ShapeRank(rk) && !p.Healthy? && Seeking(rk.consumer)
    ensures ConsumerWay(SeekStep(c, p, sh, rk, r).1.consumer) < ConsumerWay(rk.consumer)
  {
    hide ShapeRank;
  }

  lemma PollPoisoned(p: Poison, sh: Shared, rk: Rank, o: Outcome)
    requires |sh.ready| == SLOTS && ShapeRank(rk) && !p.Healthy? && Polling(rk.consumer)
    ensures |rk.lastReady| == SLOTS && ConsumerWay(PollStep(p, sh, rk, o).1.consumer) < ConsumerWay(rk.consumer)
  {
    PollLeaves(p, sh, rk, o);
    hide ShapeRank, PollStep;
  }

  lemma CopyPoisoned(p: Poison, rk: Rank, o: Outcome)
    requires ShapeRank(rk) && !p.Healthy? && Copying(rk.consumer)
    ensures ConsumerWay(CopyStep(p, rk, o).1.consumer) < ConsumerWay(rk.consumer)
  {
  }

  lemma FinishPoisoned(c: Config, rk: Rank, r: nat)
    requires ValidConfig(c) && r < c.tp && |rk.lastReady| == SLOTS == |rk.ack| && ShapeRank(rk)
    requires rk.consumer.KLast? || rk.consumer.KAck? || rk.consumer.KBytes? || rk.consumer.KDone?
    ensures ConsumerWay(FinishStep(c, rk, r).consumer) < ConsumerWay(rk.consumer)
  {
    hide ShapeRank;
  }

  lemma ConsumerNearer(c: Config, p: Poison, sh: Shared, rk: Rank, r: nat, o: Outcome)
    requires ValidConfig(c) && r < c.tp && ShapeShared(c, sh) && ShapeRank(rk)
    requires !p.Healthy? && !rk.consumer.KStopped?
    ensures ConsumerWay(ConsumerStep(c, p, sh, rk, r, o).1.consumer) < ConsumerWay(rk.consumer)
  {
    hide SeekStep, PollStep, CopyStep, FinishStep, ConsumerWay;
    var k := rk.consumer;
    if Seeking(k) { SeekPoisoned(c, p, sh, rk, r); }
    else if Polling(k) { PollPoisoned(p, sh, rk, o); }
    else if Copying(k) { CopyPoisoned(p, rk, o); }
    else if k.KCatch? { CatchPoisoned(p, rk); }
    else { FinishPoisoned(c, rk, r); }
  }

  lemma CatchPoisoned(p: Poison, rk: Rank)
    requires ShapeRank(rk) && rk.consumer.KCatch?
    ensures ConsumerWay(CatchStep(p, rk).1.consumer) < ConsumerWay(rk.consumer)
  {
    hide ShapeRank;
  }

  lemma OwnConsumerNearer(c: Config, s: State, r: nat, a: Action)
    requires Shape(c, s) && r < c.tp && !s.poison.Healthy? && !s.ranks[r].consumer.KStopped?
    requires OwnStep(a, ConsumerOf(r))
    ensures Shape(c, Step(c, s, a))
    ensures ConsumerWay(Step(c, s, a).ranks[r].consumer) < ConsumerWay(s.ranks[r].consumer)
  {
    ShapeKept(c, s, a);
    ConsumerNearer(c, s.poison, s.sh, s.ranks[r], r, a.outcome);
    hide ConsumerStep, ConsumerWay, ShapeRank;
  }

  /** A consumer that gets its turns stops once the latch is set, wherever it stands. */
  lemma ConsumerEndsPoisoned(c: Config, sigma: nat -> State, sched: nat -> Action, r: nat, i: nat) returns (n: nat)
    requires Execution(c, sigma, sched) && r < c.tp && TurnsOf(sched, ConsumerOf(r))
    requires !sigma(i).poison.Healthy?
    ensures i <= n && sigma(n).ranks[r].consumer.KStopped?
  {
    var p := (s: State) => r < |s.ranks| && !s.poison.Healthy?;
    var q := (s: State) => r < |s.ranks| && s.ranks[r].consumer.KStopped?;
    var way := (s: State) => if r < |s.ranks| then ConsumerWay(s.ranks[r].consumer) else 0;
    var w := ConsumerOf(r);
    forall j: nat | i <= j ensures Advances(sigma, sched, w, p, q, way, j) {
      hide Reachable, Step, ConsumerWay, Inv;
      assert Shape(c, sigma(j)) && Shape(c, sigma(j + 1)) && sigma(j + 1) == Step(c, sigma(j), sched(j));
      if p(sigma(j)) && !q(sigma(j)) {
        PoisonStays(c, sigma(j), sched(j));
        if OwnStep(sched(j), w) {
          OwnConsumerNearer(c, sigma(j), r, sched(j));
        } else {
          StaysInExecution(c, sigma, sched, j);
          ReachableInv(c, sigma(j));
          OthersKeep(c, sigma(j), w, sched(j));
        }
      }
    }
    assert Shape(c, sigma(i));
    n := LeadsTo(sigma, sched, w, p, q, way, i);
  }

  // ------------------------------------------------------------- the producer

  /** Own steps to the end of `run_producer`: every wait throws, and at most the experts left are written before one. */
  function ProducerWay(c: Config, p: Producer): nat {
    match p
    case PIdle => 0
    case PActive(_, _, _) => c.tp + 9
    case PLayer(_, _, _) => c.tp + 8
    case PCount(_, _) => c.tp + 7
    case PJoined(_, _) => c.tp + 6
    case PScan(_, _, k) => 5 + if k < c.tp then c.tp - k else 0
    case PGate(_, _) => 4
    case PAck(_, _, _, k) => 3 + if k < c.tp then c.tp - k else 0
    case PAckGate(_, _, _) => 2
    case PWrite(_, n, x) => Rest(n, x) + c.tp + 20
    case PNumber(_, n, x) => Rest(n, x) + c.tp + 19
    case PEpoch(_, n, x, _) => Rest(n, x) + c.tp + 18
    case PExpert(_, n, x, _) => Rest(n, x) + c.tp + 17
    case PSequence(_, n, x, _) => Rest(n, x) + c.tp + 16
    case PDrain(_, _, _, k) => 3 + if k < c.tp then c.tp - k else 0
    case PDrainGate(_, _, _) => 2
    case PDone(_) => 1
    case PCatch => 1
  }

  lemma CallPoisoned(c: Config, s: State, o: Outcome)
    requires Shape(c, s) && !s.poison.Healthy? && Calling(s.sh.producer)
    ensures ProducerWay(c, CallStep(c, s, o).1.producer) < ProducerWay(c, s.sh.producer)
  {
    hide ShapeRank;
    if s.sh.producer.PScan? {} else if s.sh.producer.PGate? {} else {}
  }

  lemma ExpertPoisoned(c: Config, s: State, o: Outcome)
    requires Shape(c, s) && !s.poison.Healthy? && OnExpert(s.sh.producer)
    ensures ProducerWay(c, ExpertStep(c, s, o).1.producer) < ProducerWay(c, s.sh.producer)
  {
    hide ShapeRank;
    if s.sh.producer.PSequence? { PublicationNearer(c, s.sh); hide NextExpert, ProducerWay; }
    else if s.sh.producer.PAck? {} else { hide NextExpert, NextDrain; }
  }

  /** After a publication the next expert comes up, or the end. */
  lemma PublicationNearer(c: Config, sh: Shared)
    requires sh.producer.PSequence? && |sh.ready| == SLOTS == |sh.published|
    ensures ProducerWay(c, Published(sh).producer) < ProducerWay(c, sh.producer)
  {
  }

  lemma DrainPoisoned(c: Config, s: State, o: Outcome)
    requires Shape(c, s) && !s.poison.Healthy? && !Calling(s.sh.producer) && !OnExpert(s.sh.producer)
    requires !s.sh.producer.PIdle?
    ensures ProducerWay(c, DrainStep(c, s, o).1.producer) < ProducerWay(c, s.sh.producer)
  {
    hide ShapeRank;
  }

  lemma OwnProducerNearer(c: Config, s: State, a: Action)
    requires Shape(c, s) && !s.poison.Healthy? && !s.sh.producer.PIdle? && OwnStep(a, TheWriter)
    ensures Shape(c, Step(c, s, a)) && ProducerWay(c, Step(c, s, a).sh.producer) < ProducerWay(c, s.sh.producer)
  {
    ShapeKept(c, s, a);
    hide CallStep, ExpertStep, DrainStep, ProducerWay, ShapeRank;
    if Calling(s.sh.producer) { CallPoisoned(c, s, a.outcome); }
    else if OnExpert(s.sh.producer) { ExpertPoisoned(c, s, a.outcome); }
    else { DrainPoisoned(c, s, a.outcome); }
  }

  /** A producer that gets its turns leaves `run_producer` once the latch is set, wherever it stands. */
  lemma ProducerEndsPoisoned(c: Config, sigma: nat -> State, sched: nat -> Action, i: nat) returns (n: nat)
    requires Execution(c, sigma, sched) && TurnsOf(sched, TheWriter) && !sigma(i).poison.Healthy?
    ensures i <= n && sigma(n).sh.producer.PIdle?
  {
    var p := (s: State) => !s.poison.Healthy?;
    var q := (s: State) => s.sh.producer.PIdle?;
    var way := (s: State) => ProducerWay(c, s.sh.producer);
    var w := TheWriter;
    forall j: nat | i <= j ensures Advances(sigma, sched, w, p, q, way, j) {
      hide Reachable, Step, ProducerWay, Inv;
      assert Shape(c, sigma(j)) && Shape(c, sigma(j + 1)) && sigma(j + 1) == Step(c, sigma(j), sched(j));
      if p(sigma(j)) && !q(sigma(j)) {
        PoisonStays(c, sigma(j), sched(j));
        if OwnStep(sched(j), w) {
          OwnProducerNearer(c, sigma(j), sched(j));
        } else {
          StaysInExecution(c, sigma, sched, j);
          ReachableInv(c, sigma(j));
          OthersKeep(c, sigma(j), w, sched(j));
        }
      }
    }
    n := LeadsTo(sigma, sched, w, p, q, way, i);
  }
}
