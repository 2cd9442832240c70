/** What the layerwise transport guarantees, for every schedule. */
module TransportTheorems {
  import opened TransportModel
  import opened TransportInvariant
  import opened TransportSafety

  /** The states some schedule leads to. */
  ghost predicate Reachable(c: Config, s: State) {
    ValidConfig(c) && exists schedule :: s == Run(c, Init(c), schedule)
  }

  lemma ReachableInv(c: Config, s: State)
    requires Reachable(c, s)
    ensures Inv(c, s)
  {
    InitInv(c);
    var schedule :| s == Run(c, Init(c), schedule);
    RunInv(c, Init(c), schedule);
  }

  lemma {:induction false} RunThen(c: Config, s: State, schedule: seq<Action>, a: Action)
    requires Shape(c, s)
    ensures Run(c, s, schedule + [a]) == Step(c, Run(c, s, schedule), a)
    decreases |schedule|
  {
    hide Step, Shape;
    ShapeKept(c, s, (schedule + [a])[0]);
    if schedule == [] {
      assert ([] + [a])[1..] == [];
    } else {
      assert (schedule + [a])[1..] == schedule[1..] + [a];
      RunThen(c, Step(c, s, schedule[0]), schedule[1..], a);
    }
  }

  lemma StaysReachable(c: Config, s: State, a: Action)
    requires Reachable(c, s) && Shape(c, s)
    ensures Reachable(c, Step(c, s, a))
  {
    hide Step;
    var schedule :| s == Run(c, Init(c), schedule);
    RunThen(c, Init(c), schedule, a);
    assert Step(c, s, a) == Run(c, Init(c), schedule + [a]);
  }

  lemma ReachableShape(c: Config, s: State)
    requires Reachable(c, s)
    ensures Shape(c, s)
  {
    var schedule :| s == Run(c, Init(c), schedule);
  }

  // --------------------------------------------------------------- delivery

  /** Copying every expert of a run to every rank: what rank q's GPU has to show. */
  function CopyAll(produced: seq<seq<seq<Block>>>, q: nat): (gpu: map<(nat, nat), Block>)
    requires forall x :: 0 <= x < |produced| ==> q < |produced[x]| && |produced[x][q]| == KINDS
  {
    map x: nat, y: nat | x < |produced| && y < KINDS :: (x, y) := produced[x][q][y]
  }

  /** The run of epoch e produced all its experts, and rank q's GPU shows them. */
  ghost predicate Delivered(s: State, e: nat, q: nat)
    requires q < |s.ranks|
  {
    var log := s.sh.log;
    && log.epoch == e && |log.produced| == log.count
    && (forall x :: 0 <= x < |log.produced| ==> q < |log.produced[x]| && |log.produced[x][q]| == KINDS)
    && (forall k :: k in CopyAll(log.produced, q) ==>
          k in s.ranks[q].gpu && s.ranks[q].gpu[k] == CopyAll(log.produced, q)[k])
  }

  /** `wait` is past its gate: it can only return. */
  predicate Returning(k: Caller) { k.WLayer? || k.WCount? || k.WBytes? || k.WStore? }

  /** When `wait(e)` returns on one rank, every rank's GPU holds what the writer produced for e. */
  lemma EndToEndDelivery(c: Config, s: State, r: nat, q: nat)
    requires Reachable(c, s) && r < c.tp && q < c.tp
    requires |s.ranks| == c.tp && Returning(s.ranks[r].caller)
    ensures Delivered(s, s.ranks[r].caller.epoch, q)
    ensures s.sh.log.count == s.ranks[r].joinCount
  {
    ReachableInv(c, s);
    assert RankInv(c, s.poison, s.sh, r, s.ranks[r]) && RankInv(c, s.poison, s.sh, q, s.ranks[q]);
    hide SharedInv, RankInv, Reachable;
    DeliveredWhenDone(c, s.poison, s.sh, r, s.ranks[r], q, s.ranks[q]);
  }

  lemma DeliveredWhenDone(c: Config, p: Poison, sh: Shared, r: nat, rr: Rank, q: nat, rq: Rank)
    requires SharedInv(c, sh) && r < c.tp && q < c.tp
    requires RankInv(c, p, sh, r, rr) && RankInv(c, p, sh, q, rq)
    requires Returning(rr.caller)
    ensures sh.log.epoch == rr.caller.epoch && |sh.log.produced| == sh.log.count == rr.joinCount
    ensures forall x :: 0 <= x < |sh.log.produced| ==>
              q < |sh.log.produced[x]| && PartOnGpu(sh.log.produced[x][q], rq.gpu, x, KINDS)
  {
    hide PublicationsShared, ReadyShared, RunAt, RerunAt, CallAt, TotalBytes, SlotSequence, HostHolds, PartOnGpu;
    assert sh.log.epoch == rr.caller.epoch;
    assert Acked(sh.log, rq.runEpoch, rq.acked) == sh.log.count;
  }

  /** What one step may do to the log. */
  predicate LogMoves(c: Config, s: State, was: RunLog, now: RunLog)
    requires Shape(c, s)
  {
    || now == was
    || (now.epoch > was.epoch && now.produced == [])
    || now == was.(published := was.published + 1)
    || (s.sh.producer.PWrite? && s.sh.producer.expert == |was.produced|
        && now == was.(produced := was.produced + [HostSlots(c, s, s.sh.producer.expert % SLOTS)]))
  }

  lemma CallLogs(c: Config, s: State, o: Outcome)
    requires Shape(c, s)
    ensures LogMoves(c, s, s.sh.log, CallStep(c, s, o).1.log)
  {
    hide ShapeRank, HostSlots;
    if s.sh.producer.PScan? {} else if s.sh.producer.PGate? {} else {}
  }

  lemma ExpertLogs(c: Config, s: State, o: Outcome)
    requires Shape(c, s)
    requires s.sh.producer.PWrite? && !s.sh.rerun ==> s.sh.producer.expert == |s.sh.log.produced|
    ensures LogMoves(c, s, s.sh.log, ExpertStep(c, s, o).1.log)
  {
    hide ShapeRank, HostSlots;
    if s.sh.producer.PAck? {} else if s.sh.producer.PSequence? {} else if s.sh.producer.PWrite? {} else {}
  }

  lemma DrainLogs(c: Config, s: State, o: Outcome)
    requires Shape(c, s)
    ensures LogMoves(c, s, s.sh.log, DrainStep(c, s, o).1.log)
  {
    hide ShapeRank, HostSlots;
  }

  /** The writer is always on the next expert of the log. */
  lemma WriterOnNext(c: Config, sh: Shared)
    requires SharedInv(c, sh) && sh.producer.PWrite? && !sh.rerun
    ensures sh.producer.expert == |sh.log.produced|
  {
    hide PublicationsShared, ReadyShared, OpenerShared, FillAt, EpochsShared, LogShared, CallAt, SlotSequence;
  }

  /** The log is history: within a run it only grows, by what every rank's slot holds when the writer returns. */
  lemma LogIsHistory(c: Config, s: State, a: Action)
    requires Reachable(c, s) && Shape(c, s)
    ensures LogMoves(c, s, s.sh.log, Step(c, s, a).sh.log)
    ensures Step(c, s, a).sh.log != s.sh.log ==> a.StepProducer?
  {
    ReachableInv(c, s);
    hide SharedInv, RankInv, ConsumerStep, CallerStep, OpenerStep, CallStep, ExpertStep, DrainStep, DeviceStep;
    hide Reachable;
    match a
    case StepProducer(o) =>
      if s.sh.producer.PWrite? && !s.sh.rerun { WriterOnNext(c, s.sh); }
      CallLogs(c, s, o);
      ExpertLogs(c, s, o);
      DrainLogs(c, s, o);
      hide LogMoves, Shape;
    case StepCaller(_, o) => OpenerClaims(c, s, o); hide Shape;
    case _ =>
  }

  /**
   Every copy waiting in a stream, in any run however it ends, reads what the writer of the run
   under way produced for that rank, expert and kind: it is still in its slot.
   */
  lemma CopiesIntact(c: Config, s: State, r: nat, i: nat)
    requires Reachable(c, s) && r < c.tp && |s.ranks| == c.tp && i < |s.ranks[r].dma|
    ensures var log, rk := s.sh.log, s.ranks[r]; var cp := rk.dma[i];
            && rk.runEpoch == log.epoch && cp.expert < log.published <= |log.produced|
            && r < |log.produced[cp.expert]| && cp.slot == cp.expert % SLOTS < |rk.host|
            && cp.kind < KINDS == |rk.host[cp.slot]|
            && rk.host[cp.slot] == log.produced[cp.expert][r]
  {
    ReachableInv(c, s);
    CopyIntact(c, s.poison, s.sh, r, s.ranks[r], i);
  }

  lemma CopyIntact(c: Config, p: Poison, sh: Shared, r: nat, rk: Rank, i: nat)
    requires SharedInv(c, sh) && r < c.tp && RankInv(c, p, sh, r, rk) && i < |rk.dma|
    ensures var cp := rk.dma[i];
            && rk.runEpoch == sh.log.epoch && cp.expert < sh.log.published <= |sh.log.produced|
            && r < |sh.log.produced[cp.expert]| && cp.slot == cp.expert % SLOTS < |rk.host|
            && cp.kind < KINDS == |rk.host[cp.slot]|
            && rk.host[cp.slot] == sh.log.produced[cp.expert][r]
  {
    hide PublicationsShared, ReadyShared, RunAt, RerunAt, CallAt, TotalBytes, SlotSequence, PartOnGpu, GpuHolds;
    hide OpenerShared, EpochsShared, LogShared, FillAt, Lockstep, SeenByOpener, SeenByScan, Arguments, JoinAt, WaitAt;
    hide BytesAt, CloseAt, SeekAt, EpochAt, GenerationAt, LocalBytesAt, AckCells, SeenByProducer, History;
  }

  // ------------------------------------------------------------- slot reuse

  /** Copies under way, and copies still to come, leave the slot alone. */
  predicate SlotIsFree(sh: Shared, rk: Rank, slot: nat) {
    && (forall i :: 0 <= i < |rk.dma| ==> rk.dma[i].slot != slot)
    && (OnCopy(rk.consumer) ==> rk.consumer.expert % SLOTS != slot)
    && (forall x :: Acked(sh.log, rk.runEpoch, rk.acked) <= x < sh.log.published ==> x % SLOTS != slot)
  }

  /** While the writer runs, no rank copies from the slot or still has to. */
  lemma SlotReuse(c: Config, s: State, q: nat)
    requires Reachable(c, s) && q < c.tp && |s.ranks| == c.tp && s.sh.producer.PWrite?
    ensures SlotIsFree(s.sh, s.ranks[q], s.sh.producer.expert % SLOTS)
  {
    ReachableInv(c, s);
    hide Reachable, SlotIsFree;
    SlotFreed(c, s.poison, s.sh, q, s.ranks[q]);
  }

  lemma SlotFreed(c: Config, p: Poison, sh: Shared, q: nat, rk: Rank)
    requires SharedInv(c, sh) && q < c.tp && RankInv(c, p, sh, q, rk) && sh.producer.PWrite?
    ensures SlotIsFree(sh, rk, sh.producer.expert % SLOTS)
  {
    hide PublicationsShared, ReadyShared, CallAt, Memory, History, AckCells, OpenerShared, EpochsShared;
    hide ProducedShared, FillAt, Lockstep, SeenByOpener, SeenByScan, Arguments, JoinAt, WaitAt, BytesAt, CloseAt;
    hide SeekAt, LocalBytesAt, SlotSequence, TotalBytes, ShapeRank;
  }

  // --------------------------------------------------------------- lockstep

  /** Every rank's cells are ordered and at most one epoch behind. */
  lemma EpochLockstep(c: Config, s: State, r: nat)
    requires Reachable(c, s) && r < c.tp && |s.ranks| == c.tp
    ensures var sh, rk := s.sh, s.ranks[r];
            && rk.waitReturned <= rk.consumerDone <= rk.join <= sh.active
            && rk.waitReturned <= sh.producerDone <= sh.active
            && (rk.waitReturned == sh.active || rk.waitReturned == sh.previous)
            && (sh.active > 0 ==> sh.previous < sh.active)
  {
    ReachableInv(c, s);
    assert RankInv(c, s.poison, s.sh, r, s.ranks[r]);
    hide PublicationsShared, ReadyShared, CallAt, Memory, History, AckCells, RunAt, RerunAt, LogShared;
  }

  /** Rank zero overwrites the cells of an epoch only after every rank has returned from it and its run has ended. */
  lemma StoresAfterReturns(c: Config, s: State, q: nat)
    requires Reachable(c, s) && q < c.tp && |s.ranks| == c.tp && Storing(s.sh.opener)
    ensures var sh, rk := s.sh, s.ranks[q];
            && rk.waitReturned == rk.consumerDone == rk.join == sh.producerDone == sh.active < sh.opener.epoch
  {
    ReachableInv(c, s);
    assert RankInv(c, s.poison, s.sh, q, s.ranks[q]);
    hide PublicationsShared, ReadyShared, CallAt, Memory, History, AckCells, RunAt, RerunAt, LogShared, ProducedShared;
    hide WaitAt, CloseAt, SeekAt, EpochAt, GenerationAt, LocalBytesAt, AckCounts, SeenByProducer, Stream, JoinAt;
  }

  /** `previous` is the epoch that was active just before: it moves only when rank zero activates the next. */
  lemma PreviousIsPreceding(c: Config, s: State, a: Action)
    requires Shape(c, s)
    ensures var t := Step(c, s, a);
            || (t.sh.active == s.sh.active && t.sh.previous == s.sh.previous)
            || (t.sh.previous == s.sh.active && s.sh.opener.OActivate? && t.sh.active == s.sh.opener.epoch)
  {
    hide OpenerStep, OpenerEffect, CallerStep, ProducerStep, ConsumerStep, DeviceStep, ShapeRank;
    match a
    case StepProducer(o) => ProducerKeepsEpoch(c, s, o);
    case StepCaller(_, o) => OpenerActivates(c, s, o);
    case _ =>
  }

  lemma OpenerActivates(c: Config, s: State, o: Outcome)
    requires Shape(c, s)
    ensures var t := OpenerStep(c, s, o).1;
            || (t.active == s.sh.active && t.previous == s.sh.previous)
            || (t.previous == s.sh.active && s.sh.opener.OActivate? && t.active == s.sh.opener.epoch)
  {
    hide ShapeRank;
  }

  // ------------------------------------------------------- lag and publications

  /** No two ranks are more than two experts apart, and none is more than two behind the producer. */
  lemma BoundedLag(c: Config, s: State, r: nat, q: nat)
    requires Reachable(c, s) && r < c.tp && q < c.tp && |s.ranks| == c.tp
    ensures |s.sh.publications| - 2 <= |s.ranks[r].consumed| <= |s.sh.publications|
    ensures |s.ranks[r].consumed| <= |s.ranks[q].consumed| + 2
  {
    ReachableInv(c, s);
    assert RankInv(c, s.poison, s.sh, r, s.ranks[r]) && RankInv(c, s.poison, s.sh, q, s.ranks[q]);
    hide SharedInv, Memory, AckCells;
  }

  /** Each rank has consumed every publication exactly once and in order, up to where it stands. */
  lemma ConsumedInOrder(c: Config, s: State, r: nat)
    requires Reachable(c, s) && r < c.tp && |s.ranks| == c.tp
    ensures s.ranks[r].consumed <= s.sh.publications
    ensures forall i, j :: 0 <= i < j < |s.sh.publications| ==>
              s.sh.publications[i].sequence < s.sh.publications[j].sequence
  {
    ReachableInv(c, s);
    assert RankInv(c, s.poison, s.sh, r, s.ranks[r]);
    hide Memory, AckCells;
  }

  /** The three separate loads never mix two publications: what a rank accepts is the next one, whole. */
  lemma Untorn(c: Config, s: State, r: nat)
    requires Reachable(c, s) && r < c.tp && |s.ranks| == c.tp
    requires s.ranks[r].consumer.KGate? || OnCopy(s.ranks[r].consumer)
    ensures var k, n := s.ranks[r].consumer, |s.ranks[r].consumed|;
            n < |s.sh.publications| && s.sh.publications[n] == Publication(k.seen, k.epoch, k.expert)
  {
    ReachableInv(c, s);
    assert RankInv(c, s.poison, s.sh, r, s.ranks[r]);
    hide ReadyShared, ProducedShared, CallAt, RunAt, RerunAt, OpenerShared, Memory, Stream, AckCells, WaitAt, JoinAt;
  }

  // ------------------------------------------------------------ abandonment

  /**
   A producer, consumer or closing rank that stops short of the epoch's end leaves the latch set;
   so does a producer that leaves its call at any point but the announcement of the end.
   */
  lemma NoSilentAbandonment(c: Config, s: State, r: nat, o: Outcome)
    requires Reachable(c, s) && Shape(c, s) && r < c.tp
    ensures || (s.sh.producer.PIdle? && s.sh.producerDone < s.sh.log.epoch)
            || ((s.ranks[r].consumer.KStopped? || s.ranks[r].stopping) && s.ranks[r].consumerDone < s.ranks[r].join)
            ==> !s.poison.Healthy?
    ensures var t := Step(c, s, StepProducer(o));
            !s.sh.producer.PIdle? && !s.sh.producer.PDone? && t.sh.producer.PIdle? ==> !t.poison.Healthy?
  {
    ReachableInv(c, s);
    StoppedShort(c, s, r);
    hide Inv, Shape, Reachable, CallStep, ExpertStep, DrainStep;
    if Calling(s.sh.producer) { CallLeavesTold(c, s, o); }
    else if OnExpert(s.sh.producer) { ExpertStays(c, s, o); }
    else if !s.sh.producer.PIdle? && !s.sh.producer.PDone? { DrainLeavesTold(c, s, o); }
  }

  lemma StoppedShort(c: Config, s: State, r: nat)
    requires Inv(c, s) && r < c.tp && |s.ranks| == c.tp
    ensures || (s.sh.producer.PIdle? && s.sh.producerDone < s.sh.log.epoch)
            || ((s.ranks[r].consumer.KStopped? || s.ranks[r].stopping) && s.ranks[r].consumerDone < s.ranks[r].join)
            ==> !s.poison.Healthy?
  {
    assert RankInv(c, s.poison, s.sh, r, s.ranks[r]);
    hide SharedInv, Memory, AckCells;
  }

  lemma CallLeavesTold(c: Config, s: State, o: Outcome)
    requires Shape(c, s) && Calling(s.sh.producer)
    ensures var (p, sh) := CallStep(c, s, o); sh.producer.PIdle? ==> !p.Healthy?
  {
    hide ShapeRank;
    if s.sh.producer.PScan? {} else if s.sh.producer.PGate? {} else {}
  }

  lemma ExpertStays(c: Config, s: State, o: Outcome)
    requires Shape(c, s) && OnExpert(s.sh.producer)
    ensures !ExpertStep(c, s, o).1.producer.PIdle?
  {
    hide ShapeRank;
    if s.sh.producer.PAck? {} else if s.sh.producer.PSequence? {} else {}
  }

  lemma DrainLeavesTold(c: Config, s: State, o: Outcome)
    requires Shape(c, s) && !Calling(s.sh.producer) && !OnExpert(s.sh.producer)
    requires !s.sh.producer.PIdle? && !s.sh.producer.PDone?
    ensures var (p, sh) := DrainStep(c, s, o); sh.producer.PIdle? ==> !p.Healthy?
  {
    hide ShapeRank;
  }

  /** Own steps a thread can still take inside `wait_until`, gate included. */
  function CallerLeft(k: Caller): nat {
    match k
    case JWait(_, _, _) => 2
    case JGate(_, _, _) => 1
    case WConsumer(_) => 3
    case WProducer(_) => 2
    case WGate(_) => 1
    case _ => 0
  }
  function OpenerLeft(c: Config, o: Opener): int {
    if o.OScan? then c.tp - o.k + 1 else if o.OGate? then 1 else 0
  }
  function ProducerLeft(c: Config, p: Producer): int {
    if p.PScan? || p.PAck? || p.PDrain? then c.tp - p.k + 1
    else if p.PGate? || p.PAckGate? || p.PDrainGate? then 1 else 0
  }
  function ConsumerLeft(k: Consumer): nat {
    match k
    case KScan(_, _, _) => 5
    case KSequence(_, _, _) => 4
    case KEpoch(_, _, _, _) => 3
    case KExpert(_, _, _, _) => 2
    case KGate(_, _, _, _) => 1
    case KEvent(_, _, _, _) => 2
    case KEventGate(_, _, _, _) => 1
    case _ => 0
  }

  // Once the latch is set, whoever is inside `wait_until` throws within as many own steps.

  lemma CallersLeave(c: Config, s: State, r: nat, o: Outcome)
    requires Shape(c, s) && r < c.tp && !s.poison.Healthy? && !s.ranks[r].caller.COpening?
    ensures var left, k := CallerLeft(s.ranks[r].caller), Step(c, s, StepCaller(r, o)).ranks[r].caller;
            left > 0 ==> k.CIdle? || 0 < CallerLeft(k) < left
  {
    hide ShapeRank, OpenerStep;
  }

  lemma OpenerLeaves(c: Config, s: State, o: Outcome)
    requires Shape(c, s) && !s.poison.Healthy? && s.ranks[0].caller.COpening?
    ensures var left, k := OpenerLeft(c, s.sh.opener), Step(c, s, StepCaller(0, o)).sh.opener;
            left > 0 ==> k.ONone? || 0 < OpenerLeft(c, k) < left
  {
    hide ShapeRank, CallerStep;
  }

  lemma ProducerLeaves(c: Config, s: State, o: Outcome)
    requires Shape(c, s) && !s.poison.Healthy?
    ensures var left, k := ProducerLeft(c, s.sh.producer), Step(c, s, StepProducer(o)).sh.producer;
            left > 0 ==> k.PCatch? || 0 < ProducerLeft(c, k) < left
  {
    hide ShapeRank;
    if Calling(s.sh.producer) {} else if OnExpert(s.sh.producer) {} else {}
  }

  lemma ConsumersLeave(c: Config, s: State, r: nat, o: Outcome)
    requires Shape(c, s) && r < c.tp && !s.poison.Healthy?
    ensures var left, k := ConsumerLeft(s.ranks[r].consumer), Step(c, s, StepConsumer(r, o)).ranks[r].consumer;
            left > 0 ==> k.KCatch? || 0 < ConsumerLeft(k) < left
  {
    hide SeekStep, PollStep, CopyStep, FinishStep, CatchStep, ShapeRank;
    if Polling(s.ranks[r].consumer) { PollLeaves(s.poison, s.sh, s.ranks[r], o); }
    else if Copying(s.ranks[r].consumer) && ConsumerLeft(s.ranks[r].consumer) > 0 {
      CopyLeaves(s.poison, s.ranks[r], o);
    }
  }

  lemma PollLeaves(p: Poison, sh: Shared, rk: Rank, o: Outcome)
    requires |sh.ready| == SLOTS && ShapeRank(rk) && !p.Healthy? && Polling(rk.consumer)
    ensures |rk.lastReady| == SLOTS
    ensures var k := PollStep(p, sh, rk, o).1.consumer; k.KCatch? || 0 < ConsumerLeft(k) < ConsumerLeft(rk.consumer)
  {
  }

  lemma CopyLeaves(p: Poison, rk: Rank, o: Outcome)
    requires ShapeRank(rk) && !p.Healthy? && Copying(rk.consumer) && ConsumerLeft(rk.consumer) > 0
    ensures var k := CopyStep(p, rk, o).1.consumer; k.KCatch? || 0 < ConsumerLeft(k) < ConsumerLeft(rk.consumer)
  {
    hide ShapeRank;
  }

  /** The latch never goes back to healthy, and its code never changes. */
  lemma PoisonStays(c: Config, s: State, a: Action)
    requires Shape(c, s) && !s.poison.Healthy?
    ensures var p := Step(c, s, a).poison; !p.Healthy? && p.code == s.poison.code
  {
  }

  // ------------------------------------------------------------- statistics

  lemma ModAdds(a: nat, b: nat)
    ensures (a % U64 + b) % U64 == (a + b) % U64
  {
  }

  lemma AddBytesIsSum(total: nat, nbytes: seq<nat>)
    requires |nbytes| == KINDS
    ensures AddBytes(total, nbytes) == (total + (nbytes[0] + nbytes[1] + nbytes[2] + nbytes[3])) % U64
  {
    ModAdds(total + nbytes[0], nbytes[1]);
    ModAdds(total + nbytes[0] + nbytes[1], nbytes[2]);
    ModAdds(total + nbytes[0] + nbytes[1] + nbytes[2], nbytes[3]);
  }

  lemma {:induction false} TotalBytesIsProduct(c: Config, r: nat, n: nat)
    requires ValidConfig(c) && r < c.tp
    ensures TotalBytes(c.nbytes[r], n) == (n * ExpertBytes(c, r)) % U64
  {
    if n > 0 {
      TotalBytesIsProduct(c, r, n - 1);
      AddBytesIsSum(TotalBytes(c.nbytes[r], n - 1), c.nbytes[r]);
      hide AddBytes;
      ModAdds((n - 1) * ExpertBytes(c, r), ExpertBytes(c, r));
      assert n * ExpertBytes(c, r) == (n - 1) * ExpertBytes(c, r) + ExpertBytes(c, r);
    }
  }

  /** The first `wait(e)` of a rank returns what it joined with, and the bytes of all those experts. */
  lemma StableStatistics(c: Config, s: State, r: nat)
    requires Reachable(c, s) && r < c.tp && |s.ranks| == c.tp
    requires s.ranks[r].caller.WStore? && s.ranks[r].waitReturned < s.ranks[r].caller.epoch
    ensures var rk := s.ranks[r];
            && rk.caller.epoch == rk.join
            && rk.caller.layer == rk.joinLayer && rk.caller.count == rk.joinCount
            && rk.caller.bytes == (rk.joinCount * ExpertBytes(c, r)) % U64
  {
    ReachableInv(c, s);
    assert RankInv(c, s.poison, s.sh, r, s.ranks[r]);
    TotalBytesIsProduct(c, r, s.sh.openCount);
    hide PublicationsShared, ReadyShared, CallAt, Memory, History, AckCells, RunAt, RerunAt, LogShared, TotalBytes;
  }

  // ----------------------------------------------------------------- reruns

  lemma CallEndsNothing(c: Config, s: State, o: Outcome)
    requires Shape(c, s)
    ensures var t := CallStep(c, s, o).1; t.producerDone == s.sh.producerDone && (s.sh.rerun ==> t.rerun)
  {
    hide ShapeRank;
    if s.sh.producer.PScan? {} else if s.sh.producer.PGate? {} else {}
  }

  lemma ExpertEndsNothing(c: Config, s: State, o: Outcome)
    requires Shape(c, s)
    ensures var t := ExpertStep(c, s, o).1; t.producerDone == s.sh.producerDone && t.rerun == s.sh.rerun
  {
    hide ShapeRank;
    if s.sh.producer.PAck? {} else if s.sh.producer.PSequence? {} else {}
  }

  lemma DrainEndsAtDone(c: Config, s: State, o: Outcome)
    requires Shape(c, s)
    ensures var t := DrainStep(c, s, o).1;
            t.producerDone == (if s.sh.producer.PDone? then s.sh.producer.epoch else s.sh.producerDone)
            && t.rerun == s.sh.rerun
  {
    hide ShapeRank;
  }

  /** The end of an epoch is announced in one place, and a rerun stays one. */
  lemma OnlyDoneEnds(c: Config, s: State, a: Action)
    requires Shape(c, s)
    ensures var t := Step(c, s, a);
            && t.sh.producerDone
               == (if a.StepProducer? && s.sh.producer.PDone? then s.sh.producer.epoch else s.sh.producerDone)
            && (s.sh.rerun ==> t.sh.rerun)
  {
    hide OpenerStep, OpenerEffect, CallerStep, CallStep, ExpertStep, DrainStep, ConsumerStep, DeviceStep, ShapeRank;
    match a
    case StepProducer(o) =>
      CallEndsNothing(c, s, o);
      ExpertEndsNothing(c, s, o);
      DrainEndsAtDone(c, s, o);
    case StepCaller(_, o) => OpenerClaims(c, s, o);
    case _ =>
  }
}
