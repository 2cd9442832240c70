/**
 Healthy epochs end.  Work left is counted in experts to publish and to acknowledge;
 at any moment one agent is due, its every step shortens the way to the next
 publication or acknowledgement, and nobody else can lengthen it.
 */
module TransportProgress {
  import opened TransportModel
  import opened TransportInvariant
  import opened TransportConsumer
  import opened TransportProducer
  import opened TransportSafety
  import opened TransportTheorems

  // ------------------------------------------------------------------- work

  function RunAcked(sh: Shared, rk: Rank): nat {
    if rk.runEpoch == sh.active then rk.acked else 0
  }

  function RunPublished(sh: Shared): nat {
    if sh.log.epoch == sh.active then sh.log.published else 0
  }

  /** Experts this rank still has to acknowledge, and its consumer's own end of the epoch. */
  function RankWork(sh: Shared, rk: Rank): int {
    sh.openCount - RunAcked(sh, rk) + if rk.consumerDone < sh.active then 1 else 0
  }

  /** Experts still to publish, and the producer's own end of the epoch. */
  function ProducerWork(sh: Shared): int {
    sh.openCount - RunPublished(sh) + if sh.producerDone < sh.active then 1 else 0
  }

  function RanksWork(sh: Shared, ranks: seq<Rank>): int {
    if ranks == [] then 0 else RankWork(sh, ranks[0]) + RanksWork(sh, ranks[1..])
  }

  function Work(s: State): int {
    ProducerWork(s.sh) + RanksWork(s.sh, s.ranks)
  }

  /** There is something for this rank's consumer to do. */
  predicate Pending(sh: Shared, rk: Rank) {
    && rk.consumerDone < sh.active
    && (RunAcked(sh, rk) < RunPublished(sh) || (sh.log.epoch == sh.active && RunAcked(sh, rk) == sh.openCount))
  }

  /** The first rank with something to do, or the number of ranks. */
  function FirstPending(sh: Shared, ranks: seq<Rank>): nat {
    if ranks == [] || Pending(sh, ranks[0]) then 0 else 1 + FirstPending(sh, ranks[1..])
  }

  /** Steps of the consumer, and of its copy engine, to its next acknowledgement or to its end of the epoch. */
  function ConsumerWay(rk: Rank): nat {
    match rk.consumer
    case KTop => 22
    case KActive => 21
    case KJoin(_) => 20
    case KCount(_) => 19
    case KScan(_, _, _) => 18
    case KSequence(_, _, _) => 17
    case KEpoch(_, _, _, _) => 16
    case KExpert(_, _, _, _) => 15
    case KGate(_, _, _, _) => 14
    case KIssue(_, _, _, _, k) => (if k < KINDS then 7 + 2 * (KINDS - 1 - k) else 6) + |rk.dma|
    case KRecord(_, _, _, _) => 5 + |rk.dma|
    case KEvent(_, _, _, _) => 4 + |rk.dma|
    case KEventGate(_, _, _, _) => 3
    case KLast(_, _, _, _) => 2
    case KAck(_, _, _, _) => 1
    case KBytes(_, _) => 2
    case KDone(_, _) => 1
    case KCatch => 0
    case KStopped => 0
  }

  /** Steps of the producer to its next publication or to its end of the epoch. */
  function ProducerWay(c: Config, p: Producer): int {
    match p
    case PScan(_, _, k) => c.tp - k + 6
    case PGate(_, _) => 6
    case PAck(_, _, _, k) => c.tp - k + 6
    case PAckGate(_, _, _) => 6
    case PWrite(_, _, _) => 5
    case PNumber(_, _, _) => 4
    case PEpoch(_, _, _, _) => 3
    case PExpert(_, _, _, _) => 2
    case PSequence(_, _, _, _) => 1
    case PDrain(_, _, slot, k) => (if slot == 0 then c.tp + 4 else 2) + c.tp - k
    case PDrainGate(_, _, slot) => if slot == 0 then c.tp + 4 else 2
    case PDone(_) => 1
    case _ => 0
  }

  datatype Agent = TheProducer | TheConsumer(r: nat) | TheCopier(r: nat)

  /** Whose turn it is: the first rank with something to do, else the producer. */
  function Due(s: State): Agent {
    var r := FirstPending(s.sh, s.ranks);
    if r >= |s.ranks| then TheProducer else DueOn(s.ranks[r], r)
  }

  /** A consumer waiting for its copies waits for the copy engine. */
  function DueOn(rk: Rank, r: nat): Agent {
    if rk.consumer.KEvent? && rk.dma != [] then TheCopier(r) else TheConsumer(r)
  }

  /** How far the due agent is from its goal. */
  function Way(c: Config, s: State): int {
    var r := FirstPending(s.sh, s.ranks);
    if r >= |s.ranks| then ProducerWay(c, s.sh.producer) else ConsumerWay(s.ranks[r])
  }

  /** All ranks joined the active epoch and the producer is on its way in it. */
  predicate UnderWay(s: State) {
    && s.sh.active > 0
    && (forall r :: 0 <= r < |s.ranks| ==> s.ranks[r].join == s.sh.active)
    && (|| s.sh.log.epoch == s.sh.active
        || ((s.sh.producer.PScan? || s.sh.producer.PGate?) && s.sh.producer.epoch == s.sh.active))
  }

  /** The producer announced the end and every rank's consumer finished. */
  predicate Finished(s: State) {
    s.sh.producerDone == s.sh.active
    && forall r :: 0 <= r < |s.ranks| ==> s.ranks[r].consumerDone == s.sh.active
  }

  // -------------------------------------------------------------- one rank

  /** No work is added, and a due consumer comes closer unless it waits for its copies. */
  predicate Closer(sh: Shared, rk: Rank, rk': Rank) {
    || RankWork(sh, rk') < RankWork(sh, rk)
    || (&& RankWork(sh, rk') == RankWork(sh, rk)
        && Pending(sh, rk') == Pending(sh, rk)
        && (Pending(sh, rk) ==>
              || ConsumerWay(rk') < ConsumerWay(rk)
              || (rk.consumer.KEvent? && rk.dma != [] && rk' == rk)))
  }

  lemma SeekCloser(c: Config, p: Poison, sh: Shared, r: nat, rk: Rank, o: Outcome)
    requires Before(c, p, sh, r, rk) && p.Healthy? && rk.join == sh.active > 0
    requires ConsumerStep(c, p, sh, rk, r, o).0.Healthy? && Seeking(rk.consumer)
    ensures Closer(sh, rk, ConsumerStep(c, p, sh, rk, r, o).1)
  {
    hide PublicationsShared, ProducedShared, CallAt, FillAt, Arguments, JoinAt, WaitAt, BytesAt, LocalBytesAt, Memory;
    hide History, InFlight;
    hide ReadyShared, RunAt, RerunAt, SeenByProducer, AckCells, Stream;
    match rk.consumer
    case KTop =>
    case KActive =>
    case KJoin(_) =>
    case KCount(_) =>
  }

  /** A due consumer that reads its slot's sequence finds a new one. */
  lemma SequenceIsNew(c: Config, p: Poison, sh: Shared, r: nat, rk: Rank)
    requires Before(c, p, sh, r, rk) && rk.join == sh.active > 0 && Pending(sh, rk) && rk.consumer.KSequence?
    ensures |sh.ready| == SLOTS == |rk.lastReady|
    ensures sh.ready[rk.consumer.expert % SLOTS].sequence != rk.lastReady[rk.consumer.expert % SLOTS]
  {
    hide PublicationsShared, ProducedShared, CallAt, FillAt, Arguments, JoinAt, WaitAt, BytesAt, LocalBytesAt, Memory;
    hide History, InFlight, OpenerShared, SeenByProducer, Stream, CloseAt, RunAt, RerunAt, SeenByOpener, SeenByScan;
    if rk.acked % SLOTS == 0 {} else {}
  }

  /** A due consumer that reads the ids of a publication finds its own. */
  lemma IdsMatch(c: Config, p: Poison, sh: Shared, r: nat, rk: Rank)
    requires Before(c, p, sh, r, rk) && rk.join == sh.active > 0 && Pending(sh, rk)
    requires rk.consumer.KEpoch? || rk.consumer.KExpert?
    ensures |sh.ready| == SLOTS
    ensures rk.consumer.KEpoch? ==> sh.ready[rk.consumer.expert % SLOTS].epoch == rk.consumer.epoch
    ensures rk.consumer.KExpert? ==> sh.ready[rk.consumer.expert % SLOTS].expert == rk.consumer.expert
  {
    hide PublicationsShared, ProducedShared, CallAt, FillAt, Arguments, JoinAt, WaitAt, BytesAt, LocalBytesAt, Memory;
    hide History, InFlight, OpenerShared, AckCells, CloseAt, SlotSequence, SeekAt, Stream, ShapeRank;
    if rk.acked % SLOTS == 0 {} else {}
  }

  /** One polling step of a consumer that finds what it looks for whenever there is something to do. */
  lemma PollStepCloser(p: Poison, sh: Shared, rk: Rank, o: Outcome)
    requires |sh.ready| == SLOTS == |rk.lastReady| && ShapeRank(rk) && Polling(rk.consumer)
    requires p.Healthy? && PollStep(p, sh, rk, o).0.Healthy? && !rk.stopping && rk.dma == []
    requires Pending(sh, rk) ==>
      && (rk.consumer.KSequence? ==>
            sh.ready[rk.consumer.expert % SLOTS].sequence != rk.lastReady[rk.consumer.expert % SLOTS])
      && (rk.consumer.KEpoch? ==> sh.ready[rk.consumer.expert % SLOTS].epoch == rk.consumer.epoch)
      && (rk.consumer.KExpert? ==> sh.ready[rk.consumer.expert % SLOTS].expert == rk.consumer.expert)
    ensures Closer(sh, rk, PollStep(p, sh, rk, o).1)
  {
    hide ShapeRank;
  }

  lemma PollCloser(c: Config, p: Poison, sh: Shared, r: nat, rk: Rank, o: Outcome)
    requires Before(c, p, sh, r, rk) && p.Healthy? && rk.join == sh.active > 0
    requires ConsumerStep(c, p, sh, rk, r, o).0.Healthy? && Polling(rk.consumer)
    ensures Closer(sh, rk, ConsumerStep(c, p, sh, rk, r, o).1)
  {
    PollNotStopping(c, p, sh, r, rk);
    hide Before, Pending, Closer, PollStep, ShapeRank, ShapeShared;
    PollSizes(c, sh, rk);
    if Pending(sh, rk) {
      if rk.consumer.KSequence? { SequenceIsNew(c, p, sh, r, rk); }
      else if rk.consumer.KEpoch? || rk.consumer.KExpert? { IdsMatch(c, p, sh, r, rk); }
    }
    PollStepCloser(p, sh, rk, o);
  }

  lemma PollSizes(c: Config, sh: Shared, rk: Rank)
    requires ShapeRank(rk) && ShapeShared(c, sh)
    ensures |sh.ready| == SLOTS == |rk.lastReady|
  {
  }

  lemma PollNotStopping(c: Config, p: Poison, sh: Shared, r: nat, rk: Rank)
    requires Before(c, p, sh, r, rk) && p.Healthy? && Polling(rk.consumer)
    ensures !rk.stopping && rk.dma == [] && ValidConfig(c) && ShapeRank(rk) && ShapeShared(c, sh)
  {
    hide PublicationsShared, ProducedShared, CallAt, FillAt, Arguments, JoinAt, WaitAt, BytesAt, LocalBytesAt, Memory;
    hide History, InFlight, OpenerShared, AckCells, SlotSequence, SeekAt, ReadyShared, RunAt, RerunAt, LogShared;
  }

  lemma CopyStepCloser(p: Poison, sh: Shared, rk: Rank, o: Outcome)
    requires ShapeRank(rk) && Copying(rk.consumer) && p.Healthy? && !rk.stopping && CopyStep(p, rk, o).0.Healthy?
    ensures Closer(sh, rk, CopyStep(p, rk, o).1)
  {
    match rk.consumer
    case KIssue(_, _, _, _, _) =>
    case KEvent(_, _, _, _) =>
    case _ =>
  }

  lemma CopyCloser(c: Config, p: Poison, sh: Shared, r: nat, rk: Rank, o: Outcome)
    requires Before(c, p, sh, r, rk) && p.Healthy? && rk.join == sh.active > 0
    requires ConsumerStep(c, p, sh, rk, r, o).0.Healthy? && Copying(rk.consumer)
    ensures Closer(sh, rk, ConsumerStep(c, p, sh, rk, r, o).1)
  {
    hide Closer, CopyStep;
    CopyNotStopping(c, p, sh, r, rk);
    CopyStepCloser(p, sh, rk, o);
  }

  lemma CopyNotStopping(c: Config, p: Poison, sh: Shared, r: nat, rk: Rank)
    requires Before(c, p, sh, r, rk) && p.Healthy? && Copying(rk.consumer)
    ensures !rk.stopping
  {
    hide SharedInv, Arguments, JoinAt, WaitAt, BytesAt, LocalBytesAt, Memory, History, AckCells, SeekAt, Stream;
    hide SeenByOpener, SeenByScan, SeenByProducer, GenerationAt, ShapeRank, AckCounts, Acked;
  }

  lemma EndCloser(c: Config, p: Poison, sh: Shared, r: nat, rk: Rank, o: Outcome)
    requires Before(c, p, sh, r, rk) && p.Healthy? && rk.join == sh.active > 0
    requires ConsumerStep(c, p, sh, rk, r, o).0.Healthy? && !Seeking(rk.consumer) && !Polling(rk.consumer)
    requires !Copying(rk.consumer)
    ensures Closer(sh, rk, ConsumerStep(c, p, sh, rk, r, o).1)
  {
    hide PublicationsShared, ProducedShared, CallAt, FillAt, Arguments, JoinAt, WaitAt, BytesAt, LocalBytesAt, Memory;
    hide History, InFlight;
    hide ReadyShared, RunAt, RerunAt, AckCells, SlotSequence, SeenByProducer;
    match rk.consumer
    case KAck(_, _, _, _) =>
    case KDone(_, _) =>
    case _ =>
  }

  lemma ConsumerCloser(c: Config, p: Poison, sh: Shared, r: nat, rk: Rank, o: Outcome)
    requires Before(c, p, sh, r, rk) && p.Healthy? && rk.join == sh.active > 0
    requires ConsumerStep(c, p, sh, rk, r, o).0.Healthy?
    ensures Closer(sh, rk, ConsumerStep(c, p, sh, rk, r, o).1)
  {
    hide Before, ConsumerStep, Closer;
    if Seeking(rk.consumer) { SeekCloser(c, p, sh, r, rk, o); }
    else if Polling(rk.consumer) { PollCloser(c, p, sh, r, rk, o); }
    else if Copying(rk.consumer) { CopyCloser(c, p, sh, r, rk, o); }
    else { EndCloser(c, p, sh, r, rk, o); }
  }

  lemma CopierCloser(sh: Shared, r: nat, rk: Rank)
    requires ShapeRank(rk)
    ensures var rk' := DeviceStep(rk);
            && RankWork(sh, rk') == RankWork(sh, rk) && Pending(sh, rk') == Pending(sh, rk)
            && (if rk.consumer.KEvent? && rk.dma != [] then ConsumerWay(rk') < ConsumerWay(rk)
                else ConsumerWay(rk') <= ConsumerWay(rk) && DueOn(rk', r) == DueOn(rk, r))
  {
  }

  // -------------------------------------------------------------- all ranks

  /** Pointwise no more work is no more work in all, and strictly less if one rank has strictly less. */
  lemma {:induction false} WorkOrder(sh: Shared, ranks: seq<Rank>, sh': Shared, ranks': seq<Rank>)
    requires |ranks| == |ranks'|
    requires forall i :: 0 <= i < |ranks| ==> RankWork(sh', ranks'[i]) <= RankWork(sh, ranks[i])
    ensures RanksWork(sh', ranks') <= RanksWork(sh, ranks)
    ensures (exists i :: 0 <= i < |ranks| && RankWork(sh', ranks'[i]) < RankWork(sh, ranks[i])) ==>
              RanksWork(sh', ranks') < RanksWork(sh, ranks)
  {
    if ranks != [] {
      WorkOrder(sh, ranks[1..], sh', ranks'[1..]);
      if i :| 0 < i < |ranks| && RankWork(sh', ranks'[i]) < RankWork(sh, ranks[i]) {
        assert RankWork(sh', ranks'[1..][i - 1]) < RankWork(sh, ranks[1..][i - 1]);
      }
    }
  }

  lemma {:induction false} FirstPendingIs(sh: Shared, ranks: seq<Rank>)
    ensures var r := FirstPending(sh, ranks);
            && r <= |ranks| && (r < |ranks| ==> Pending(sh, ranks[r]))
            && (forall i :: 0 <= i < r ==> !Pending(sh, ranks[i]))
  {
    if ranks != [] && !Pending(sh, ranks[0]) {
      FirstPendingIs(sh, ranks[1..]);
      forall i | 0 < i < FirstPending(sh, ranks) ensures !Pending(sh, ranks[i]) {
        assert ranks[i] == ranks[1..][i - 1];
      }
    }
  }

  lemma {:induction false} SamePending(sh: Shared, ranks: seq<Rank>, sh': Shared, ranks': seq<Rank>)
    requires |ranks| == |ranks'|
    requires forall i :: 0 <= i < |ranks| ==> Pending(sh', ranks'[i]) == Pending(sh, ranks[i])
    ensures FirstPending(sh', ranks') == FirstPending(sh, ranks)
  {
    if ranks != [] {
      SamePending(sh, ranks[1..], sh', ranks'[1..]);
    }
  }

  /** The agent an action lets run, if it is one of those an epoch waits for. */
  predicate IsTurnOf(a: Action, g: Agent) {
    match g
    case TheProducer => a.StepProducer?
    case TheConsumer(r) => a.StepConsumer? && a.r == r
    case TheCopier(r) => a.DeviceCopies? && a.r == r
  }

  /** A step towards the end: less work, or as much and the due agent closer, or the same agent still due. */
  predicate Approaches(c: Config, s: State, a: Action, t: State) {
    || Work(t) < Work(s)
    || (Work(t) == Work(s) && Way(c, t) < Way(c, s))
    || (Work(t) == Work(s) && Way(c, t) == Way(c, s) && Due(t) == Due(s) && !IsTurnOf(a, Due(s)))
  }

  /** The common shape of the argument: one rank moved, the shared part only in what no rank's work depends on. */
  lemma RankApproaches(c: Config, s: State, a: Action, t: State, r: nat)
    requires r < |s.ranks| == |t.ranks| && t.sh == s.sh && t.ranks == s.ranks[r := t.ranks[r]]
    requires || RankWork(s.sh, t.ranks[r]) < RankWork(s.sh, s.ranks[r])
             || (&& RankWork(s.sh, t.ranks[r]) == RankWork(s.sh, s.ranks[r])
                 && Pending(s.sh, t.ranks[r]) == Pending(s.sh, s.ranks[r])
                 && (Pending(s.sh, s.ranks[r]) ==>
                       || ConsumerWay(t.ranks[r]) < ConsumerWay(s.ranks[r])
                       || (&& ConsumerWay(t.ranks[r]) == ConsumerWay(s.ranks[r])
                           && DueOn(t.ranks[r], r) == DueOn(s.ranks[r], r)
                           && !IsTurnOf(a, DueOn(s.ranks[r], r)))))
    requires !a.StepProducer? && (a.StepConsumer? || a.DeviceCopies? ==> a.r == r)
    ensures Approaches(c, s, a, t)
  {
    hide RankWork, Pending, ConsumerWay, ProducerWay, ProducerWork;
    WorkOrder(s.sh, s.ranks, t.sh, t.ranks);
    FirstPendingIs(s.sh, s.ranks);
    if RankWork(s.sh, t.ranks[r]) == RankWork(s.sh, s.ranks[r]) {
      WorkOrder(t.sh, t.ranks, s.sh, s.ranks);
      SamePending(s.sh, s.ranks, t.sh, t.ranks);
    }
  }

  /** What neither the work nor anybody's way depends on may change. */
  predicate SameForProgress(s: State, t: State) {
    && t.sh.active == s.sh.active && t.sh.openCount == s.sh.openCount && t.sh.log == s.sh.log
    && t.sh.producerDone == s.sh.producerDone
    && (t.sh.producer == s.sh.producer || FirstPending(s.sh, s.ranks) < |s.ranks|)
    && |t.ranks| == |s.ranks|
    && (forall i :: 0 <= i < |s.ranks| ==>
          SameConsumer(s.ranks[i], t.ranks[i]))
  }

  predicate SameConsumer(rk: Rank, rk': Rank) {
    && rk'.consumer == rk.consumer && rk'.dma == rk.dma && rk'.runEpoch == rk.runEpoch && rk'.acked == rk.acked
    && rk'.consumerDone == rk.consumerDone
  }

  lemma SameApproaches(c: Config, s: State, a: Action, t: State)
    requires SameForProgress(s, t) && !a.StepProducer? && !a.StepConsumer? && !a.DeviceCopies?
    ensures Approaches(c, s, a, t)
  {
    WorkOrder(s.sh, s.ranks, t.sh, t.ranks);
    WorkOrder(t.sh, t.ranks, s.sh, s.ranks);
    SamePending(s.sh, s.ranks, t.sh, t.ranks);
    FirstPendingIs(s.sh, s.ranks);
  }

  // --------------------------------------------------------------- producer

  /** With nothing left for any consumer and the epoch unfinished, the producer is in its run. */
  lemma ProducerIsDue(c: Config, s: State, q: nat)
    requires Inv(c, s) && UnderWay(s) && !Finished(s) && s.poison.Healthy? && q < c.tp
    requires FirstPending(s.sh, s.ranks) >= |s.ranks|
    ensures s.sh.producerDone < s.sh.active
    ensures RunAcked(s.sh, s.ranks[q]) == RunPublished(s.sh)
  {
    FirstPendingIs(s.sh, s.ranks);
    assert RankInv(c, s.poison, s.sh, q, s.ranks[q]) && !Pending(s.sh, s.ranks[q]);
    hide PublicationsShared, ProducedShared, ReadyShared, Memory, AckCells, History;
  }

  /** The facts a due producer's step rests on: the rank it looks at has joined and acknowledged all there is. */
  predicate ProducerDue(c: Config, s: State) {
    var p := s.sh.producer;
    && s.sh.producerDone < s.sh.active
    && (p.PScan? || p.PAck? || p.PDrain? ==>
          p.k < |s.ranks| && s.ranks[p.k].join == s.sh.active
          && RunAcked(s.sh, s.ranks[p.k]) == RunPublished(s.sh))
  }

  predicate InEpochNow(sh: Shared) {
    && sh.active > 0
    && (|| sh.log.epoch == sh.active
        || ((sh.producer.PScan? || sh.producer.PGate?) && sh.producer.epoch == sh.active))
  }

  predicate ProducerNearer(c: Config, sh: Shared, sh': Shared) {
    && sh'.active == sh.active && sh'.openCount == sh.openCount && InEpochNow(sh')
    && (|| ProducerWork(sh') < ProducerWork(sh)
        || (&& ProducerWork(sh') == ProducerWork(sh) && RunPublished(sh') == RunPublished(sh)
            && (sh'.log.epoch == sh.log.epoch || (RunPublished(sh) == 0 && sh.log.epoch < sh.active))))
  }

  lemma CallNearer(c: Config, s: State, o: Outcome)
    requires Producing(c, s) && Calling(s.sh.producer) && UnderWay(s)
    requires s.poison.Healthy? && CallStep(c, s, o).0.Healthy?
    ensures ProducerNearer(c, s.sh, CallStep(c, s, o).1)
    ensures ProducerDue(c, s) ==> ProducerWay(c, CallStep(c, s, o).1.producer) < ProducerWay(c, s.sh.producer)
  {
    hide PublicationsShared, ReadyShared, RankInv, ShapeRank;
    if s.sh.producer.PScan? {} else if s.sh.producer.PGate? {} else {}
  }

  /** What a run under way and its next look at an acknowledgement amount to. */
  lemma ExpertFacts(c: Config, s: State)
    requires Producing(c, s) && OnExpert(s.sh.producer) && UnderWay(s)
    ensures s.sh.log.epoch == s.sh.active > 0
    ensures ProducerDue(c, s) ==> !s.sh.rerun
    ensures ProducerDue(c, s) && s.sh.producer.PAck? ==>
              var p := s.sh.producer; s.ranks[p.k].ack[p.expert % SLOTS] >= s.sh.published[p.expert % SLOTS]
  {
    hide PublicationsShared, ReadyShared, OpenerShared, FillAt, ProducedShared, CallAt;
    hide Lockstep, SeenByOpener, SeenByScan, Arguments, JoinAt, WaitAt, BytesAt, CloseAt, SeekAt, EpochAt;
    hide GenerationAt, LocalBytesAt, SeenByProducer, Stream, Memory, History;
    if s.sh.producer.PAck? { assert s.sh.producer.expert % SLOTS == 0 || s.sh.producer.expert % SLOTS == 1; }
  }

  predicate Nearer(c: Config, s: State, sh: Shared) {
    && ProducerNearer(c, s.sh, sh)
    && (ProducerDue(c, s) ==>
          ProducerWork(sh) < ProducerWork(s.sh) || ProducerWay(c, sh.producer) < ProducerWay(c, s.sh.producer))
  }

  lemma AckNearer(c: Config, s: State, o: Outcome)
    requires Shape(c, s) && s.sh.producer.PAck? && s.sh.log.epoch == s.sh.active > 0
    requires var p := s.sh.producer;
             ProducerDue(c, s) ==> s.ranks[p.k].ack[p.expert % SLOTS] >= s.sh.published[p.expert % SLOTS]
    requires s.poison.Healthy? && ExpertStep(c, s, o).0.Healthy?
    ensures Nearer(c, s, ExpertStep(c, s, o).1)
  {
    hide ShapeRank;
  }

  lemma PublishNearer(c: Config, s: State, o: Outcome)
    requires Shape(c, s) && s.sh.producer.PSequence? && s.sh.log.epoch == s.sh.active > 0
    requires ProducerDue(c, s) ==> !s.sh.rerun
    ensures Nearer(c, s, ExpertStep(c, s, o).1)
  {
    hide ShapeRank, NextExpert, NextDrain;
  }

  lemma WriteNearer(c: Config, s: State, o: Outcome)
    requires Shape(c, s) && OnExpert(s.sh.producer) && !s.sh.producer.PAck? && !s.sh.producer.PSequence?
    requires s.poison.Healthy? && s.sh.log.epoch == s.sh.active > 0
    ensures Nearer(c, s, ExpertStep(c, s, o).1)
  {
    hide ShapeRank, HostSlots;
  }

  lemma ExpertNearer(c: Config, s: State, o: Outcome)
    requires Producing(c, s) && OnExpert(s.sh.producer) && UnderWay(s)
    requires s.poison.Healthy? && ExpertStep(c, s, o).0.Healthy?
    ensures Nearer(c, s, ExpertStep(c, s, o).1)
  {
    ExpertFacts(c, s);
    hide SharedInv, RankInv, ShapeRank, UnderWay, ProducerTold, ExpertStep, Nearer, ProducerDue;
    if s.sh.producer.PAck? { AckNearer(c, s, o); }
    else if s.sh.producer.PSequence? { PublishNearer(c, s, o); }
    else { WriteNearer(c, s, o); }
  }

  lemma DrainNearer(c: Config, s: State, o: Outcome)
    requires Producing(c, s) && !Calling(s.sh.producer) && !OnExpert(s.sh.producer) && UnderWay(s)
    requires s.poison.Healthy? && DrainStep(c, s, o).0.Healthy?
    ensures ProducerNearer(c, s.sh, DrainStep(c, s, o).1)
    ensures ProducerDue(c, s) ==>
              || ProducerWork(DrainStep(c, s, o).1) < ProducerWork(s.sh)
              || ProducerWay(c, DrainStep(c, s, o).1.producer) < ProducerWay(c, s.sh.producer)
  {
    hide PublicationsShared, ReadyShared, ShapeRank, OpenerShared, FillAt, ProducedShared;
    if s.sh.producer.PDrain? {} else if s.sh.producer.PDrainGate? {} else {}
  }

  /** A producer's step, taken when it is due or not. */
  lemma ProducerNears(c: Config, s: State, o: Outcome)
    requires Inv(c, s) && Shape(c, s) && UnderWay(s)
    requires s.poison.Healthy? && ProducerStep(c, s, o).0.Healthy?
    ensures ProducerNearer(c, s.sh, ProducerStep(c, s, o).1)
    ensures ProducerDue(c, s) ==>
              || ProducerWork(ProducerStep(c, s, o).1) < ProducerWork(s.sh)
              || ProducerWay(c, ProducerStep(c, s, o).1.producer) < ProducerWay(c, s.sh.producer)
  {
    var p := s.sh.producer;
    if p.PAck? || p.PDrain? { assert RankInv(c, s.poison, s.sh, p.k, s.ranks[p.k]); }
    hide SharedInv, RankInv, CallStep, ExpertStep, DrainStep, ProducerWay, ProducerWork, ProducerNearer;
    hide ShapeRank, ProducerDue, UnderWay;
    if Calling(p) { CallNearer(c, s, o); }
    else if OnExpert(p) { ExpertNearer(c, s, o); }
    else { DrainNearer(c, s, o); }
  }

  /** From the producer's own count to everybody's. */
  lemma NearerApproaches(c: Config, s: State, t: State, o: Outcome)
    requires ProducerNearer(c, s.sh, t.sh) && t.ranks == s.ranks
    requires forall i :: 0 <= i < |s.ranks| ==> RankWork(t.sh, s.ranks[i]) == RankWork(s.sh, s.ranks[i])
    requires ProducerWork(t.sh) == ProducerWork(s.sh) ==>
               forall i :: 0 <= i < |s.ranks| ==> Pending(t.sh, s.ranks[i]) == Pending(s.sh, s.ranks[i])
    requires FirstPending(s.sh, s.ranks) >= |s.ranks| ==>
               || ProducerWork(t.sh) < ProducerWork(s.sh)
               || ProducerWay(c, t.sh.producer) < ProducerWay(c, s.sh.producer)
    ensures Approaches(c, s, StepProducer(o), t)
  {
    hide ProducerWay, ConsumerWay, Pending, ProducerWork, RankWork;
    WorkOrder(s.sh, s.ranks, t.sh, t.ranks);
    WorkOrder(t.sh, t.ranks, s.sh, s.ranks);
    if ProducerWork(t.sh) == ProducerWork(s.sh) { SamePending(s.sh, s.ranks, t.sh, t.ranks); }
  }

  /** The producer is due only when no consumer is. */
  lemma DueFacts(c: Config, s: State)
    requires Inv(c, s) && UnderWay(s) && !Finished(s) && s.poison.Healthy?
    requires FirstPending(s.sh, s.ranks) >= |s.ranks|
    ensures ProducerDue(c, s)
  {
    var p := s.sh.producer;
    ProducerIsDue(c, s, if p.PAck? || p.PDrain? || p.PScan? then p.k else 0);
    hide PublicationsShared, ReadyShared, ProducedShared, Finished;
  }

  lemma ProducerApproaches(c: Config, s: State, o: Outcome)
    requires Inv(c, s) && Shape(c, s) && UnderWay(s) && !Finished(s)
    requires s.poison.Healthy? && Step(c, s, StepProducer(o)).poison.Healthy?
    ensures InEpochNow(Step(c, s, StepProducer(o)).sh) && Step(c, s, StepProducer(o)).sh.active == s.sh.active
    ensures Approaches(c, s, StepProducer(o), Step(c, s, StepProducer(o)))
  {
    hide Inv, ProducerStep, ProducerWay, ProducerWork, ShapeRank, ProducerDue, UnderWay, Finished, Approaches;
    hide Pending, RankWork, FirstPending;
    var t := Step(c, s, StepProducer(o));
    if FirstPending(s.sh, s.ranks) >= |s.ranks| { DueFacts(c, s); }
    ProducerNears(c, s, o);
    PendingKept(c, s, t);
    NearerApproaches(c, s, t, o);
  }

  /** Unless something is published, a producer's step changes nobody's share. */
  lemma PendingKept(c: Config, s: State, t: State)
    requires Inv(c, s) && ProducerNearer(c, s.sh, t.sh) && t.ranks == s.ranks
    ensures forall i :: 0 <= i < |s.ranks| ==> RankWork(t.sh, s.ranks[i]) == RankWork(s.sh, s.ranks[i])
    ensures ProducerWork(t.sh) == ProducerWork(s.sh) ==>
              forall i :: 0 <= i < |s.ranks| ==> Pending(t.sh, s.ranks[i]) == Pending(s.sh, s.ranks[i])
  {
    hide PublicationsShared, ReadyShared, ProducedShared, Memory, AckCells, History, RunAt, RerunAt;
  }

  // ---------------------------------------------------------------- actions

  /** The next epoch is not activated under an unfinished one. */
  lemma NotActivated(c: Config, s: State)
    requires Inv(c, s) && UnderWay(s) && !Finished(s)
    ensures !s.sh.opener.OActivate?
  {
    hide PublicationsShared, ReadyShared, ProducedShared, Memory, AckCells, History, RunAt, RerunAt;
    if s.sh.opener.OActivate? {
      forall r | 0 <= r < |s.ranks| ensures s.ranks[r].consumerDone == s.sh.active {
        assert RankInv(c, s.poison, s.sh, r, s.ranks[r]);
      }
    }
  }

  /** An idle producer leaves the rest of the epoch to the consumers. */
  lemma IdleProducer(c: Config, s: State)
    requires Inv(c, s) && UnderWay(s) && !Finished(s) && s.poison.Healthy? && s.sh.producer.PIdle?
    ensures FirstPending(s.sh, s.ranks) < |s.ranks|
  {
    FirstPendingIs(s.sh, s.ranks);
    if FirstPending(s.sh, s.ranks) >= |s.ranks| { ProducerIsDue(c, s, 0); }
  }

  lemma JoinKeepsConsumer(p: Poison, sh: Shared, rk: Rank, o: Outcome)
    requires ShapeRank(rk)
    ensures SameConsumer(rk, JoinStep(p, sh, rk, o).1)
  {
    hide ShapeRank;
  }

  lemma WaitKeepsConsumer(p: Poison, sh: Shared, rk: Rank, o: Outcome)
    requires ShapeRank(rk)
    ensures SameConsumer(rk, WaitStep(p, sh, rk, o).1)
    ensures SameConsumer(rk, CloseStep(p, sh, rk).1)
  {
    hide ShapeRank;
  }

  lemma CallerKeepsConsumer(p: Poison, sh: Shared, rk: Rank, o: Outcome)
    requires ShapeRank(rk)
    ensures SameConsumer(rk, CallerStep(p, sh, rk, o).1)
  {
    hide JoinStep, WaitStep, CloseStep, SameConsumer, ShapeRank;
    JoinKeepsConsumer(p, sh, rk, o);
    WaitKeepsConsumer(p, sh, rk, o);
  }

  lemma CallersApproach(c: Config, s: State, r: nat, o: Outcome)
    requires Shape(c, s) && r < c.tp && InEpochNow(s.sh) && !s.ranks[r].caller.COpening?
    ensures InEpochNow(Step(c, s, StepCaller(r, o)).sh) && SameForProgress(s, Step(c, s, StepCaller(r, o)))
  {
    CallerKeepsConsumer(s.poison, s.sh, s.ranks[r], o);
    hide CallerStep, ShapeRank, FirstPending;
  }

  lemma OpenerApproaches(c: Config, s: State, o: Outcome)
    requires Shape(c, s) && InEpochNow(s.sh) && s.ranks[0].caller.COpening? && !s.sh.opener.OActivate?
    ensures InEpochNow(Step(c, s, StepCaller(0, o)).sh) && SameForProgress(s, Step(c, s, StepCaller(0, o)))
  {
    hide ShapeRank, FirstPending;
  }

  lemma CallsApproach(c: Config, s: State, a: Action)
    requires Shape(c, s) && InEpochNow(s.sh)
    requires s.sh.producer.PIdle? ==> FirstPending(s.sh, s.ranks) < |s.ranks|
    requires !a.StepProducer? && !a.StepConsumer? && !a.DeviceCopies? && !a.StepCaller?
    ensures InEpochNow(Step(c, s, a).sh) && SameForProgress(s, Step(c, s, a))
  {
    hide ShapeRank, FirstPending, ConsumerStep, CallerStep, OpenerStep, OpenerEffect, ProducerStep, DeviceStep;
  }

  /** Calls, callers, the writer and the poison cell leave the epoch's work alone. */
  lemma OthersApproach(c: Config, s: State, a: Action)
    requires Inv(c, s) && Shape(c, s) && UnderWay(s) && !Finished(s) && s.poison.Healthy?
    requires !a.StepProducer? && !a.StepConsumer? && !a.DeviceCopies?
    ensures InEpochNow(Step(c, s, a).sh) && SameForProgress(s, Step(c, s, a))
  {
    hide SharedInv, RankInv, Step, SameForProgress, FirstPending, UnderWay, Finished, ShapeRank;
    UnderWayNow(s);
    NotActivated(c, s);
    if s.sh.producer.PIdle? { IdleProducer(c, s); }
    match a
    case StepCaller(r, o) =>
      if r < c.tp {
        if s.ranks[r].caller.COpening? {
          OnlyZeroOpens(c, s, r);
          OpenerApproaches(c, s, o);
        } else {
          CallersApproach(c, s, r, o);
        }
      } else {
        NobodySteps(c, s, a);
      }
    case _ => CallsApproach(c, s, a);
  }

  lemma UnderWayNow(s: State)
    requires UnderWay(s)
    ensures InEpochNow(s.sh)
  {
  }

  lemma NobodySteps(c: Config, s: State, a: Action)
    requires Shape(c, s) && a.StepCaller? && a.r >= c.tp
    ensures Step(c, s, a) == s && SameForProgress(s, s)
  {
    hide ShapeRank;
  }

  lemma ConsumersApproach(c: Config, s: State, r: nat, o: Outcome)
    requires Inv(c, s) && Shape(c, s) && UnderWay(s) && r < c.tp
    requires s.poison.Healthy? && Step(c, s, StepConsumer(r, o)).poison.Healthy?
    ensures InEpochNow(Step(c, s, StepConsumer(r, o)).sh) && Step(c, s, StepConsumer(r, o)).sh.active == s.sh.active
    ensures Approaches(c, s, StepConsumer(r, o), Step(c, s, StepConsumer(r, o)))
  {
    assert RankInv(c, s.poison, s.sh, r, s.ranks[r]);
    ConsumerCloser(c, s.poison, s.sh, r, s.ranks[r], o);
    hide SharedInv, RankInv, ConsumerStep, RankWork, Pending, ConsumerWay;
    var t := Step(c, s, StepConsumer(r, o));
    RankApproaches(c, s, StepConsumer(r, o), t, r);
  }

  lemma CopiersApproach(c: Config, s: State, r: nat)
    requires Inv(c, s) && Shape(c, s) && UnderWay(s) && r < c.tp
    ensures InEpochNow(Step(c, s, DeviceCopies(r)).sh) && Step(c, s, DeviceCopies(r)).sh.active == s.sh.active
    ensures Approaches(c, s, DeviceCopies(r), Step(c, s, DeviceCopies(r)))
  {
    CopierCloser(s.sh, r, s.ranks[r]);
    hide SharedInv, RankInv, DeviceStep, RankWork, Pending, ConsumerWay;
    var t := Step(c, s, DeviceCopies(r));
    RankApproaches(c, s, DeviceCopies(r), t, r);
  }

  lemma OutOfRange(c: Config, s: State, a: Action)
    requires Shape(c, s) && UnderWay(s) && (a.StepConsumer? || a.DeviceCopies?) && a.r >= c.tp
    ensures InEpochNow(Step(c, s, a).sh) && Step(c, s, a).sh.active == s.sh.active
    ensures Approaches(c, s, a, Step(c, s, a))
  {
    hide RanksWork;
  }

  lemma CallerKeepsJoin(p: Poison, sh: Shared, rk: Rank, o: Outcome)
    requires ShapeRank(rk)
    ensures var j := CallerStep(p, sh, rk, o).1.join; j == rk.join || (Joining(rk.caller) && j == rk.caller.epoch)
  {
    if rk.caller.JWait? || Joining(rk.caller) { hide WaitStep, CloseStep; }
    else if Waiting(rk.caller) { hide JoinStep, CloseStep; }
    else { hide JoinStep, WaitStep; }
  }

  lemma ConsumersKeepJoin(c: Config, s: State, r: nat, o: Outcome)
    requires Shape(c, s) && r < c.tp
    ensures SameJoins(s, Step(c, s, StepConsumer(r, o)))
  {
    ConsumerKeepsCaller(c, s.poison, s.sh, s.ranks[r], r, o);
    hide ConsumerStep, ShapeRank;
  }

  lemma CallersKeepJoin(c: Config, s: State, r: nat, o: Outcome)
    requires Inv(c, s) && Shape(c, s) && UnderWay(s) && r < c.tp && !s.ranks[r].caller.COpening?
    ensures SameJoins(s, Step(c, s, StepCaller(r, o)))
  {
    assert RankInv(c, s.poison, s.sh, r, s.ranks[r]);
    assert Joining(s.ranks[r].caller) ==> s.ranks[r].caller.epoch == s.sh.active;
    hide SharedInv, RankInv, CallerStep, ShapeRank;
    CallerKeepsJoin(s.poison, s.sh, s.ranks[r], o);
  }

  lemma OpenerKeepsJoin(c: Config, s: State, r: nat, o: Outcome)
    requires Shape(c, s) && r < c.tp && s.ranks[r].caller.COpening?
    ensures SameJoins(s, Step(c, s, StepCaller(r, o)))
  {
    hide OpenerStep, ShapeRank;
  }

  predicate SameJoins(s: State, t: State) {
    |t.ranks| == |s.ranks| && forall r :: 0 <= r < |s.ranks| ==> t.ranks[r].join == s.ranks[r].join
  }

  /** A rank that joined the active epoch stays joined. */
  lemma JoinedStays(c: Config, s: State, a: Action)
    requires Inv(c, s) && Shape(c, s) && UnderWay(s)
    ensures SameJoins(s, Step(c, s, a))
  {
    hide Inv, ConsumerStep, CallerStep, OpenerStep, ProducerStep, DeviceStep, ShapeRank, UnderWay, OpenerEffect;
    match a
    case StepConsumer(r, o) => if r < c.tp { ConsumersKeepJoin(c, s, r, o); }
    case StepCaller(r, o) =>
      if r < c.tp {
        if s.ranks[r].caller.COpening? { OpenerKeepsJoin(c, s, r, o); } else { CallersKeepJoin(c, s, r, o); }
      }
    case DeviceCopies(r) => if r < c.tp { DeviceKeepsJoin(s.ranks[r]); }
    case _ =>
  }

  lemma DeviceKeepsJoin(rk: Rank)
    requires ShapeRank(rk)
    ensures DeviceStep(rk).join == rk.join
  {
  }

  lemma SameActive(s: State, t: State)
    requires SameForProgress(s, t)
    ensures t.sh.active == s.sh.active
  {
  }

  /** Whoever acts, the epoch stays the active one and comes no further from its end. */
  lemma ActionApproaches(c: Config, s: State, a: Action)
    requires Inv(c, s) && Shape(c, s) && UnderWay(s) && !Finished(s)
    requires s.poison.Healthy? && Step(c, s, a).poison.Healthy?
    ensures InEpochNow(Step(c, s, a).sh) && Step(c, s, a).sh.active == s.sh.active
    ensures Approaches(c, s, a, Step(c, s, a))
  {
    hide Inv, Approaches, Shape, Finished, Step, SameForProgress, UnderWay, InEpochNow;
    match a
    case StepProducer(o) => ProducerApproaches(c, s, o);
    case StepConsumer(r, o) =>
      if r < c.tp { ConsumersApproach(c, s, r, o); } else { OutOfRange(c, s, a); }
    case DeviceCopies(r) =>
      if r < c.tp { CopiersApproach(c, s, r); } else { OutOfRange(c, s, a); }
    case _ =>
      OthersApproach(c, s, a);
      SameActive(s, Step(c, s, a));
      SameApproaches(c, s, a, Step(c, s, a));
  }

  lemma StaysUnderWay(c: Config, s: State, t: State)
    requires UnderWay(s) && InEpochNow(t.sh) && t.sh.active == s.sh.active && SameJoins(s, t)
    ensures UnderWay(t)
  {
  }

  /** Every action of an unfinished healthy epoch approaches its end, whoever takes it. */
  lemma StepApproaches(c: Config, s: State, a: Action)
    requires Inv(c, s) && Shape(c, s) && UnderWay(s) && !Finished(s)
    requires s.poison.Healthy? && Step(c, s, a).poison.Healthy?
    ensures Inv(c, Step(c, s, a)) && UnderWay(Step(c, s, a)) && Step(c, s, a).sh.active == s.sh.active
    ensures Approaches(c, s, a, Step(c, s, a))
  {
    hide Inv, Approaches, Shape, Finished, Step, UnderWay, InEpochNow, SameJoins;
    StepKept(c, s, a);
    ActionApproaches(c, s, a);
    JoinedStays(c, s, a);
    StaysUnderWay(c, s, Step(c, s, a));
  }

  // ---------------------------------------------------------- fair schedules

  /** An unending schedule from a reachable state and the states it goes through. */
  ghost predicate Execution(c: Config, sigma: nat -> State, sched: nat -> Action) {
    && Reachable(c, sigma(0))
    && (forall i: nat :: Shape(c, sigma(i)))
    && (forall i: nat :: sigma(i + 1) == Step(c, sigma(i), sched(i)))
  }

  predicate ValidAgent(c: Config, g: Agent) { g.TheProducer? || g.r < c.tp }

  /** Every producer, consumer and copy engine gets its turn again and again. */
  ghost predicate Fair(c: Config, sched: nat -> Action) {
    forall g: Agent, i: nat :: ValidAgent(c, g) ==> TurnFrom(sched, g, i)
  }

  ghost predicate TurnFrom(sched: nat -> Action, g: Agent, i: nat) {
    exists j: nat :: i <= j && IsTurnOf(sched(j), g)
  }

  lemma {:induction false} SumIsNatural(c: Config, sh: Shared, ranks: seq<Rank>)
    requires forall i :: 0 <= i < |ranks| ==> RankWork(sh, ranks[i]) >= 0
    ensures RanksWork(sh, ranks) >= 0
  {
    if ranks != [] { SumIsNatural(c, sh, ranks[1..]); }
  }

  /** Work and way count down to zero, and the due agent is one that fairness speaks of. */
  lemma WorkIsNatural(c: Config, s: State)
    requires Inv(c, s) && Shape(c, s) && UnderWay(s)
    ensures Work(s) >= 0 && Way(c, s) >= 0 && ValidAgent(c, Due(s))
  {
    hide PublicationsShared, ReadyShared, ProducedShared, Memory, AckCells, History, RunAt, RerunAt, OpenerShared;
    forall i | 0 <= i < |s.ranks| ensures RankWork(s.sh, s.ranks[i]) >= 0 {
      assert RankInv(c, s.poison, s.sh, i, s.ranks[i]);
    }
    SumIsNatural(c, s.sh, s.ranks);
  }

  ghost predicate Ended(s: State, e: nat) {
    !s.poison.Healthy? || (Finished(s) && s.sh.active == e)
  }

  /** Until its turn comes the due agent stays due, unless something got closer before. */
  lemma CloserBy(c: Config, sigma: nat -> State, sched: nat -> Action, i: nat, j: nat) returns (k: nat)
    requires Execution(c, sigma, sched) && Inv(c, sigma(i)) && UnderWay(sigma(i))
    requires sigma(i).poison.Healthy? && !Finished(sigma(i))
    requires i <= j && IsTurnOf(sched(j), Due(sigma(i)))
    ensures i <= k
    ensures || Ended(sigma(k), sigma(i).sh.active)
            || (&& Inv(c, sigma(k)) && UnderWay(sigma(k)) && sigma(k).sh.active == sigma(i).sh.active
                && (|| Work(sigma(k)) < Work(sigma(i))
                    || (Work(sigma(k)) == Work(sigma(i)) && Way(c, sigma(k)) < Way(c, sigma(i)))))
    decreases j - i
  {
    hide Inv, Step, Work, Way, Due, Finished, UnderWay, Shape;
    var s, t := sigma(i), sigma(i + 1);
    assert t == Step(c, s, sched(i));
    if !t.poison.Healthy? { return i + 1; }
    StepApproaches(c, s, sched(i));
    if Finished(t) { return i + 1; }
    if Work(t) == Work(s) && Way(c, t) == Way(c, s) {
      k := CloserBy(c, sigma, sched, i + 1, j);
    } else {
      k := i + 1;
    }
  }

  /** From any point of an unfinished epoch: induction on the work, then on the due agent's way. */
  lemma EndFrom(c: Config, sigma: nat -> State, sched: nat -> Action, i: nat) returns (n: nat)
    requires Execution(c, sigma, sched) && Fair(c, sched)
    requires Inv(c, sigma(i)) && UnderWay(sigma(i))
    ensures i <= n && Ended(sigma(n), sigma(i).sh.active)
    decreases Work(sigma(i)), Way(c, sigma(i))
  {
    hide Inv, Step, Work, Way, Due, Finished, UnderWay, Shape;
    if !sigma(i).poison.Healthy? || Finished(sigma(i)) { return i; }
    WorkIsNatural(c, sigma(i));
    var g := Due(sigma(i));
    assert TurnFrom(sched, g, i);
    var j: nat :| i <= j && IsTurnOf(sched(j), g);
    var k := CloserBy(c, sigma, sched, i, j);
    if Ended(sigma(k), sigma(i).sh.active) { return k; }
    WorkIsNatural(c, sigma(k));
    n := EndFrom(c, sigma, sched, k);
  }

  /** Whatever the callers do and however the agents interleave, a fair schedule ends the epoch or sets the latch. */
  lemma HealthyEpochsEnd(c: Config, sigma: nat -> State, sched: nat -> Action)
    requires Execution(c, sigma, sched) && Fair(c, sched) && UnderWay(sigma(0))
    ensures exists n: nat :: Ended(sigma(n), sigma(0).sh.active)
  {
    ReachableInv(c, sigma(0));
    var n := EndFrom(c, sigma, sched, 0);
  }
}
