/** A consumer's step keeps its rank's invariant; the shared part does not change under it. */
module TransportConsumer {
  import opened TransportModel
  import opened TransportInvariant

  /** What every lemma here assumes of the state before the step. */
  predicate Before(c: Config, p: Poison, sh: Shared, r: nat, rk: Rank) {
    SharedInv(c, sh) && r < c.tp && RankInv(c, p, sh, r, rk)
  }

  lemma TopKept(c: Config, p: Poison, sh: Shared, r: nat, rk: Rank)
    requires Before(c, p, sh, r, rk)
    requires rk.consumer.KTop?
    ensures var (q, rk') := SeekStep(c, p, sh, rk, r); RankInv(c, q, sh, r, rk')
  {
    hide SharedInv, PublicationsShared, Acked, WaitAt, JoinAt, SeenByProducer, History, Lockstep, Memory, AckCells;
  }

  lemma ActiveKept(c: Config, p: Poison, sh: Shared, r: nat, rk: Rank)
    requires Before(c, p, sh, r, rk)
    requires rk.consumer.KActive?
    ensures var (q, rk') := SeekStep(c, p, sh, rk, r); RankInv(c, q, sh, r, rk')
  {
    hide SharedInv, PublicationsShared, Acked, WaitAt, JoinAt, SeenByProducer, History, Memory, AckCells, CloseAt;
    hide InFlight;
    if sh.active == 0 || sh.active <= rk.consumerDone {
      if p.Healthy? {} else {}
    } else {}
  }

  lemma JoinedKept(c: Config, p: Poison, sh: Shared, r: nat, rk: Rank)
    requires Before(c, p, sh, r, rk)
    requires rk.consumer.KJoin?
    ensures var (q, rk') := SeekStep(c, p, sh, rk, r); RankInv(c, q, sh, r, rk')
  {
    hide SharedInv, PublicationsShared, Acked, WaitAt, JoinAt, SeenByProducer, History, Memory, AckCells, CloseAt;
    hide InFlight;
    if rk.join == rk.consumer.epoch {} else if p.Healthy? {} else {}
  }

  lemma CountKept(c: Config, p: Poison, sh: Shared, r: nat, rk: Rank)
    requires Before(c, p, sh, r, rk)
    requires rk.consumer.KCount?
    ensures var (q, rk') := SeekStep(c, p, sh, rk, r); RankInv(c, q, sh, r, rk')
  {
    hide GpuHolds, HostHolds, PartOnGpu, SlotSequence, ReadyShared, RunAt, PublicationsShared;
    assert !Storing(sh.opener);
    assert ValidCount(c, r, sh.expertCount);
    assert Acked(sh.log, sh.active, 0) == Acked(sh.log, rk.runEpoch, rk.acked);
  }

  lemma ScanKept(c: Config, p: Poison, sh: Shared, r: nat, rk: Rank, o: Outcome)
    requires Before(c, p, sh, r, rk)
    requires rk.consumer.KScan? || rk.consumer.KGate?
    ensures var (q, rk') := PollStep(p, sh, rk, o); RankInv(c, q, sh, r, rk')
  {
    hide GpuHolds, HostHolds, PartOnGpu, InFlight, SlotSequence, TotalBytes, ReadyShared, RunAt;
    hide LogShared, OpenerShared, PublicationsShared, Acked, WaitAt, JoinAt, SeenByProducer, History, Shows;
  }

  /** A slot that shows something new at an expert's turn shows exactly that expert's publication. */
  lemma NewGeneration(log: RunLog, a: nat, n: nat)
    requires |log.base| == SLOTS && log.base[0] <= log.start && log.base[1] <= log.start
    requires a <= n <= a + 2
    ensures SlotSequence(log, n, a % SLOTS) != SlotSequence(log, a, a % SLOTS) ==>
              a < n && SlotSequence(log, n, a % SLOTS) == log.start + a + 1
  {
  }

  lemma SequenceRead(c: Config, p: Poison, sh: Shared, r: nat, rk: Rank)
    requires Before(c, p, sh, r, rk)
    requires rk.consumer.KSequence?
    ensures var q := sh.ready[rk.acked % SLOTS].sequence;
            q != rk.lastReady[rk.acked % SLOTS] ==>
              Accepted(sh.log, rk.runEpoch, rk.acked, q) || (sh.log.epoch < rk.runEpoch && sh.rerun)
  {
    hide SlotSequence, TotalBytes, RunAt, PublicationsShared, Stream, OpenerShared, CloseAt;
    hide WaitAt, JoinAt, SeenByProducer, History, Lockstep, Arguments, Memory;
    if rk.runEpoch == sh.log.epoch { NewGeneration(sh.log, rk.acked, sh.log.published); }
    assert rk.acked % SLOTS == 0 || rk.acked % SLOTS == 1;
  }

  lemma SequenceKept(c: Config, p: Poison, sh: Shared, r: nat, rk: Rank, o: Outcome)
    requires Before(c, p, sh, r, rk)
    requires rk.consumer.KSequence?
    ensures var (q, rk') := PollStep(p, sh, rk, o); RankInv(c, q, sh, r, rk')
  {
    hide SharedInv, PublicationsShared, Acked, WaitAt, JoinAt, SeenByProducer, History, Memory, AckCells;
    SequenceRead(c, p, sh, r, rk);
  }

  /** Only the consumer's place and the poison cell change. */
  lemma ConsumerMoves(c: Config, p: Poison, q: Poison, sh: Shared, r: nat, rk: Rank, k: Consumer)
    requires ValidConfig(c) && r < c.tp && |sh.log.base| == SLOTS && RankInv(c, p, sh, r, rk)
    requires !rk.consumer.KAck? && !k.KAck? && !k.KIssue?
    requires CloseAt(q, rk.caller, rk.closed, rk.stopping, k.KStopped?, rk.join, rk.consumerDone)
    requires SeekAt(sh.active, k, rk.join, rk.consumerDone, rk.runEpoch)
    requires EpochAt(sh.active, sh.openCount, k, rk.join, rk.consumerDone, rk.runEpoch, rk.acked)
    requires GenerationAt(sh.log, sh.rerun, k, rk.runEpoch)
    requires LocalBytesAt(c.nbytes[r], k, rk.acked, rk.localBytes, rk.bytes)
    requires |rk.dma| <= rk.issued
    requires Stream(sh.log.epoch, sh.log.published, k, rk.dma, rk.issued, rk.runEpoch, rk.acked)
    ensures RankInv(c, q, sh, r, rk.(consumer := k))
  {
    hide SeenByOpener, Acked, Lockstep, WaitAt, CloseAt, Arguments, BytesAt, SeekAt, EpochAt, GenerationAt, JoinAt;
    hide LocalBytesAt, AckCounts, AckCells, SeenByProducer, Stream, Memory, History, SeenByScan;
  }

  lemma Basics(c: Config, p: Poison, sh: Shared, r: nat, rk: Rank)
    requires Before(c, p, sh, r, rk)
    ensures ValidConfig(c) && |sh.log.base| == SLOTS == |sh.ready| && |c.nbytes[r]| == KINDS
    ensures ShapeRank(rk) && |rk.lastReady| == SLOTS
  {
  }

  /** The small predicates of a consumer that goes on polling, starts copying's end, or throws. */
  predicate PlaceOk(c: Config, q: Poison, sh: Shared, r: nat, rk: Rank, k: Consumer)
    requires ValidConfig(c) && r < c.tp
  {
    && |sh.log.base| == SLOTS == |sh.ready|
    && !k.KAck? && !k.KIssue? && |c.nbytes[r]| == KINDS && |rk.dma| <= rk.issued
    && CloseAt(q, rk.caller, rk.closed, rk.stopping, k.KStopped?, rk.join, rk.consumerDone)
    && SeekAt(sh.active, k, rk.join, rk.consumerDone, rk.runEpoch)
    && EpochAt(sh.active, sh.openCount, k, rk.join, rk.consumerDone, rk.runEpoch, rk.acked)
    && GenerationAt(sh.log, sh.rerun, k, rk.runEpoch)
    && LocalBytesAt(c.nbytes[r], k, rk.acked, rk.localBytes, rk.bytes)
    && Stream(sh.log.epoch, sh.log.published, k, rk.dma, rk.issued, rk.runEpoch, rk.acked)
  }

  lemma EpochRead(c: Config, p: Poison, sh: Shared, r: nat, rk: Rank)
    requires Before(c, p, sh, r, rk) && rk.consumer.KEpoch?
    ensures |sh.ready| == SLOTS
    ensures sh.ready[rk.consumer.expert % SLOTS].epoch == rk.consumer.epoch ==>
              Accepted(sh.log, rk.runEpoch, rk.consumer.expert, rk.consumer.seen)
  {
    hide ReadySlot, LogShared, OpenerShared, RunAt, RerunAt, PublicationsShared, ProducedShared, FillAt, CallAt;
    hide SeenByOpener, Acked, Lockstep, WaitAt, CloseAt, Arguments, BytesAt, JoinAt, EpochsShared, ShapeRank, SeekAt;
    hide LocalBytesAt, AckCounts, AckCells, SeenByProducer, Stream, Memory, History, SeenByScan, SlotSequence;
    assert rk.consumer.expert % SLOTS == 0 || rk.consumer.expert % SLOTS == 1;
  }

  lemma PollPlace(c: Config, p: Poison, sh: Shared, r: nat, rk: Rank, o: Outcome)
    requires Before(c, p, sh, r, rk) && (rk.consumer.KEpoch? || rk.consumer.KExpert?)
    requires rk.consumer.KEpoch? && sh.ready[rk.consumer.expert % SLOTS].epoch == rk.consumer.epoch ==>
               Accepted(sh.log, rk.runEpoch, rk.consumer.expert, rk.consumer.seen)
    ensures ValidConfig(c) && |sh.ready| == SLOTS == |rk.lastReady| && ShapeRank(rk)
    ensures var (q, rk') := PollStep(p, sh, rk, o);
            q == p && rk' == rk.(consumer := rk'.consumer) && PlaceOk(c, q, sh, r, rk, rk'.consumer)
  {
    hide SharedInv, SeenByOpener, Acked, Lockstep, WaitAt, Arguments, BytesAt, JoinAt, ShapeRank;
    hide AckCounts, AckCells, SeenByProducer, Memory, History, SeenByScan, InFlight, TotalBytes, Accepted;
    Basics(c, p, sh, r, rk);
    if rk.consumer.KEpoch? {} else {}
  }

  lemma EpochKept(c: Config, p: Poison, sh: Shared, r: nat, rk: Rank, o: Outcome)
    requires Before(c, p, sh, r, rk)
    requires rk.consumer.KEpoch?
    ensures var (q, rk') := PollStep(p, sh, rk, o); RankInv(c, q, sh, r, rk')
  {
    hide RankInv, PollStep, ReadyShared, ShapeRank;
    EpochRead(c, p, sh, r, rk);
    PollPlace(c, p, sh, r, rk, o);
    ConsumerMoves(c, p, p, sh, r, rk, PollStep(p, sh, rk, o).1.consumer);
  }

  lemma ExpertKept(c: Config, p: Poison, sh: Shared, r: nat, rk: Rank, o: Outcome)
    requires Before(c, p, sh, r, rk)
    requires rk.consumer.KExpert?
    ensures var (q, rk') := PollStep(p, sh, rk, o); RankInv(c, q, sh, r, rk')
  {
    hide SharedInv, RankInv, PollStep, ShapeRank;
    PollPlace(c, p, sh, r, rk, o);
    ConsumerMoves(c, p, p, sh, r, rk, PollStep(p, sh, rk, o).1.consumer);
  }

  lemma IssueKept(c: Config, p: Poison, sh: Shared, r: nat, rk: Rank, o: Outcome)
    requires Before(c, p, sh, r, rk)
    requires rk.consumer.KIssue?
    ensures var (q, rk') := CopyStep(p, rk, o); RankInv(c, q, sh, r, rk')
  {
    hide GpuHolds, HostHolds, SlotSequence, TotalBytes, ReadyShared, RunAt, OpenerShared, EpochsShared;
    hide PublicationsShared, Acked, WaitAt, JoinAt, SeenByProducer, History, Lockstep, AckCells, RerunAt, CallAt;
    hide FillAt;
    hide SeenByOpener, SeenByScan, Arguments, BytesAt, AckCounts;
    if o.Errs? {} else if rk.consumer.kind + 1 == KINDS {} else {}
  }

  lemma EventPlace(c: Config, p: Poison, sh: Shared, r: nat, rk: Rank, o: Outcome)
    requires Before(c, p, sh, r, rk)
    requires rk.consumer.KRecord? || rk.consumer.KEvent? || rk.consumer.KEventGate?
    ensures ValidConfig(c) && ShapeRank(rk)
    ensures var (q, rk') := CopyStep(p, rk, o);
            rk' == rk.(consumer := rk'.consumer) && PlaceOk(c, q, sh, r, rk, rk'.consumer)
  {
    hide SharedInv, SeenByOpener, Acked, Lockstep, WaitAt, Arguments, BytesAt, JoinAt, ShapeRank;
    hide AckCounts, AckCells, SeenByProducer, Memory, History, SeenByScan, InFlight, TotalBytes, Accepted;
    Basics(c, p, sh, r, rk);
    if o.Errs? {} else if o.TimesOut? {} else if rk.dma == [] {} else {}
  }

  lemma EventKept(c: Config, p: Poison, sh: Shared, r: nat, rk: Rank, o: Outcome)
    requires Before(c, p, sh, r, rk)
    requires rk.consumer.KRecord? || rk.consumer.KEvent? || rk.consumer.KEventGate?
    ensures var (q, rk') := CopyStep(p, rk, o); RankInv(c, q, sh, r, rk')
  {
    hide SharedInv, RankInv, CopyStep, ShapeRank;
    EventPlace(c, p, sh, r, rk, o);
    ConsumerMoves(c, p, CopyStep(p, rk, o).0, sh, r, rk, CopyStep(p, rk, o).1.consumer);
  }

  lemma LastKept(c: Config, p: Poison, sh: Shared, r: nat, rk: Rank)
    requires Before(c, p, sh, r, rk)
    requires rk.consumer.KLast?
    ensures RankInv(c, p, sh, r, FinishStep(c, rk, r))
  {
    hide GpuHolds, HostHolds, PartOnGpu, InFlight, ReadyShared, RunAt, PublicationsShared;
    assert rk.acked % SLOTS == 0 || rk.acked % SLOTS == 1;
  }

  /** One more expert is complete on the GPU. */
  lemma OneMoreOnGpu(produced: seq<seq<seq<Block>>>, r: nat, gpu: map<(nat, nat), Block>, a: nat)
    requires GpuHolds(produced, r, gpu, a)
    requires a < |produced| && r < |produced[a]| ==> PartOnGpu(produced[a][r], gpu, a, KINDS)
    ensures GpuHolds(produced, r, gpu, a + 1)
  {
  }

  /** The acknowledged publication is the next one of all publications. */
  lemma NextConsumed(c: Config, p: Poison, sh: Shared, r: nat, rk: Rank)
    requires Before(c, p, sh, r, rk)
    requires rk.consumer.KAck?
    ensures |rk.consumed| < |sh.publications|
    ensures sh.publications[|rk.consumed|] == Publication(rk.consumer.seen, rk.consumer.epoch, rk.acked)
  {
    hide LogShared, OpenerShared, EpochsShared, ReadyShared, RunAt, Memory, Stream, AckCells, WaitAt, JoinAt;
  }

  /** The acknowledged slot shows one expert more; the other slot is as it was. */
  lemma AckedCells(c: Config, p: Poison, sh: Shared, r: nat, rk: Rank)
    requires Before(c, p, sh, r, rk)
    requires rk.consumer.KAck?
    ensures var t := FinishStep(c, rk, r);
      |t.ack| == SLOTS && |t.lastReady| == SLOTS && AckCells(sh.log, rk.acked + 1, t.ack, t.lastReady, false)
    ensures Acked(sh.log, rk.runEpoch, rk.acked) == rk.acked && Acked(sh.log, rk.runEpoch, rk.acked + 1) == rk.acked + 1
  {
    hide PublicationsShared, EpochsShared, RunAt, RerunAt, CallAt, FillAt, OpenerShared, ReadyShared, ProducedShared;
    hide WaitAt, JoinAt, Lockstep, Arguments, BytesAt, CloseAt, SeenByOpener, SeenByScan, SeenByProducer, Memory;
    hide History;
    hide TotalBytes, LocalBytesAt, SeekAt, InFlight;
    assert rk.acked % SLOTS == 0 || rk.acked % SLOTS == 1;
  }

  /** What the producer has seen of a rank stays true when the rank acknowledges more. */
  lemma SeenStays(log: RunLog, rerun: bool, p: Producer, r: nat, a: nat)
    requires |log.base| == SLOTS && log.base[0] <= log.start && log.base[1] <= log.start
    requires SeenByProducer(log, rerun, p, r, a) && a < log.count
    ensures SeenByProducer(log, rerun, p, r, a + 1)
  {
  }

  /** The facts about the run that an acknowledgement rests on. */
  lemma AckFacts(c: Config, p: Poison, sh: Shared, r: nat, rk: Rank)
    requires Before(c, p, sh, r, rk)
    requires rk.consumer.KAck?
    ensures |sh.log.base| == SLOTS && sh.log.base[0] <= sh.log.start && sh.log.base[1] <= sh.log.start
    ensures rk.acked < sh.log.published <= sh.log.count
    ensures GpuHolds(sh.log.produced, r, rk.gpu, rk.acked)
    ensures rk.acked < |sh.log.produced| && r < |sh.log.produced[rk.acked]| ==>
      PartOnGpu(sh.log.produced[rk.acked][r], rk.gpu, rk.acked, KINDS)
    ensures SeenByProducer(sh.log, sh.rerun, sh.producer, r, rk.acked)
    ensures HostHolds(sh.log.produced, r, rk.host, rk.acked)
  {
    hide PublicationsShared, EpochsShared, RunAt, RerunAt, CallAt, FillAt, OpenerShared, ReadyShared, ProducedShared;
    hide WaitAt, JoinAt, Lockstep, Arguments, BytesAt, CloseAt, SeenByOpener, SeenByScan, SeenByProducer, History;
    hide TotalBytes, LocalBytesAt, SeekAt, InFlight, GpuHolds, HostHolds, PartOnGpu, SlotSequence, AckCells;
  }

  lemma AckKept(c: Config, p: Poison, sh: Shared, r: nat, rk: Rank)
    requires Before(c, p, sh, r, rk)
    requires rk.consumer.KAck?
    ensures RankInv(c, p, sh, r, FinishStep(c, rk, r))
  {
    hide GpuHolds, PartOnGpu, TotalBytes, WaitAt, JoinAt, Lockstep, Arguments, BytesAt, SharedInv;
    hide CloseAt, SeenByOpener, SeenByScan, Acked, AckCells, SeenByProducer, SlotSequence;
    AckFacts(c, p, sh, r, rk);
    AckedCells(c, p, sh, r, rk);
    NextConsumed(c, p, sh, r, rk);
    OneMoreOnGpu(sh.log.produced, r, rk.gpu, rk.acked);
    SeenStays(sh.log, sh.rerun, sh.producer, r, rk.acked);
    if rk.acked + 1 < rk.consumer.count {} else {}
  }

  lemma DoneKept(c: Config, p: Poison, sh: Shared, r: nat, rk: Rank)
    requires Before(c, p, sh, r, rk)
    requires rk.consumer.KBytes? || rk.consumer.KDone?
    ensures RankInv(c, p, sh, r, FinishStep(c, rk, r))
  {
    hide GpuHolds, HostHolds, PartOnGpu, InFlight, SlotSequence, TotalBytes, ReadyShared, PublicationsShared, Shows;
  }

  lemma CatchKept(c: Config, p: Poison, sh: Shared, r: nat, rk: Rank)
    requires Before(c, p, sh, r, rk)
    requires rk.consumer.KCatch? || rk.consumer.KStopped?
    ensures var (q, rk') := CatchStep(p, rk); RankInv(c, q, sh, r, rk')
  {
    hide GpuHolds, HostHolds, PartOnGpu, InFlight, SlotSequence, TotalBytes, ReadyShared, RunAt, Shows;
  }

  lemma ConsumerKept(c: Config, p: Poison, sh: Shared, r: nat, rk: Rank, o: Outcome)
    requires Before(c, p, sh, r, rk)
    ensures var (q, rk') := ConsumerStep(c, p, sh, rk, r, o); RankInv(c, q, sh, r, rk')
  {
    hide RankInv, PublicationsShared, SeekStep, PollStep, CopyStep, FinishStep, CatchStep;
    match rk.consumer
    case KTop => TopKept(c, p, sh, r, rk);
    case KActive => ActiveKept(c, p, sh, r, rk);
    case KJoin(_) => JoinedKept(c, p, sh, r, rk);
    case KCount(_) => CountKept(c, p, sh, r, rk);
    case KScan(_, _, _) => ScanKept(c, p, sh, r, rk, o);
    case KSequence(_, _, _) => SequenceKept(c, p, sh, r, rk, o);
    case KEpoch(_, _, _, _) => EpochKept(c, p, sh, r, rk, o);
    case KExpert(_, _, _, _) => ExpertKept(c, p, sh, r, rk, o);
    case KGate(_, _, _, _) => ScanKept(c, p, sh, r, rk, o);
    case KIssue(_, _, _, _, _) => IssueKept(c, p, sh, r, rk, o);
    case KRecord(_, _, _, _) => EventKept(c, p, sh, r, rk, o);
    case KEvent(_, _, _, _) => EventKept(c, p, sh, r, rk, o);
    case KEventGate(_, _, _, _) => EventKept(c, p, sh, r, rk, o);
    case KLast(_, _, _, _) => LastKept(c, p, sh, r, rk);
    case KAck(_, _, _, _) => AckKept(c, p, sh, r, rk);
    case KBytes(_, _) => DoneKept(c, p, sh, r, rk);
    case KDone(_, _) => DoneKept(c, p, sh, r, rk);
    case KCatch => CatchKept(c, p, sh, r, rk);
    case KStopped => CatchKept(c, p, sh, r, rk);
  }

  /** The copy engine moves one block; its slot still holds what the writer left. */
  lemma DeviceKept(c: Config, p: Poison, sh: Shared, r: nat, rk: Rank)
    requires Before(c, p, sh, r, rk)
    ensures RankInv(c, p, sh, r, DeviceStep(rk))
  {
    hide SlotSequence, TotalBytes, ReadyShared, RunAt;
  }

  /** The caller's place and the cells it stores. */
  predicate SameCaller(rk: Rank, rk': Rank) {
    rk'.join == rk.join && rk'.caller == rk.caller && rk'.waitReturned == rk.waitReturned
  }

  lemma SeekKeepsCaller(c: Config, p: Poison, sh: Shared, rk: Rank, r: nat)
    requires ValidConfig(c) && r < c.tp && ShapeRank(rk)
    ensures var rk' := SeekStep(c, p, sh, rk, r).1; SameCaller(rk, rk')
  {
    hide ShapeRank;
  }

  lemma PollKeepsCaller(p: Poison, sh: Shared, rk: Rank, o: Outcome)
    requires |sh.ready| == SLOTS && ShapeRank(rk)
    ensures var rk' := PollStep(p, sh, rk, o).1; SameCaller(rk, rk')
  {
  }

  lemma CopyKeepsCaller(c: Config, p: Poison, rk: Rank, r: nat, o: Outcome)
    requires ValidConfig(c) && r < c.tp && ShapeRank(rk)
    ensures var rk' := CopyStep(p, rk, o).1; SameCaller(rk, rk')
    ensures SameCaller(rk, FinishStep(c, rk, r))
  {
  }

  /** A consumer leaves its rank's caller alone. */
  lemma ConsumerKeepsCaller(c: Config, p: Poison, sh: Shared, rk: Rank, r: nat, o: Outcome)
    requires ValidConfig(c) && r < c.tp && ShapeShared(c, sh) && ShapeRank(rk)
    ensures var rk' := ConsumerStep(c, p, sh, rk, r, o).1; SameCaller(rk, rk')
  {
    hide SeekStep, PollStep, CopyStep, FinishStep, ShapeShared, ShapeRank;
    SeekKeepsCaller(c, p, sh, rk, r);
    PollCaller(c, p, sh, rk, o);
    CopyKeepsCaller(c, p, rk, r, o);
  }

  lemma PollCaller(c: Config, p: Poison, sh: Shared, rk: Rank, o: Outcome)
    requires ShapeShared(c, sh) && ShapeRank(rk)
    ensures |sh.ready| == SLOTS && |rk.lastReady| == SLOTS
    ensures var rk' := PollStep(p, sh, rk, o).1; SameCaller(rk, rk')
  {
    hide PollStep;
    PollKeepsCaller(p, sh, rk, o);
  }
}
