/** Every rank's invariant survives the producer's steps. */
module TransportProducerRanks {
  import opened TransportModel
  import opened TransportInvariant
  import opened TransportProducer

  /** The shared part, rank r, and the rank whose cell the step reads. */
  predicate Watching(c: Config, s: State, r: nat) {
    var p := s.sh.producer;
    && Producing(c, s) && r < c.tp
    && RankInv(c, s.poison, s.sh, r, s.ranks[r])
    && (p.PScan? ==> RankInv(c, s.poison, s.sh, p.k, s.ranks[p.k]))
  }

  /** A step that changes nothing a rank depends on but the producer's place. */
  lemma ProducerMoves(c: Config, p: Poison, sh: Shared, sh': Shared, r: nat, rk: Rank)
    requires SharedInv(c, sh) && r < c.tp && RankInv(c, p, sh, r, rk)
    requires sh' == sh.(producer := sh'.producer, ready := sh'.ready, published := sh'.published,
                        nextSequence := sh'.nextSequence)
    requires SeenByScan(sh'.producer, sh.active, sh.log.epoch, r, rk.join)
    requires SeenByProducer(sh.log, sh.rerun, sh'.producer, r, Acked(sh.log, rk.runEpoch, rk.acked))
    ensures RankInv(c, p, sh', r, rk)
  {
    hide SharedInv, SeenByOpener, Acked, Lockstep, WaitAt, CloseAt, Arguments, BytesAt, SeekAt, EpochAt, GenerationAt;
    hide LocalBytesAt, AckCounts, AckCells, SeenByProducer, Stream, Memory, History, SeenByScan, ShapeRank, JoinAt;
  }

  lemma CallRankKept(c: Config, s: State, r: nat, o: Outcome)
    requires Watching(c, s, r) && Calling(s.sh.producer) && !s.sh.producer.PGate?
    ensures |CallStep(c, s, o).1.log.base| == SLOTS
    ensures RankInv(c, s.poison, CallStep(c, s, o).1, r, s.ranks[r])
  {
    hide PublicationsShared, ReadyShared, RunAt, RerunAt, ProducedShared, LogShared, CallAt, OpenerShared, EpochsShared;
    hide Acked, Arguments, BytesAt, SeekAt, EpochAt, GenerationAt, LocalBytesAt, AckCounts, CloseAt, WaitAt, JoinAt;
    hide AckCells, Stream, Memory, History, ShapeRank, Lockstep;
    var sh := CallStep(c, s, o).1;
    assert SeenByScan(sh.producer, s.sh.active, s.sh.log.epoch, r, s.ranks[r].join);
    hide RankInv, SharedInv;
    ProducerMoves(c, s.poison, s.sh, sh, r, s.ranks[r]);
  }

  /** A run begins: nobody has acknowledged anything of it, and every slot is as its last reader left it. */
  lemma BeginRankKept(c: Config, s: State, r: nat, o: Outcome)
    requires Watching(c, s, r) && s.sh.producer.PGate?
    ensures |CallStep(c, s, o).1.log.base| == SLOTS
    ensures RankInv(c, s.poison, CallStep(c, s, o).1, r, s.ranks[r])
  {
    hide ShapeRank, PublicationsShared, ReadySlot, OpenerShared;
    if !s.poison.Healthy? {
      hide LogShared, ReadyShared, EpochsShared, ProducedShared;
    } else if s.sh.producer.epoch > s.sh.log.epoch {
      FreshRunRank(c, s, r, o);
    } else {
      hide LogShared, ReadyShared, EpochsShared, ProducedShared;
    }
  }

  lemma FreshRunRank(c: Config, s: State, r: nat, o: Outcome)
    requires Watching(c, s, r) && s.sh.producer.PGate?
    requires s.poison.Healthy? && s.sh.producer.epoch > s.sh.log.epoch
    ensures |CallStep(c, s, o).1.log.base| == SLOTS
    ensures RankInv(c, s.poison, CallStep(c, s, o).1, r, s.ranks[r])
  {
    hide PublicationsShared, OpenerShared, LatestIn;
    var log, rk := CallStep(c, s, o).1.log, s.ranks[r];
    assert Acked(s.sh.log, rk.runEpoch, rk.acked) == s.sh.log.count == s.sh.log.published;
    assert !rk.consumer.KAck? && rk.issued == 0;
    assert Acked(log, rk.runEpoch, rk.acked) == 0;
    assert SlotSequence(log, 0, 0) == rk.ack[0] && SlotSequence(log, 0, 1) == rk.ack[1];
  }

  lemma AckRankKept(c: Config, s: State, r: nat, o: Outcome)
    requires Watching(c, s, r) && (s.sh.producer.PAck? || s.sh.producer.PAckGate?)
    ensures |ExpertStep(c, s, o).1.log.base| == SLOTS
    ensures RankInv(c, s.poison, ExpertStep(c, s, o).1, r, s.ranks[r])
  {
    hide PublicationsShared, ReadyShared, ProducedShared, CallAt, OpenerShared, EpochsShared, SlotSequence;
    hide Arguments, BytesAt, SeekAt, EpochAt, GenerationAt, LocalBytesAt, AckCounts, CloseAt, WaitAt, JoinAt;
    hide Stream, Memory, History, Lockstep;
    var p, sh, rk := s.sh.producer, ExpertStep(c, s, o).1, s.ranks[r];
    var a := Acked(s.sh.log, rk.runEpoch, rk.acked);
    hide Acked;
    assert p.expert % SLOTS == 0 || p.expert % SLOTS == 1;
    if p.PAck? && r == p.k && !s.sh.rerun && sh.producer != s.sh.producer
       && rk.ack[p.expert % SLOTS] >= s.sh.published[p.expert % SLOTS] {
      AckedSlot(s.sh.log, a, p.expert);
    }
    assert SeenByProducer(s.sh.log, s.sh.rerun, sh.producer, r, a);
    hide RankInv, SharedInv;
    ProducerMoves(c, s.poison, s.sh, sh, r, rk);
  }

  /** The writer returned: the new entry is in the slot, and nobody has acknowledged it. */
  lemma WroteMemory(c: Config, s: State, r: nat)
    requires Watching(c, s, r) && s.sh.producer.PWrite? && !s.sh.rerun
    ensures var rk := s.ranks[r];
      |rk.host| == SLOTS &&
      Memory(s.sh.log.produced + [HostSlots(c, s, s.sh.producer.expert % SLOTS)], r,
             Acked(s.sh.log, rk.runEpoch, rk.acked), rk.acked, rk.issued - |rk.dma|, rk.gpu, rk.host)
  {
    hide PublicationsShared, ReadyShared, OpenerShared, FillAt, CallAt, EpochsShared, LogShared;
    hide Arguments, BytesAt, SeekAt, EpochAt, LocalBytesAt, CloseAt, WaitAt, JoinAt, History, Lockstep, InFlight;
    hide SeenByOpener, SeenByScan, SeenByProducer, AckCells, GenerationAt, PartOnGpu;
  }

  /** What a rank has read and acknowledged means the same when the log only grows. */
  lemma GrownLog(log: RunLog, log': RunLog, rerun: bool, rk: Rank, a: nat)
    requires |log.base| == SLOTS && |rk.ack| == SLOTS && |rk.lastReady| == SLOTS
    requires log' == log.(produced := log'.produced, published := log'.published) && log.published <= log'.published
    requires AckCells(log, a, rk.ack, rk.lastReady, rk.consumer.KAck?)
    requires GenerationAt(log, rerun, rk.consumer, rk.runEpoch)
    ensures AckCells(log', a, rk.ack, rk.lastReady, rk.consumer.KAck?)
    ensures GenerationAt(log', rerun, rk.consumer, rk.runEpoch)
    ensures Acked(log', rk.runEpoch, rk.acked) == Acked(log, rk.runEpoch, rk.acked)
  {
    assert forall n, i: nat :: i < SLOTS && n >= 0 ==> SlotSequence(log', n, i) == SlotSequence(log, n, i);
  }

  /** A step that lets the log of the run grow. */
  lemma LogGrows(c: Config, p: Poison, sh: Shared, sh': Shared, r: nat, rk: Rank)
    requires ValidConfig(c) && r < c.tp && |sh.log.base| == SLOTS && RankInv(c, p, sh, r, rk)
    requires sh' == sh.(producer := sh'.producer, ready := sh'.ready, published := sh'.published,
                        log := sh'.log, publications := sh'.publications)
    requires sh'.log == sh.log.(produced := sh'.log.produced, published := sh'.log.published)
    requires sh.log.published <= sh'.log.published
    requires SeenByScan(sh'.producer, sh.active, sh.log.epoch, r, rk.join)
    requires var a := Acked(sh.log, rk.runEpoch, rk.acked);
      && SeenByProducer(sh'.log, sh.rerun, sh'.producer, r, a)
      && AckCounts(sh.previous, sh.active, sh.producerDone, sh.log.epoch, sh.log.count, sh'.log.published,
                   rk.join, rk.consumerDone, rk.runEpoch, rk.acked, a)
      && Stream(sh.log.epoch, sh'.log.published, rk.consumer, rk.dma, rk.issued, rk.runEpoch, rk.acked)
      && |rk.host| == SLOTS
      && Memory(sh'.log.produced, r, a, rk.acked, rk.issued - |rk.dma|, rk.gpu, rk.host)
      && History(sh'.log.published, sh'.publications, a, rk.consumed)
    ensures RankInv(c, p, sh', r, rk)
  {
    hide SeenByOpener, Acked, Lockstep, WaitAt, CloseAt, Arguments, BytesAt, SeekAt, EpochAt, GenerationAt, JoinAt;
    hide LocalBytesAt, AckCounts, AckCells, SeenByProducer, Stream, Memory, History, SeenByScan;
    GrownLog(sh.log, sh'.log, sh.rerun, rk, Acked(sh.log, rk.runEpoch, rk.acked));
  }

  lemma WriteRankKept(c: Config, s: State, r: nat, o: Outcome)
    requires Watching(c, s, r) && s.sh.producer.PWrite?
    ensures |ExpertStep(c, s, o).1.log.base| == SLOTS
    ensures RankInv(c, s.poison, ExpertStep(c, s, o).1, r, s.ranks[r])
  {
    var sh, rk := ExpertStep(c, s, o).1, s.ranks[r];
    WritePlace(s.sh, sh.log, sh.producer, r, Acked(s.sh.log, rk.runEpoch, rk.acked), rk.join);
    if !s.sh.rerun { WroteMemory(c, s, r); }
    LogGrows(c, s.poison, s.sh, sh, r, rk);
  }

  /** The producer leaves the writer; it has seen no less than before. */
  lemma WritePlace(sh: Shared, log: RunLog, p: Producer, r: nat, a: nat, join: nat)
    requires |sh.log.base| == SLOTS && sh.producer.PWrite? && log == sh.log.(produced := log.produced)
    requires p == PCatch || p == PNumber(sh.producer.epoch, sh.producer.count, sh.producer.expert)
    requires SeenByProducer(sh.log, sh.rerun, sh.producer, r, a)
    requires SeenByScan(sh.producer, sh.active, sh.log.epoch, r, join)
    ensures SeenByProducer(log, sh.rerun, p, r, a)
    ensures SeenByScan(p, sh.active, sh.log.epoch, r, join)
  {}

  lemma FillRankKept(c: Config, s: State, r: nat, o: Outcome)
    requires Watching(c, s, r) && (s.sh.producer.PNumber? || s.sh.producer.PEpoch? || s.sh.producer.PExpert?)
    ensures |ExpertStep(c, s, o).1.log.base| == SLOTS
    ensures RankInv(c, s.poison, ExpertStep(c, s, o).1, r, s.ranks[r])
  {
    hide PublicationsShared;
  }

  /** One more publication: everybody is one further behind, and the producer moves on. */
  lemma PublishedCounts(c: Config, s: State, r: nat)
    requires Watching(c, s, r) && s.sh.producer.PSequence? && !s.sh.rerun
    ensures var log, rk := s.sh.log, s.ranks[r]; var a := Acked(log, rk.runEpoch, rk.acked); var n := log.published + 1;
      && AckCounts(s.sh.previous, s.sh.active, s.sh.producerDone, log.epoch, log.count, n,
                   rk.join, rk.consumerDone, rk.runEpoch, rk.acked, a)
      && Stream(log.epoch, n, rk.consumer, rk.dma, rk.issued, rk.runEpoch, rk.acked)
      && History(n, Published(s.sh).publications, a, rk.consumed)
      && SeenByProducer(log.(published := n), false, Published(s.sh).producer, r, a)
  {
    hide PublicationsShared, ReadyShared, OpenerShared, FillAt, CallAt, EpochsShared, ProducedShared;
    hide Arguments, BytesAt, SeekAt, EpochAt, LocalBytesAt, CloseAt, WaitAt, JoinAt, Lockstep, Memory, SeenByOpener;
    hide InFlight, AckCells, GenerationAt, SeenByScan;
  }

  lemma RepublishedPlace(c: Config, s: State, r: nat)
    requires Watching(c, s, r) && s.sh.producer.PSequence?
    ensures SeenByScan(Published(s.sh).producer, s.sh.active, s.sh.log.epoch, r, s.ranks[r].join)
  {
    hide SharedInv, AckCells, AckCounts, GenerationAt, SeenByOpener, SeenByProducer, Acked, ShapeRank, Producing;
    hide Lockstep, WaitAt, CloseAt, Arguments, BytesAt, SeekAt, EpochAt, LocalBytesAt, JoinAt, Stream, Memory, History;
  }

  lemma PublishRankKept(c: Config, s: State, r: nat, o: Outcome)
    requires Watching(c, s, r) && s.sh.producer.PSequence?
    ensures |ExpertStep(c, s, o).1.log.base| == SLOTS
    ensures RankInv(c, s.poison, ExpertStep(c, s, o).1, r, s.ranks[r])
  {
    var sh, rk := Published(s.sh), s.ranks[r];
    assert ExpertStep(c, s, o).1 == sh;
    RepublishedPlace(c, s, r);
    if !s.sh.rerun { PublishedCounts(c, s, r); }
    hide SharedInv, ShapeRank, AckCells, GenerationAt, AckCounts, Stream, History, Arguments, BytesAt, SeekAt, EpochAt;
    hide LocalBytesAt, CloseAt, WaitAt, JoinAt, Lockstep, Memory, SeenByOpener, SeenByScan, Acked;
    if s.sh.rerun {} else { hide SeenByProducer; }
    LogGrows(c, s.poison, s.sh, sh, r, rk);
  }

  /** Where a look at a slot's acknowledgements leads. */
  lemma DrainGoes(c: Config, s: State, o: Outcome)
    requires Shape(c, s) && (s.sh.producer.PDrain? || s.sh.producer.PDrainGate?)
    ensures var p, sh := s.sh.producer, DrainStep(c, s, o).1; var p' := sh.producer;
            && sh == s.sh.(producer := p') && |sh.log.base| == SLOTS
            && (p.PDrain? ==>
                  || p'.PCatch? || p' == PDrain(p.epoch, p.count, p.slot, 0)
                  || (&& s.ranks[p.k].ack[p.slot] >= s.sh.published[p.slot]
                      && p' == if p.k + 1 == c.tp then PDrainGate(p.epoch, p.count, p.slot)
                               else PDrain(p.epoch, p.count, p.slot, p.k + 1)))
            && (p.PDrainGate? ==> p'.PCatch? || p' == NextDrain(s.sh.published, p.epoch, p.count, p.slot + 1))
  {
    hide ShapeRank;
  }

  /** An acknowledgement seen for the slot means the rank is past the slot's last expert. */
  lemma DrainLook(c: Config, s: State, r: nat)
    requires Watching(c, s, r) && s.sh.producer.PDrain? && !s.sh.rerun
    requires s.ranks[r].ack[s.sh.producer.slot] >= s.sh.published[s.sh.producer.slot]
    ensures var rk := s.ranks[r]; Drained(s.sh.log, Acked(s.sh.log, rk.runEpoch, rk.acked), s.sh.producer.slot)
  {
    hide PublicationsShared, ReadyShared, ProducedShared, CallAt, OpenerShared, EpochsShared, SeenByScan, GenerationAt;
    hide Arguments, BytesAt, SeekAt, EpochAt, LocalBytesAt, CloseAt, WaitAt, JoinAt, Stream, Memory, History, Lockstep;
    hide SeenByOpener, FillAt, AckCounts, SeenByProducer, SlotSequence, Acked, LogShared;
    assert s.sh.producer.slot == 0 || s.sh.producer.slot == 1;
  }

  /** The facts the two gates rest on. */
  lemma DrainFacts(c: Config, s: State, r: nat)
    requires Watching(c, s, r) && (s.sh.producer.PDrain? || s.sh.producer.PDrainGate?)
    ensures var log, rk := s.sh.log, s.ranks[r]; var a := Acked(log, rk.runEpoch, rk.acked);
            && SeenByProducer(log, s.sh.rerun, s.sh.producer, r, a)
            && log.base[0] <= log.start && log.base[1] <= log.start
            && (!s.sh.rerun ==> a <= log.count && log.count > 0 && s.sh.producer.slot < log.count == log.published)
            && (!s.sh.rerun && log.count > 1 ==> s.sh.published[1] > 0)
            && (s.sh.rerun ==> s.sh.producer.PDrain?)
  {
    hide PublicationsShared, ReadyShared, ProducedShared, CallAt, OpenerShared, EpochsShared, SeenByScan, GenerationAt;
    hide Arguments, BytesAt, SeekAt, EpochAt, LocalBytesAt, CloseAt, WaitAt, JoinAt, Stream, Memory, History, Lockstep;
    hide SeenByOpener, FillAt, SeenByProducer, Acked, AckCells;
  }

  /** What the wait for the slots has seen of this rank after one more look. */
  lemma DrainSeen(c: Config, s: State, r: nat, o: Outcome)
    requires Watching(c, s, r) && (s.sh.producer.PDrain? || s.sh.producer.PDrainGate?)
    ensures var sh, rk := DrainStep(c, s, o).1, s.ranks[r];
      SeenByProducer(s.sh.log, s.sh.rerun, sh.producer, r, Acked(s.sh.log, rk.runEpoch, rk.acked))
  {
    hide SharedInv, RankInv, DrainStep, Acked, SlotSequence;
    DrainGoes(c, s, o);
    DrainFacts(c, s, r);
    var p, a := s.sh.producer, Acked(s.sh.log, s.ranks[r].runEpoch, s.ranks[r].acked);
    if p.PDrain? && r == p.k && !s.sh.rerun && s.ranks[r].ack[p.slot] >= s.sh.published[p.slot] { DrainLook(c, s, r); }
    if DrainStep(c, s, o).1.producer.PDone? && !s.sh.rerun { AllDrained(s.sh.log, a); }
  }

  lemma DrainRankKept(c: Config, s: State, r: nat, o: Outcome)
    requires Watching(c, s, r) && (s.sh.producer.PDrain? || s.sh.producer.PDrainGate?)
    ensures |DrainStep(c, s, o).1.log.base| == SLOTS
    ensures RankInv(c, s.poison, DrainStep(c, s, o).1, r, s.ranks[r])
  {
    DrainSeen(c, s, r, o);
    DrainGoes(c, s, o);
    JoinedAll(c, s, r);
    hide SharedInv, RankInv, DrainStep, SeenByProducer, ShapeRank, Acked;
    ProducerMoves(c, s.poison, s.sh, DrainStep(c, s, o).1, r, s.ranks[r]);
  }

  /** A rank of a run under way has joined its epoch. */
  lemma JoinedAll(c: Config, s: State, r: nat)
    requires Watching(c, s, r)
    ensures s.sh.log.epoch == s.sh.active ==> s.ranks[r].join == s.sh.active
  {
    hide SharedInv, ShapeRank, SeenByOpener, Acked, Lockstep, WaitAt, CloseAt, Arguments, BytesAt, SeekAt, EpochAt;
    hide GenerationAt, LocalBytesAt, AckCounts, AckCells, SeenByProducer, Stream, Memory, History, JoinAt;
  }

  lemma EndRankKept(c: Config, s: State, r: nat, o: Outcome)
    requires Watching(c, s, r) && (s.sh.producer.PDone? || s.sh.producer.PCatch? || s.sh.producer.PIdle?)
    ensures |DrainStep(c, s, o).1.log.base| == SLOTS
    ensures RankInv(c, s.poison, DrainStep(c, s, o).1, r, s.ranks[r])
  {
    hide PublicationsShared;
  }
}
