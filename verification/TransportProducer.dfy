/** The producer's steps keep the shared part and every rank. */
module TransportProducer {
  import opened TransportModel
  import opened TransportInvariant

  /** The shared part, and the rank whose cell the step reads. */
  predicate Producing(c: Config, s: State) {
    var p := s.sh.producer;
    && Shape(c, s) && SharedInv(c, s.sh)
    && ProducerTold(s.poison, p, s.sh.producerDone == s.sh.log.epoch, s.sh.rerun)
    && (p.PAck? || p.PDrain? ==> RankInv(c, s.poison, s.sh, p.k, s.ranks[p.k]))
  }

  // ----------------------------------------------------- arithmetic of slots

  /** An acknowledged slot means the run went past the expert two before. */
  lemma AckedSlot(log: RunLog, a: nat, x: nat)
    requires |log.base| == SLOTS && log.base[0] <= log.start && log.base[1] <= log.start
    requires x >= SLOTS && SlotSequence(log, a, x % SLOTS) >= SlotSequence(log, x, x % SLOTS)
    ensures x <= a + 1
  {
  }

  /** Both slots drained: everything is acknowledged. */
  lemma AllDrained(log: RunLog, a: nat)
    requires |log.base| == SLOTS && log.base[0] <= log.start && log.base[1] <= log.start
    requires a <= log.count && log.count > 0
    requires Drained(log, a, 0) && (log.count > 1 ==> Drained(log, a, 1))
    ensures a == log.count
  {
  }

  // ------------------------------------------------------------ shared part

  lemma CallMoves(c: Config, sh: Shared, p: Producer)
    requires SharedInv(c, sh) && !InRun(sh.producer) && !InRun(p)
    requires CallAt(p, sh.active, sh.openCount, sh.log.epoch) && (p.PScan? ==> p.k < c.tp)
    ensures SharedInv(c, sh.(producer := p))
  {
    hide PublicationsShared, SlotSequence, LatestIn, LogShared, EpochsShared, OpenerShared;
  }

  /** Before the gate only the place changes, and the checks make the call fit the epoch. */
  lemma CallGoes(c: Config, s: State, o: Outcome)
    requires Shape(c, s) && Calling(s.sh.producer) && !s.sh.producer.PGate?
    ensures var sh := CallStep(c, s, o).1;
            && sh == s.sh.(producer := sh.producer) && !InRun(sh.producer)
            && (sh.producer.PScan? ==> sh.producer.k < c.tp)
            && (Calling(sh.producer) ==> sh.producer.epoch == s.sh.producer.epoch)
            && (Calling(sh.producer) ==> sh.producer.count == s.sh.producer.count)
            && (sh.producer.PLayer? ==> s.sh.producer.epoch == s.sh.active)
            && (Calling(sh.producer) && !sh.producer.PLayer? ==> !s.sh.producer.PActive?)
            && (sh.producer.PJoined? ==> s.sh.expertCount == s.sh.producer.count)
            && (sh.producer.PScan? || sh.producer.PGate? ==> s.sh.producer.PJoined? || s.sh.producer.PScan?)
            && !sh.producer.PActive?
  {
    hide ShapeRank;
    if s.sh.producer.PScan? {} else {}
  }

  lemma CallFits(c: Config, s: State, p: Producer)
    requires SharedInv(c, s.sh) && Calling(s.sh.producer)
    requires Calling(p) ==> p.epoch == s.sh.producer.epoch && p.count == s.sh.producer.count
    requires p.PLayer? ==> s.sh.producer.epoch == s.sh.active
    requires Calling(p) && !p.PLayer? ==> !s.sh.producer.PActive?
    requires p.PJoined? ==> s.sh.expertCount == s.sh.producer.count
    requires p.PScan? || p.PGate? ==> s.sh.producer.PJoined? || s.sh.producer.PScan?
    requires !p.PActive?
    ensures CallAt(p, s.sh.active, s.sh.openCount, s.sh.log.epoch)
  {
    hide PublicationsShared, ReadyShared, ProducedShared, LogShared, RunAt, RerunAt, FillAt, SlotSequence, ReadySlot;
  }

  lemma CallSharedKept(c: Config, s: State, o: Outcome)
    requires Producing(c, s) && Calling(s.sh.producer) && !s.sh.producer.PGate?
    ensures SharedInv(c, CallStep(c, s, o).1)
  {
    hide SharedInv, RankInv, CallStep, ProducerTold, ShapeRank;
    CallGoes(c, s, o);
    CallFits(c, s, CallStep(c, s, o).1.producer);
    CallMoves(c, s.sh, CallStep(c, s, o).1.producer);
  }

  lemma BeginSharedKept(c: Config, s: State, o: Outcome)
    requires Producing(c, s) && s.sh.producer.PGate?
    ensures SharedInv(c, CallStep(c, s, o).1)
  {
    hide RankInv, ShapeRank, OpenerShared;
    if !s.poison.Healthy? {} else if s.sh.producer.epoch > s.sh.log.epoch {} else {}
  }

  /** The producer moves inside its run, or out of it by throwing, without storing anything. */
  lemma RunMoves(c: Config, sh: Shared, p: Producer)
    requires SharedInv(c, sh) && ShapeShared(c, sh.(producer := p))
    requires InRun(sh.producer) && !WriterDone(sh.producer)
    requires p.PCatch? || (InRun(p) && !WriterDone(p))
    requires if sh.rerun then RerunAt(p, sh.log, sh.published)
             else RunAt(p, sh.log, sh.active, sh.producerDone, sh.published, sh.nextSequence)
    ensures SharedInv(c, sh.(producer := p))
  {
    hide PublicationsShared, SlotSequence, LatestIn, LogShared, EpochsShared, OpenerShared, RunAt, RerunAt;
  }

  lemma RunLeft(sh: Shared, p: Producer)
    requires p.PCatch? && |sh.published| == SLOTS && |sh.log.base| == SLOTS
    ensures RerunAt(p, sh.log, sh.published)
    ensures RunAt(p, sh.log, sh.active, sh.producerDone, sh.published, sh.nextSequence)
  {
  }

  /** In a rerun no rank ever shows the sequence waited for. */
  lemma NoRankAcks(log: RunLog, a: nat, i: nat)
    requires |log.base| == SLOTS && log.base[0] <= log.start && log.base[1] <= log.start && i < SLOTS && a <= log.count
    ensures SlotSequence(log, a, i) <= log.start + log.count
  {
  }

  /** What the rank looked at shows is at most the end of the logged run. */
  lemma AckBelow(c: Config, p: Poison, sh: Shared, k: nat, rk: Rank, i: nat)
    requires SharedInv(c, sh) && k < c.tp && RankInv(c, p, sh, k, rk) && i < SLOTS
    ensures |rk.ack| == SLOTS && rk.ack[i] <= sh.log.start + sh.log.count
  {
    hide PublicationsShared, ReadyShared, ProducedShared, OpenerShared, EpochsShared, RunAt, RerunAt, CallAt, FillAt;
    hide Lockstep, SeenByOpener, SeenByScan, Arguments, JoinAt, WaitAt, BytesAt, CloseAt, SeekAt, EpochAt;
    hide GenerationAt, LocalBytesAt, SeenByProducer, Stream, Memory, History, SlotSequence;
    var a := Acked(sh.log, rk.runEpoch, rk.acked);
    NoRankAcks(sh.log, a, i);
    assert i == 0 || i == 1;
  }

  lemma AckSharedKept(c: Config, s: State, o: Outcome)
    requires Producing(c, s) && s.sh.producer.PAck?
    ensures SharedInv(c, ExpertStep(c, s, o).1)
  {
    hide ShapeRank, RankInv, PublicationsShared, ReadyShared, ProducedShared, OpenerShared, EpochsShared, CallAt;
    hide FillAt;
    hide SlotSequence, LogShared;
    var p, sh := s.sh.producer, ExpertStep(c, s, o).1;
    AckBelow(c, s.poison, s.sh, p.k, s.ranks[p.k], p.expert % SLOTS);
    if sh.producer.PCatch? { RunLeft(s.sh, sh.producer); }
    assert sh == s.sh.(producer := sh.producer);
    hide SharedInv;
    RunMoves(c, s.sh, sh.producer);
  }

  lemma WriteSharedKept(c: Config, s: State, o: Outcome)
    requires Producing(c, s) && (s.sh.producer.PAckGate? || s.sh.producer.PWrite?)
    ensures SharedInv(c, ExpertStep(c, s, o).1)
  {
    hide ShapeRank, PublicationsShared, LatestIn, OpenerShared, RankInv;
    if s.sh.producer.PWrite? && !o.Errs? {} else {}
  }

  lemma FillSharedKept(c: Config, s: State, o: Outcome)
    requires Producing(c, s) && (s.sh.producer.PNumber? || s.sh.producer.PEpoch? || s.sh.producer.PExpert?)
    ensures SharedInv(c, ExpertStep(c, s, o).1)
  {
    hide ShapeRank, PublicationsShared, OpenerShared, RankInv, EpochsShared, ProducerTold, SlotSequence, LatestIn;
    var x := s.sh.producer.expert;
    if s.sh.producer.PNumber? {} else if x % SLOTS == 0 {} else {}
  }

  lemma OnePublication(start: nat, epoch: nat, n: nat, pubs: seq<Publication>)
    requires PublicationsShared(start, epoch, n, pubs)
    ensures PublicationsShared(start, epoch, n + 1, pubs + [Publication(start + n + 1, epoch, n)])
  {
  }

  lemma PublishedReady(c: Config, sh: Shared)
    requires SharedInv(c, sh) && sh.producer.PSequence?
    ensures var t := Published(sh);
      && |t.ready| == SLOTS && |t.log.base| == SLOTS
      && ReadyShared(t.ready, t.log, t.producer, t.rerun)
  {
    hide OpenerShared, PublicationsShared, EpochsShared, CallAt, ProducedShared, RerunAt;
    if sh.rerun {} else if sh.producer.expert % SLOTS == 0 {} else {}
  }

  lemma PublishedRun(c: Config, sh: Shared)
    requires SharedInv(c, sh) && sh.producer.PSequence?
    ensures var t := Published(sh);
      && |t.published| == SLOTS && |t.log.base| == SLOTS
      && (t.rerun ==> RerunAt(t.producer, t.log, t.published))
      && (!t.rerun ==> RunAt(t.producer, t.log, t.active, t.producerDone, t.published, t.nextSequence))
  {
    hide OpenerShared, PublicationsShared, EpochsShared, CallAt, ProducedShared, ReadyShared, FillAt;
    if sh.rerun {} else if sh.producer.expert % SLOTS == 0 {} else {}
  }

  lemma PublishedRest(c: Config, sh: Shared)
    requires SharedInv(c, sh) && sh.producer.PSequence?
    ensures var t := Published(sh);
      && ShapeShared(c, t)
      && LogShared(t.log, t.active, t.openCount, t.producerDone, t.nextSequence, t.rerun)
      && ProducedShared(c, t.log.produced, t.log.published, t.producerDone == t.log.epoch, t.producer, t.rerun)
      && CallAt(t.producer, t.active, t.openCount, t.log.epoch)
      && FillAt(t.producer, t.ready)
      && PublicationsShared(t.log.start, t.log.epoch, t.log.published, t.publications)
  {
    hide OpenerShared, PublicationsShared, EpochsShared, ReadyShared, SlotSequence;
    OnePublication(sh.log.start, sh.log.epoch, sh.log.published, sh.publications);
    if sh.rerun { hide RunAt; } else { hide RerunAt; }
  }

  lemma PublishSharedKept(c: Config, s: State, o: Outcome)
    requires Producing(c, s) && s.sh.producer.PSequence?
    ensures SharedInv(c, ExpertStep(c, s, o).1)
  {
    hide RankInv, ShapeRank, OpenerShared, PublicationsShared, EpochsShared, ProducerTold, ReadyShared, RunAt, RerunAt;
    hide LogShared, ProducedShared, CallAt, FillAt;
    PublishedRun(c, s.sh);
    PublishedReady(c, s.sh);
    PublishedRest(c, s.sh);
  }

  lemma DrainSharedKept(c: Config, s: State, o: Outcome)
    requires Producing(c, s) && s.sh.producer.PDrain?
    ensures SharedInv(c, DrainStep(c, s, o).1)
  {
    hide ShapeRank, RankInv, PublicationsShared, ReadyShared, ProducedShared, OpenerShared, EpochsShared, CallAt;
    hide FillAt;
    hide SlotSequence, LogShared;
    var p, sh := s.sh.producer, DrainStep(c, s, o).1;
    AckBelow(c, s.poison, s.sh, p.k, s.ranks[p.k], p.slot);
    if sh.producer.PCatch? { RunLeft(s.sh, sh.producer); }
    assert sh == s.sh.(producer := sh.producer);
    hide SharedInv;
    RunMoves(c, s.sh, sh.producer);
  }

  lemma EndSharedKept(c: Config, s: State, o: Outcome)
    requires Producing(c, s) && !Calling(s.sh.producer) && !OnExpert(s.sh.producer) && !s.sh.producer.PDrain?
    ensures SharedInv(c, DrainStep(c, s, o).1)
  {
    hide ShapeRank, PublicationsShared, LatestIn, OpenerShared, RankInv;
  }
}
