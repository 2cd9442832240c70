/** Rank zero's part of `join` keeps the shared part and every rank. */
module TransportOpener {
  import opened TransportModel
  import opened TransportInvariant

  /** The invariant of the shared part, of rank r, and of the rank whose cell the step reads. */
  predicate Opening(c: Config, s: State, r: nat) {
    && Shape(c, s) && SharedInv(c, s.sh) && r < c.tp
    && RankInv(c, s.poison, s.sh, r, s.ranks[r])
    && (s.sh.opener.OScan? ==> RankInv(c, s.poison, s.sh, s.sh.opener.k, s.ranks[s.sh.opener.k]))
  }

  predicate RankKept(c: Config, s: State, r: nat, o: Outcome)
    requires Shape(c, s) && r < c.tp
  {
    var (p, sh) := OpenerStep(c, s, o);
    |sh.log.base| == SLOTS && RankInv(c, p, sh, r, OpenerEffect(s.sh.opener, sh.opener, r, s.ranks[r]))
  }

  lemma ScanSharedKept(c: Config, s: State, o: Outcome)
    requires Opening(c, s, 0) && !s.sh.opener.OActivate?
    ensures SharedInv(c, OpenerStep(c, s, o).1)
  {
    hide PublicationsShared, ReadyShared, RunAt, RerunAt, ProducedShared, LogShared, CallAt, ShapeRank;
    hide SeenByScan, Arguments, JoinAt, WaitAt, BytesAt, CloseAt, SeekAt, EpochAt, GenerationAt, LocalBytesAt;
    hide AckCounts;
    hide AckCells, SeenByProducer, Stream, Memory, History, SeenByOpener;
    if s.sh.opener.OScan? {
      if s.ranks[s.sh.opener.k].waitReturned >= s.sh.active {} else {}
    } else {}
  }

  lemma ActivateSharedKept(c: Config, s: State, o: Outcome)
    requires Opening(c, s, 0) && s.sh.opener.OActivate?
    ensures SharedInv(c, OpenerStep(c, s, o).1)
  {
    hide RankInv, PublicationsShared, ReadyShared, RerunAt, ProducedShared;
  }

  /** A rank is untouched by a step that stores nothing but its own cells and the opener's place. */
  lemma OpenerMoves(c: Config, p: Poison, sh: Shared, sh': Shared, r: nat, rk: Rank)
    requires SharedInv(c, sh) && r < c.tp && RankInv(c, p, sh, r, rk)
    requires sh' == sh.(opener := sh'.opener, layerId := sh'.layerId, expertCount := sh'.expertCount)
    requires r == 0 ==> sh.opener.ONone? == sh'.opener.ONone?
    requires SeenByOpener(sh'.opener, sh.active, r, rk.waitReturned)
    ensures RankInv(c, p, sh', r, rk)
  {
    hide SharedInv, SeenByOpener, Acked, Lockstep, WaitAt, CloseAt, Arguments, BytesAt, SeekAt, EpochAt, GenerationAt;
    hide LocalBytesAt, AckCounts, AckCells, SeenByProducer, Stream, Memory, History, SeenByScan, ShapeRank;
  }

  /** Rank zero throws out of `join`. */
  lemma OpenerThrows(c: Config, p: Poison, code: Code, claims: bool, sh: Shared, rk: Rank)
    requires SharedInv(c, sh) && RankInv(c, p, sh, 0, rk)
    requires rk.caller.COpening?
    ensures RankInv(c, if claims then Claim(p, code) else p, sh.(opener := ONone), 0, rk.(caller := CIdle))
  {
    hide SharedInv, Acked, Lockstep, Arguments, BytesAt, SeekAt, EpochAt, GenerationAt;
    hide LocalBytesAt, AckCounts, AckCells, SeenByProducer, Stream, Memory, History, SeenByScan;
  }

  /** Others are told nothing but the poison cell. */
  lemma ClaimKept(c: Config, p: Poison, code: Code, sh: Shared, r: nat, rk: Rank)
    requires ValidConfig(c) && |sh.log.base| == SLOTS && r < c.tp && RankInv(c, p, sh, r, rk)
    ensures RankInv(c, Claim(p, code), sh, r, rk)
  {
    hide Acked, Lockstep, Arguments, BytesAt, SeekAt, EpochAt, GenerationAt, JoinAt, WaitAt, SeenByOpener;
    hide LocalBytesAt, AckCounts, AckCells, SeenByProducer, Stream, Memory, History, SeenByScan, ShapeRank;
  }

  /** Where the opener goes from a place before the byte counters, and what it leaves alone. */
  lemma OpenerGoes(c: Config, s: State, o: Outcome)
    requires Shape(c, s) && !s.sh.opener.OActivate? && !s.sh.opener.OBytes? && !s.sh.opener.ONone?
    ensures var (p, sh) := OpenerStep(c, s, o);
            && sh == s.sh.(opener := sh.opener, layerId := sh.layerId, expertCount := sh.expertCount)
            && (p == s.poison || p == Claim(s.poison, Protocol) || p == Claim(s.poison, TimedOut))
            && (sh.opener.ONone? ==> sh == s.sh.(opener := ONone))
            && (!sh.opener.ONone? ==> p == s.poison)
  {
    hide ShapeRank;
  }

  lemma OpenerSees(c: Config, s: State, r: nat, o: Outcome)
    requires Opening(c, s, r) && !s.sh.opener.OActivate? && !s.sh.opener.OBytes? && !s.sh.opener.ONone?
    ensures SeenByOpener(OpenerStep(c, s, o).1.opener, s.sh.active, r, s.ranks[r].waitReturned)
    ensures r == 0 ==> s.ranks[r].caller.COpening?
  {
    hide PublicationsShared, ReadyShared, RunAt, RerunAt, ProducedShared, LogShared, CallAt, OpenerShared;
    hide Acked, Arguments, BytesAt, SeekAt, EpochAt, GenerationAt, LocalBytesAt, AckCounts, CloseAt, WaitAt;
    hide AckCells, SeenByProducer, Stream, Memory, History, SeenByScan, ShapeRank;
  }

  /** Up to the clearing of the byte counters a step moves rank zero on or lets it leave. */
  lemma OpenerRankKept(c: Config, s: State, r: nat, o: Outcome)
    requires Opening(c, s, r) && !s.sh.opener.OActivate? && !s.sh.opener.OBytes? && !s.sh.opener.ONone?
    ensures RankKept(c, s, r, o)
  {
    hide RankInv, SharedInv, OpenerStep, SeenByOpener, ShapeRank;
    var (p, sh) := OpenerStep(c, s, o);
    OpenerGoes(c, s, o);
    OpenerSees(c, s, r, o);
    if r == 0 && sh.opener.ONone? {
      OpenerThrows(c, s.poison, Protocol, true, s.sh, s.ranks[0]);
      OpenerThrows(c, s.poison, TimedOut, true, s.sh, s.ranks[0]);
      OpenerThrows(c, s.poison, TimedOut, false, s.sh, s.ranks[0]);
    } else {
      OpenerMoves(c, s.poison, s.sh, sh, r, s.ranks[r]);
      ClaimKept(c, s.poison, Protocol, sh, r, s.ranks[r]);
      ClaimKept(c, s.poison, TimedOut, sh, r, s.ranks[r]);
    }
  }

  lemma BytesRankKept(c: Config, s: State, r: nat, o: Outcome)
    requires Opening(c, s, r) && s.sh.opener.OBytes?
    ensures RankKept(c, s, r, o)
  {
    hide SharedInv, Acked, Arguments, SeekAt, GenerationAt, AckCounts, AckCells, SeenByProducer, Stream, Memory;
    hide History;
    if s.sh.opener.k == r {} else {}
  }

  lemma ActivateRankKept(c: Config, s: State, r: nat, o: Outcome)
    requires Opening(c, s, r) && s.sh.opener.OActivate?
    ensures RankKept(c, s, r, o)
  {
    hide PublicationsShared, ReadyShared, RunAt, RerunAt, ProducedShared, Acked, AckCells, Stream, Memory, History;
    hide GenerationAt;
    if r == 0 {} else {}
  }
}
