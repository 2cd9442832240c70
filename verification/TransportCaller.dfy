/** The callers' steps keep the invariant of their own rank. */
module TransportCaller {
  import opened TransportModel
  import opened TransportInvariant
  import opened TransportConsumer

  lemma JoinKept(c: Config, p: Poison, sh: Shared, r: nat, rk: Rank, o: Outcome)
    requires Before(c, p, sh, r, rk)
    requires rk.caller.JWait? || rk.caller.JGate?
    ensures var (q, rk') := JoinStep(p, sh, rk, o); RankInv(c, q, sh, r, rk')
  {
    hide SharedInv, Acked, AckCells, AckCounts, Memory, Stream, Lockstep, SeenByScan, SeenByOpener, Arguments;
    hide SeenByProducer, History, TotalBytes, GenerationAt, EpochAt, SeekAt, LocalBytesAt, BytesAt;
    if rk.caller.JGate? {} else if o.TimesOut? {} else if sh.active == rk.caller.epoch {} else {}
  }

  /** As long as the rank has not joined, the argument cells show what the epoch was opened with. */
  lemma ArgumentsRead(c: Config, p: Poison, sh: Shared, r: nat, rk: Rank)
    requires Before(c, p, sh, r, rk)
    requires Joining(rk.caller) && rk.join != rk.caller.epoch
    ensures sh.layerId == sh.openLayer && sh.expertCount == sh.openCount
  {
    hide LogShared, ReadyShared, RunAt, RerunAt, PublicationsShared, ProducedShared, CallAt, FillAt;
    hide Acked, AckCells, AckCounts, Memory, Stream, SeenByScan, Arguments, BytesAt, WaitAt, CloseAt, ShapeRank;
    hide SeenByProducer, History, TotalBytes, GenerationAt, EpochAt, SeekAt, LocalBytesAt;
  }

  lemma ArgumentsKept(c: Config, p: Poison, sh: Shared, r: nat, rk: Rank, o: Outcome)
    requires Before(c, p, sh, r, rk)
    requires rk.caller.JLayer? || rk.caller.JCount?
    ensures var (q, rk') := JoinStep(p, sh, rk, o); RankInv(c, q, sh, r, rk')
  {
    hide SharedInv, Acked, AckCells, AckCounts, Memory, Stream, Lockstep, SeenByScan, SeenByOpener, Arguments;
    hide SeenByProducer, History, TotalBytes, GenerationAt, EpochAt, SeekAt, LocalBytesAt, BytesAt;
    if rk.join != rk.caller.epoch { ArgumentsRead(c, p, sh, r, rk); }
    if rk.caller.JLayer? {} else {}
  }

  lemma JoinStoreKept(c: Config, p: Poison, sh: Shared, r: nat, rk: Rank, o: Outcome)
    requires Before(c, p, sh, r, rk)
    requires rk.caller.JStore?
    ensures var (q, rk') := JoinStep(p, sh, rk, o); RankInv(c, q, sh, r, rk')
  {
    hide LogShared, ReadyShared, RunAt, PublicationsShared, Acked, AckCells, Memory, Stream, RerunAt, FillAt, CallAt;
    hide SeenByProducer, History, TotalBytes, GenerationAt, ProducedShared, LocalBytesAt;
  }

  lemma WaitKept(c: Config, p: Poison, sh: Shared, r: nat, rk: Rank, o: Outcome)
    requires Before(c, p, sh, r, rk)
    requires rk.caller.WConsumer? || rk.caller.WProducer? || rk.caller.WGate?
    ensures var (q, rk') := WaitStep(p, sh, rk, o); RankInv(c, q, sh, r, rk')
  {
    hide SharedInv, Acked, AckCells, AckCounts, Memory, Stream, SeenByScan, SeenByOpener, Arguments;
    hide SeenByProducer, History, TotalBytes, GenerationAt, EpochAt, SeekAt, LocalBytesAt, BytesAt;
    if rk.caller.WGate? {} else if rk.caller.WProducer? {} else if o.TimesOut? {} else {}
  }

  lemma StatsKept(c: Config, p: Poison, sh: Shared, r: nat, rk: Rank, o: Outcome)
    requires Before(c, p, sh, r, rk)
    requires rk.caller.WLayer? || rk.caller.WCount? || rk.caller.WBytes? || rk.caller.WStore?
    ensures var (q, rk') := WaitStep(p, sh, rk, o); RankInv(c, q, sh, r, rk')
  {
    hide LogShared, ReadyShared, RunAt, PublicationsShared, Acked, AckCells, AckCounts, Memory, Stream;
    hide SeenByProducer, History, TotalBytes, GenerationAt, EpochAt, SeekAt;
  }

  lemma CloseKept(c: Config, p: Poison, sh: Shared, r: nat, rk: Rank)
    requires Before(c, p, sh, r, rk)
    requires Closing(rk.caller)
    ensures var (q, rk') := CloseStep(p, sh, rk); RankInv(c, q, sh, r, rk')
  {
    hide LogShared, ReadyShared, RunAt, RerunAt, PublicationsShared, ProducedShared, CallAt, FillAt, OpenerShared;
    hide Acked, AckCells, AckCounts, Memory, Stream, SeenByScan, SeenByOpener, Arguments, BytesAt;
    hide SeenByProducer, History, TotalBytes, GenerationAt, EpochAt, SeekAt, LocalBytesAt;
  }

  lemma CallerKept(c: Config, p: Poison, sh: Shared, r: nat, rk: Rank, o: Outcome)
    requires Before(c, p, sh, r, rk)
    ensures var (q, rk') := CallerStep(p, sh, rk, o); RankInv(c, q, sh, r, rk')
    ensures var q := CallerStep(p, sh, rk, o).0; q == p || exists code :: q == Claim(p, code)
  {
    CallerClaims(p, sh, rk, o);
    hide RankInv, SharedInv, JoinStep, WaitStep, CloseStep;
    var k := rk.caller;
    if k.JWait? || k.JGate? { JoinKept(c, p, sh, r, rk, o); }
    else if k.JLayer? || k.JCount? { ArgumentsKept(c, p, sh, r, rk, o); }
    else if k.JStore? { JoinStoreKept(c, p, sh, r, rk, o); }
    else if k.WConsumer? || k.WProducer? || k.WGate? { WaitKept(c, p, sh, r, rk, o); }
    else if Waiting(k) { StatsKept(c, p, sh, r, rk, o); }
    else if Closing(k) { CloseKept(c, p, sh, r, rk); }
    else { assert CloseStep(p, sh, rk) == (p, rk) by { OtherwiseIdle(p, sh, rk); } }
  }

  lemma OtherwiseIdle(p: Poison, sh: Shared, rk: Rank)
    requires ShapeRank(rk) && (rk.caller.CIdle? || rk.caller.COpening?)
    ensures CloseStep(p, sh, rk) == (p, rk)
  {
  }

  lemma CallerClaims(p: Poison, sh: Shared, rk: Rank, o: Outcome)
    requires ShapeRank(rk)
    ensures var q := CallerStep(p, sh, rk, o).0; q == p || exists code :: q == Claim(p, code)
  {
    assert Claim(p, Protocol) == Claim(p, Protocol) && Claim(p, TimedOut) == Claim(p, TimedOut)
           && Claim(p, ClosedWhileActive) == Claim(p, ClosedWhileActive);
  }
}
