/** The invariant holds initially and survives every action, so it holds after every schedule. */
module TransportSafety {
  import opened TransportModel
  import opened TransportInvariant
  import opened TransportConsumer
  import opened TransportCaller
  import opened TransportOpener
  import opened TransportProducer
  import opened TransportProducerRanks

  // ------------------------------------------------- the calls and the rest

  lemma BeginJoinKept(c: Config, p: Poison, sh: Shared, r: nat, rk: Rank, e: nat, l: int, n: nat)
    requires Before(c, p, sh, r, rk) && rk.caller.CIdle? && !rk.closed && ValidCall(c, r, e, l, n)
    ensures r != 0 ==> RankInv(c, p, sh, r, rk.(caller := JWait(e, l, n)))
    ensures r == 0 ==>
              var sh' := sh.(opener := OActive(e, l, n));
              SharedInv(c, sh') && RankInv(c, p, sh', 0, rk.(caller := COpening))
  {
    hide PublicationsShared, ReadyShared, RunAt, RerunAt, ProducedShared, LogShared, CallAt, Acked, FillAt;
    hide Arguments, BytesAt, SeekAt, EpochAt, GenerationAt, LocalBytesAt, AckCounts;
    hide AckCells, SeenByProducer, Stream, Memory, History, SeenByScan, Lockstep;
  }

  lemma BeginWaitKept(c: Config, p: Poison, sh: Shared, r: nat, rk: Rank, e: nat)
    requires Before(c, p, sh, r, rk) && rk.caller.CIdle? && !rk.closed
    ensures e != 0 && rk.join == e ==> RankInv(c, p, sh, r, rk.(caller := WConsumer(e)))
    ensures RankInv(c, p, sh, r, rk.(closed := true, caller := XActive))
  {
    hide SharedInv, Acked, Arguments, BytesAt, SeekAt, EpochAt, GenerationAt, LocalBytesAt, AckCounts;
    hide AckCells, SeenByProducer, Stream, Memory, History, SeenByScan, Lockstep, SeenByOpener;
  }

  /** The writer fills a slot that no rank still has to copy. */
  lemma WriterKept(c: Config, p: Poison, sh: Shared, r: nat, rk: Rank, kind: nat, block: Block)
    requires Before(c, p, sh, r, rk) && sh.producer.PWrite? && kind < KINDS
    ensures RankInv(c, p, sh, r, Written(rk, sh.producer.expert % SLOTS, kind, block))
  {
    hide PublicationsShared, ReadyShared, GpuHolds, SlotSequence, TotalBytes;
    hide Arguments, BytesAt, SeekAt, EpochAt, GenerationAt, LocalBytesAt;
    hide AckCells, History, SeenByScan, Lockstep, SeenByOpener, JoinAt, WaitAt, CloseAt;
  }

  lemma FinishPoisonKept(c: Config, p: Poison, sh: Shared, r: nat, rk: Rank)
    requires Before(c, p, sh, r, rk) && p.Claimed?
    ensures RankInv(c, Poisoned(p.code), sh, r, rk)
  {
    hide SharedInv, Acked, Lockstep, Arguments, BytesAt, SeekAt, EpochAt, GenerationAt, JoinAt, WaitAt, SeenByOpener;
    hide LocalBytesAt, AckCounts, AckCells, SeenByProducer, Stream, Memory, History, SeenByScan, ShapeRank;
  }

  /** What the epoch was opened with, and that calls come before runs. */
  predicate KeepsEpoch(sh: Shared, t: Shared) {
    && t.active == sh.active && t.previous == sh.previous && t.opener == sh.opener
    && t.openLayer == sh.openLayer && t.openCount == sh.openCount
    && (Calling(t.producer) ==> Calling(sh.producer))
  }

  lemma CallKeepsEpoch(c: Config, s: State, o: Outcome)
    requires Shape(c, s) && Calling(s.sh.producer)
    ensures KeepsEpoch(s.sh, CallStep(c, s, o).1)
  {
    hide ShapeRank;
    if s.sh.producer.PScan? {} else if s.sh.producer.PGate? {} else {}
  }

  lemma ExpertKeepsEpoch(c: Config, s: State, o: Outcome)
    requires Shape(c, s)
    ensures KeepsEpoch(s.sh, ExpertStep(c, s, o).1)
  {
    hide ShapeRank;
    if s.sh.producer.PAck? {} else if s.sh.producer.PSequence? {} else {}
  }

  lemma DrainKeepsEpoch(c: Config, s: State, o: Outcome)
    requires Shape(c, s)
    ensures KeepsEpoch(s.sh, DrainStep(c, s, o).1)
  {
    hide ShapeRank;
  }

  /** The producer never touches what the epoch was opened with. */
  lemma ProducerKeepsEpoch(c: Config, s: State, o: Outcome)
    requires Shape(c, s)
    ensures KeepsEpoch(s.sh, ProducerStep(c, s, o).1)
  {
    hide Shape, CallStep, ExpertStep, DrainStep, KeepsEpoch, OnExpert;
    if Calling(s.sh.producer) { CallKeepsEpoch(c, s, o); }
    ExpertKeepsEpoch(c, s, o);
    DrainKeepsEpoch(c, s, o);
  }

  // ---------------------------------------------------------------- actions

  lemma InvImpliesShape(c: Config, s: State)
    requires Inv(c, s)
    ensures Shape(c, s)
  {
  }

  /** A rank's own step: the others see at most the poison cell change. */
  lemma OneRankChanges(c: Config, s: State, r: nat, p: Poison, rk: Rank)
    requires Inv(c, s) && r < c.tp
    requires p == s.poison || exists code :: p == Claim(s.poison, code)
    requires RankInv(c, p, s.sh, r, rk)
    ensures Inv(c, s.(poison := p, ranks := s.ranks[r := rk]))
  {
    var t := s.(poison := p, ranks := s.ranks[r := rk]);
    forall q {:trigger t.ranks[q]} | 0 <= q < c.tp ensures RankInv(c, p, t.sh, q, t.ranks[q]) {
      if q != r {
        assert RankInv(c, s.poison, s.sh, q, s.ranks[q]);
        if p != s.poison {
          var code :| p == Claim(s.poison, code);
          ClaimKept(c, s.poison, code, s.sh, q, s.ranks[q]);
        }
      }
    }
  }

  lemma ConsumerActionKept(c: Config, s: State, r: nat, o: Outcome)
    requires Inv(c, s) && Shape(c, s) && r < c.tp
    ensures Inv(c, Step(c, s, StepConsumer(r, o)))
  {
    hide SharedInv, RankInv, SeekStep, PollStep, CopyStep, FinishStep;
    assert RankInv(c, s.poison, s.sh, r, s.ranks[r]);
    ConsumerKept(c, s.poison, s.sh, r, s.ranks[r], o);
    var (p, rk) := ConsumerStep(c, s.poison, s.sh, s.ranks[r], r, o);
    ConsumerClaims(c, s.poison, s.sh, s.ranks[r], r, o);
    OneRankChanges(c, s, r, p, rk);
  }

  lemma ConsumerClaims(c: Config, p: Poison, sh: Shared, rk: Rank, r: nat, o: Outcome)
    requires ValidConfig(c) && r < c.tp && ShapeShared(c, sh) && ShapeRank(rk)
    ensures var q := ConsumerStep(c, p, sh, rk, r, o).0;
            q == p || exists code :: q == Claim(p, code)
  {
    assert Claim(p, Protocol) == Claim(p, Protocol) && Claim(p, TimedOut) == Claim(p, TimedOut)
           && Claim(p, CudaCopy) == Claim(p, CudaCopy);
  }

  lemma CallerActionKept(c: Config, s: State, r: nat, o: Outcome)
    requires Inv(c, s) && Shape(c, s) && r < c.tp && !s.ranks[r].caller.COpening?
    ensures Inv(c, Step(c, s, StepCaller(r, o)))
  {
    hide SharedInv, RankInv, CallerStep;
    assert RankInv(c, s.poison, s.sh, r, s.ranks[r]);
    CallerKept(c, s.poison, s.sh, r, s.ranks[r], o);
    var (p, rk) := CallerStep(s.poison, s.sh, s.ranks[r], o);
    OneRankChanges(c, s, r, p, rk);
  }

  lemma OpenerInCall(c: Config, s: State)
    requires Inv(c, s) && Shape(c, s) && s.ranks[0].caller.COpening?
    ensures !s.sh.opener.ONone?
  {
    assert RankInv(c, s.poison, s.sh, 0, s.ranks[0]);
    hide SharedInv, Acked, Lockstep, WaitAt, CloseAt, Arguments, BytesAt, SeekAt, EpochAt, GenerationAt, LocalBytesAt;
    hide AckCounts, AckCells, SeenByProducer, Stream, Memory, History, SeenByScan, ShapeRank, SeenByOpener;
  }

  lemma OpenerRankAction(c: Config, s: State, q: nat, o: Outcome)
    requires Opening(c, s, q) && !s.sh.opener.ONone?
    ensures RankKept(c, s, q, o)
  {
    hide Opening, RankKept;
    if s.sh.opener.OActivate? { ActivateRankKept(c, s, q, o); }
    else if s.sh.opener.OBytes? { BytesRankKept(c, s, q, o); }
    else { OpenerRankKept(c, s, q, o); }
  }

  lemma OpeningAt(c: Config, s: State, q: nat)
    requires Inv(c, s) && Shape(c, s) && q < c.tp
    ensures Opening(c, s, q)
  {
    hide SharedInv, RankInv, ShapeRank;
    assert RankInv(c, s.poison, s.sh, q, s.ranks[q]);
    if s.sh.opener.OScan? { assert RankInv(c, s.poison, s.sh, s.sh.opener.k, s.ranks[s.sh.opener.k]); }
  }

  lemma OpenerStepped(c: Config, s: State, q: nat, o: Outcome)
    requires Shape(c, s) && q < c.tp && s.ranks[0].caller.COpening? && RankKept(c, s, q, o)
    ensures var t := Step(c, s, StepCaller(0, o));
            |t.ranks| == c.tp && |t.sh.log.base| == SLOTS && RankInv(c, t.poison, t.sh, q, t.ranks[q])
  {
    hide RankInv, OpenerStep, OpenerEffect, ShapeRank;
  }

  lemma OpenerSharedKept(c: Config, s: State, o: Outcome)
    requires Inv(c, s) && Shape(c, s) && s.ranks[0].caller.COpening? && !s.sh.opener.ONone?
    ensures var t := Step(c, s, StepCaller(0, o));
            && SharedInv(c, t.sh) && |t.ranks| == c.tp && |t.sh.log.base| == SLOTS
            && ProducerTold(t.poison, t.sh.producer, t.sh.producerDone == t.sh.log.epoch, t.sh.rerun)
  {
    hide SharedInv, RankInv, OpenerStep, OpenerEffect, ShapeRank, Opening;
    OpeningAt(c, s, 0);
    OpenerClaims(c, s, o);
    if s.sh.opener.OActivate? { ActivateSharedKept(c, s, o); } else { ScanSharedKept(c, s, o); }
  }

  lemma OpenerActionKept(c: Config, s: State, o: Outcome)
    requires Inv(c, s) && Shape(c, s) && s.ranks[0].caller.COpening?
    ensures Inv(c, Step(c, s, StepCaller(0, o)))
  {
    hide SharedInv, RankInv, Step, ShapeRank, Opening, RankKept, ProducerTold;
    OpenerInCall(c, s);
    OpenerSharedKept(c, s, o);
    var t := Step(c, s, StepCaller(0, o));
    forall q {:trigger t.ranks[q]} | 0 <= q < c.tp ensures RankInv(c, t.poison, t.sh, q, t.ranks[q]) {
      OpeningAt(c, s, q);
      OpenerRankAction(c, s, q, o);
      OpenerStepped(c, s, q, o);
    }
  }

  /** What rank zero's `join` leaves alone. */
  lemma OpenerClaims(c: Config, s: State, o: Outcome)
    requires Shape(c, s)
    ensures var (p, sh) := OpenerStep(c, s, o);
            && (p.Healthy? ==> s.poison.Healthy?)
            && sh.producer == s.sh.producer && sh.log == s.sh.log && sh.rerun == s.sh.rerun
            && sh.producerDone == s.sh.producerDone
  {
  }

  lemma ProducerActionKept(c: Config, s: State, o: Outcome)
    requires Inv(c, s) && Shape(c, s)
    ensures Inv(c, Step(c, s, StepProducer(o)))
  {
    var t := Step(c, s, StepProducer(o));
    var p := s.sh.producer;
    ProducerTells(c, s, o);
    if p.PAck? || p.PDrain? || p.PScan? { assert RankInv(c, s.poison, s.sh, p.k, s.ranks[p.k]); }
    hide SharedInv, RankInv, CallStep, ExpertStep, DrainStep;
    if p.PGate? { BeginSharedKept(c, s, o); } else if Calling(p) { CallSharedKept(c, s, o); }
    else if p.PAck? { AckSharedKept(c, s, o); } else if p.PAckGate? || p.PWrite? { WriteSharedKept(c, s, o); }
    else if p.PSequence? { PublishSharedKept(c, s, o); } else if OnExpert(p) { FillSharedKept(c, s, o); }
    else if p.PDrain? { DrainSharedKept(c, s, o); } else { EndSharedKept(c, s, o); }
    forall q {:trigger t.ranks[q]} | 0 <= q < c.tp ensures RankInv(c, t.poison, t.sh, q, t.ranks[q]) {
      assert RankInv(c, s.poison, s.sh, q, s.ranks[q]);
      ProducerRankKept(c, s, q, o);
    }
  }

  lemma ProducerRankKept(c: Config, s: State, q: nat, o: Outcome)
    requires Watching(c, s, q)
    ensures var (p', sh) := ProducerStep(c, s, o);
            |sh.log.base| == SLOTS && RankInv(c, p', sh, q, s.ranks[q])
  {
    var p := s.sh.producer;
    ProducerTells(c, s, o);
    hide SharedInv, RankInv, CallStep, ExpertStep, DrainStep;
    if p.PGate? { BeginRankKept(c, s, q, o); } else if Calling(p) { CallRankKept(c, s, q, o); }
    else if p.PAck? || p.PAckGate? { AckRankKept(c, s, q, o); } else if p.PWrite? { WriteRankKept(c, s, q, o); }
    else if p.PSequence? { PublishRankKept(c, s, q, o); } else if OnExpert(p) { FillRankKept(c, s, q, o); }
    else if p.PDrain? || p.PDrainGate? { DrainRankKept(c, s, q, o); } else { EndRankKept(c, s, q, o); }
    var (p', sh) := ProducerStep(c, s, o);
    if p' != s.poison {
      var code :| p' == Claim(s.poison, code);
      ClaimKept(c, s.poison, code, sh, q, s.ranks[q]);
    }
  }

  predicate Tells(was: Poison, p: Poison, sh: Shared) {
    && ProducerTold(p, sh.producer, sh.producerDone == sh.log.epoch, sh.rerun)
    && (p == was || p == Claim(was, Protocol) || p == Claim(was, TimedOut) || p == Claim(was, Writer))
  }

  lemma CallTells(c: Config, s: State, o: Outcome)
    requires Producing(c, s) && Calling(s.sh.producer)
    ensures Tells(s.poison, CallStep(c, s, o).0, CallStep(c, s, o).1)
  {
    hide SharedInv, RankInv, ShapeRank;
    if s.sh.producer.PScan? {} else if s.sh.producer.PGate? {} else {}
  }

  lemma ExpertTells(c: Config, s: State, o: Outcome)
    requires Producing(c, s) && OnExpert(s.sh.producer)
    ensures Tells(s.poison, ExpertStep(c, s, o).0, ExpertStep(c, s, o).1)
  {
    hide SharedInv, RankInv, ShapeRank;
    if s.sh.producer.PAck? {} else if s.sh.producer.PSequence? {} else {}
  }

  lemma DrainTells(c: Config, s: State, o: Outcome)
    requires Producing(c, s) && !Calling(s.sh.producer) && !OnExpert(s.sh.producer)
    ensures Tells(s.poison, DrainStep(c, s, o).0, DrainStep(c, s, o).1)
  {
    hide PublicationsShared, ReadyShared, ProducedShared, CallAt, OpenerShared, RankInv, ShapeRank, FillAt;
    hide SlotSequence;
    hide EpochsShared, LogShared;
  }

  /** A producer that leaves its run unfinished leaves the poison cell set. */
  lemma ProducerTells(c: Config, s: State, o: Outcome)
    requires Producing(c, s)
    ensures var (p, sh) := ProducerStep(c, s, o);
            && ProducerTold(p, sh.producer, sh.producerDone == sh.log.epoch, sh.rerun)
            && (p == s.poison || exists code :: p == Claim(s.poison, code))
  {
    var sub := s.sh.producer;
    if Calling(sub) { CallTells(c, s, o); }
    else if OnExpert(sub) { ExpertTells(c, s, o); }
    else { DrainTells(c, s, o); }
    hide Producing, CallStep, ExpertStep, DrainStep, ProducerTold;
    var p := s.poison;
    assert Claim(p, Protocol) == Claim(p, Protocol) && Claim(p, TimedOut) == Claim(p, TimedOut)
           && Claim(p, Writer) == Claim(p, Writer);
  }

  lemma ProduceCallKept(c: Config, s: State, e: nat, l: int, n: nat)
    requires Inv(c, s) && Shape(c, s)
    ensures Inv(c, Step(c, s, CallProduce(e, l, n)))
  {
    var t := Step(c, s, CallProduce(e, l, n));
    if t != s {
      CallMoves(c, s.sh, PActive(e, l, n));
      forall q {:trigger t.ranks[q]} | 0 <= q < c.tp ensures RankInv(c, t.poison, t.sh, q, t.ranks[q]) {
        assert RankInv(c, s.poison, s.sh, q, s.ranks[q]);
        assert SeenByScan(s.sh.producer, s.sh.active, s.sh.log.epoch, q, s.ranks[q].join);
        hide SharedInv, RankInv;
        ProducerMoves(c, s.poison, s.sh, t.sh, q, s.ranks[q]);
      }
    }
  }

  lemma CallKept(c: Config, s: State, a: Action)
    requires Inv(c, s) && Shape(c, s) && (a.CallJoin? || a.CallWait? || a.CallClose?) && a.r < c.tp
    ensures Inv(c, Step(c, s, a))
  {
    hide SharedInv, RankInv, ShapeRank, ProducerTold;
    var rk := s.ranks[a.r];
    var t := Step(c, s, a);
    assert RankInv(c, s.poison, s.sh, a.r, rk);
    if t != s {
      match a
      case CallWait(r, e) =>
        BeginWaitKept(c, s.poison, s.sh, r, rk, e);
        if e == 0 || rk.join != e {
          ClaimKept(c, s.poison, Protocol, s.sh, r, rk);
          OneRankChanges(c, s, r, Claim(s.poison, Protocol), rk);
          assert s.ranks[r := rk] == s.ranks;
        } else {
          OneRankChanges(c, s, r, s.poison, rk.(caller := WConsumer(e)));
        }
      case CallClose(r) =>
        BeginWaitKept(c, s.poison, s.sh, r, rk, 0);
        OneRankChanges(c, s, r, s.poison, rk.(closed := true, caller := XActive));
      case CallJoin(r, e, l, n) =>
        BeginJoinKept(c, s.poison, s.sh, r, rk, e, l, n);
        if r != 0 {
          OneRankChanges(c, s, r, s.poison, rk.(caller := JWait(e, l, n)));
        } else {
          OpeningKept(c, s, t, e, l, n);
        }
    }
  }

  lemma OpeningKept(c: Config, s: State, t: State, e: nat, l: int, n: nat)
    requires Inv(c, s) && Shape(c, s) && s.ranks[0].caller.CIdle?
    requires t == s.(sh := s.sh.(opener := OActive(e, l, n)), ranks := s.ranks[0 := s.ranks[0].(caller := COpening)])
    requires SharedInv(c, t.sh) && RankInv(c, s.poison, t.sh, 0, t.ranks[0])
    ensures Inv(c, t)
  {
    forall q {:trigger t.ranks[q]} | 0 <= q < c.tp ensures RankInv(c, t.poison, t.sh, q, t.ranks[q]) {
      assert RankInv(c, s.poison, s.sh, q, s.ranks[q]);
      if q != 0 {
        assert SeenByOpener(t.sh.opener, s.sh.active, q, s.ranks[q].waitReturned);
        hide SharedInv, RankInv;
        OpenerMoves(c, s.poison, s.sh, t.sh, q, s.ranks[q]);
      }
    }
  }

  lemma OtherKept(c: Config, s: State, a: Action)
    requires Inv(c, s) && Shape(c, s) && (a.WriterStores? || a.DeviceCopies? || a.FinishPoison?)
    ensures Inv(c, Step(c, s, a))
  {
    hide SharedInv, RankInv, DeviceStep;
    var t := Step(c, s, a);
    if t != s {
      match a
      case WriterStores(r, kind, block) =>
        assert RankInv(c, s.poison, s.sh, r, s.ranks[r]);
        WriterKept(c, s.poison, s.sh, r, s.ranks[r], kind, block);
        OneRankChanges(c, s, r, s.poison, t.ranks[r]);
      case DeviceCopies(r) =>
        assert RankInv(c, s.poison, s.sh, r, s.ranks[r]);
        DeviceKept(c, s.poison, s.sh, r, s.ranks[r]);
        OneRankChanges(c, s, r, s.poison, t.ranks[r]);
      case FinishPoison =>
        forall q {:trigger t.ranks[q]} | 0 <= q < c.tp ensures RankInv(c, t.poison, t.sh, q, t.ranks[q]) {
          assert RankInv(c, s.poison, s.sh, q, s.ranks[q]);
          FinishPoisonKept(c, s.poison, s.sh, q, s.ranks[q]);
        }
    }
  }

  /** Every action keeps the invariant. */
  lemma StepKept(c: Config, s: State, a: Action)
    requires Inv(c, s)
    ensures Shape(c, s) && Inv(c, Step(c, s, a))
  {
    InvImpliesShape(c, s);
    hide SharedInv, RankInv;
    match a
    case CallJoin(r, _, _, _) => if r < c.tp { CallKept(c, s, a); }
    case CallWait(r, _) => if r < c.tp { CallKept(c, s, a); }
    case CallClose(r) => if r < c.tp { CallKept(c, s, a); }
    case CallProduce(e, l, n) => ProduceCallKept(c, s, e, l, n);
    case StepCaller(r, o) =>
      if r < c.tp {
        if !s.ranks[r].caller.COpening? { CallerActionKept(c, s, r, o); }
        else {
          OnlyZeroOpens(c, s, r);
          OpenerActionKept(c, s, o);
        }
      }
    case StepProducer(o) => ProducerActionKept(c, s, o);
    case StepConsumer(r, o) => if r < c.tp { ConsumerActionKept(c, s, r, o); }
    case WriterStores(_, _, _) => OtherKept(c, s, a);
    case DeviceCopies(_) => OtherKept(c, s, a);
    case FinishPoison => OtherKept(c, s, a);
  }

  lemma OnlyZeroOpens(c: Config, s: State, r: nat)
    requires Inv(c, s) && r < c.tp && s.ranks[r].caller.COpening?
    ensures r == 0
  {
    assert RankInv(c, s.poison, s.sh, r, s.ranks[r]);
  }

  lemma InitShared(c: Config)
    requires ValidConfig(c)
    ensures SharedInv(c, FRESH_SHARED)
  {
  }

  lemma InitRank(c: Config, r: nat)
    requires ValidConfig(c) && r < c.tp
    ensures RankInv(c, Healthy, FRESH_SHARED, r, FRESH_RANK)
  {
  }

  lemma InitInv(c: Config)
    requires ValidConfig(c)
    ensures Inv(c, Init(c))
  {
    hide SharedInv, RankInv;
    var s := Init(c);
    InitShared(c);
    forall r {:trigger s.ranks[r]} | 0 <= r < c.tp ensures RankInv(c, s.poison, s.sh, r, s.ranks[r]) {
      assert s.ranks[r] == FRESH_RANK;
      InitRank(c, r);
    }
  }

  lemma {:induction false} RunInv(c: Config, s: State, schedule: seq<Action>)
    requires Inv(c, s) && Shape(c, s)
    ensures Inv(c, Run(c, s, schedule))
    decreases |schedule|
  {
    hide Inv, Step;
    if schedule != [] {
      ShapeKept(c, s, schedule[0]);
      StepKept(c, s, schedule[0]);
      RunInv(c, Step(c, s, schedule[0]), schedule[1..]);
    }
  }
}
