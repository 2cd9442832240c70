/**
 Calling `run_producer` again for an epoch: which runs end, in terms of a cell the caller can read
 before the call.
 */
module TransportRerun {
  import opened TransportModel
  import opened TransportInvariant
  import opened TransportTheorems
  import opened TransportProgress

  /** Past the gate, a run is a repetition exactly when its epoch's end was already announced. */
  lemma GateDecides(c: Config, s: State, o: Outcome)
    requires Reachable(c, s) && Shape(c, s) && s.sh.producer.PGate? && s.poison.Healthy?
    ensures Step(c, s, StepProducer(o)).sh.rerun <==> s.sh.producer.epoch <= s.sh.producerDone
  {
    ReachableInv(c, s);
    hide SharedInv, RankInv, Reachable;
  }

  lemma RerunStuck(c: Config, s: State)
    requires Inv(c, s) && s.sh.rerun
    ensures !s.sh.producer.PDone?
    ensures s.sh.producer.PIdle? ==> !s.poison.Healthy?
  {
    hide RankInv, PublicationsShared, ReadyShared, ProducedShared, LogShared, CallAt, OpenerShared, EpochsShared;
    hide FillAt;
  }

  /** A repetition never announces an end, nor does anything after it, whatever anybody does. */
  lemma RerunNeverCompletes(c: Config, s: State, a: Action)
    requires Reachable(c, s) && Shape(c, s) && s.sh.rerun
    ensures Step(c, s, a).sh.producerDone == s.sh.producerDone && Step(c, s, a).sh.rerun
    ensures !s.sh.producer.PDone?
    ensures s.sh.producer.PIdle? ==> !s.poison.Healthy?
  {
    hide Inv, Shape, Step, Reachable;
    ReachableInv(c, s);
    RerunStuck(c, s);
    OnlyDoneEnds(c, s, a);
  }

  // ------------------------------------------------------------- executions

  lemma {:induction false} StaysInExecution(c: Config, sigma: nat -> State, sched: nat -> Action, i: nat)
    requires Execution(c, sigma, sched)
    ensures Reachable(c, sigma(i))
  {
    hide Reachable, Shape, Step;
    if i > 0 {
      StaysInExecution(c, sigma, sched, i - 1);
      assert sigma(i - 1 + 1) == Step(c, sigma(i - 1), sched(i - 1));
      StaysReachable(c, sigma(i - 1), sched(i - 1));
    }
  }

  lemma {:induction false} RerunForever(c: Config, sigma: nat -> State, sched: nat -> Action, m: nat, n: nat)
    requires Execution(c, sigma, sched) && m <= n && sigma(m).sh.rerun
    ensures sigma(n).sh.rerun && !sigma(n).sh.producer.PDone?
    decreases n - m
  {
    hide Reachable, Shape, Step;
    if m < n { RerunForever(c, sigma, sched, m, n - 1); }
    var k := if m < n then n - 1 else n;
    StaysInExecution(c, sigma, sched, k);
    RerunNeverCompletes(c, sigma(k), sched(k));
    assert m < n ==> sigma(k + 1) == Step(c, sigma(k), sched(k));
    StaysInExecution(c, sigma, sched, n);
    RerunNeverCompletes(c, sigma(n), sched(n));
  }

  /** While the producer is on its way to the gate, nothing is announced. */
  lemma {:induction false} CallKeepsDone(c: Config, sigma: nat -> State, sched: nat -> Action, i: nat, m: nat)
    requires Execution(c, sigma, sched) && i <= m
    requires forall j :: i <= j < m ==> Calling(sigma(j).sh.producer)
    ensures sigma(m).sh.producerDone == sigma(i).sh.producerDone
    decreases m - i
  {
    hide Reachable, Shape, Step;
    if i < m {
      CallKeepsDone(c, sigma, sched, i, m - 1);
      assert Calling(sigma(m - 1).sh.producer);
      OnlyDoneEnds(c, sigma(m - 1), sched(m - 1));
      assert sigma(m - 1 + 1) == Step(c, sigma(m - 1), sched(m - 1));
    }
  }

  ghost predicate AnnouncesAt(sigma: nat -> State, sched: nat -> Action, e: nat, n: nat) {
    sigma(n).sh.producer == PDone(e) && sched(n).StepProducer?
  }

  /** The cell shows e in the end, so the end of e was announced on the way. */
  lemma {:induction false} AnnouncedBetween(c: Config, sigma: nat -> State, sched: nat -> Action, e: nat, m: nat,
                                            n: nat)
    requires Execution(c, sigma, sched) && m <= n
    requires sigma(m).sh.producerDone < e == sigma(n).sh.producerDone
    ensures exists k :: m <= k < n && AnnouncesAt(sigma, sched, e, k)
    decreases n - m
  {
    hide Reachable, Shape, Step;
    var k: nat := n - 1;
    OnlyDoneEnds(c, sigma(k), sched(k));
    assert sigma(k + 1) == Step(c, sigma(k), sched(k));
    if sigma(k).sh.producerDone == e {
      AnnouncedBetween(c, sigma, sched, e, m, k);
    } else {
      assert AnnouncesAt(sigma, sched, e, k);
    }
  }

  /** At the gate of a first run, all ranks have joined its epoch, which is the active one. */
  lemma GateUnderWay(c: Config, s: State)
    requires Inv(c, s) && s.sh.producer.PGate? && s.poison.Healthy? && s.sh.producerDone < s.sh.producer.epoch
    ensures UnderWay(s) && s.sh.active == s.sh.producer.epoch
  {
    hide PublicationsShared, ReadyShared, ProducedShared, OpenerShared, RunAt, RerunAt, FillAt, LogShared;
    forall r | 0 <= r < |s.ranks| ensures s.ranks[r].join == s.sh.active {
      assert RankInv(c, s.poison, s.sh, r, s.ranks[r]);
      hide ShapeRank, Lockstep, SeenByOpener, Arguments, JoinAt, WaitAt, BytesAt, CloseAt, SeekAt, EpochAt;
      hide GenerationAt;
      hide LocalBytesAt, AckCounts, AckCells, SeenByProducer, Stream, Memory, History;
    }
  }

  /**
   A run of epoch e that passes its gate while the latch stays clear announces the end of e if and
   only if producer_done_epoch was below e when `run_producer` was called.
   */
  lemma RunCompletesIff(c: Config, sigma: nat -> State, sched: nat -> Action, e: nat, i: nat, m: nat)
    requires Execution(c, sigma, sched) && Fair(c, sched) && i <= m
    requires forall j :: i <= j <= m ==> Calling(sigma(j).sh.producer)
    requires sigma(m).sh.producer.PGate? && sigma(m).sh.producer.epoch == e && sched(m).StepProducer?
    requires forall j :: m <= j ==> sigma(j).poison.Healthy?
    ensures (exists n :: m <= n && AnnouncesAt(sigma, sched, e, n)) <==> sigma(i).sh.producerDone < e
  {
    hide Inv, Reachable, Shape, Step, UnderWay, Finished;
    CallKeepsDone(c, sigma, sched, i, m);
    StaysInExecution(c, sigma, sched, m);
    ReachableInv(c, sigma(m));
    if sigma(m).sh.producerDone < e {
      GateUnderWay(c, sigma(m));
      var n := EndFrom(c, sigma, sched, m);
      FinishedShows(sigma(n), e);
      AnnouncedBetween(c, sigma, sched, e, m, n);
    } else {
      GateDecides(c, sigma(m), sched(m).outcome);
      assert sigma(m + 1) == Step(c, sigma(m), sched(m));
      forall n | m <= n ensures !AnnouncesAt(sigma, sched, e, n) {
        if n > m { RerunForever(c, sigma, sched, m + 1, n); }
      }
    }
  }

  lemma FinishedShows(s: State, e: nat)
    requires Ended(s, e) && s.poison.Healthy?
    ensures s.sh.producerDone == e
  {
  }

  // ------------------------------------------------------------- a witness

  function At(s: State, p: Producer): State { s.(sh := s.sh.(producer := p)) }

  /** Epoch finished, nobody closing, no call under way on the producer. */
  predicate Rested(c: Config, s: State) {
    && Shape(c, s) && s.poison.Healthy? && s.sh.producer.PIdle? && !s.ranks[0].closed
    && s.sh.active > 0 && s.sh.producerDone == s.sh.active
    && (forall r :: 0 <= r < c.tp ==> s.ranks[r].join == s.sh.active)
    && ValidCall(c, 0, s.sh.active, s.sh.layerId, s.sh.expertCount)
  }

  lemma {:induction false} ScanPasses(c: Config, s: State, k: nat)
    requires Rested(c, s) && k < c.tp
    requires Reachable(c, At(s, PScan(s.sh.active, s.sh.expertCount, k)))
    ensures Reachable(c, At(s, PGate(s.sh.active, s.sh.expertCount)))
    decreases c.tp - k
  {
    var now := At(s, PScan(s.sh.active, s.sh.expertCount, k));
    ReachableShape(c, now);
    StaysReachable(c, now, StepProducer(Go));
    hide Reachable, ShapeRank;
    if k + 1 == c.tp {
      assert Step(c, now, StepProducer(Go)) == At(s, PGate(s.sh.active, s.sh.expertCount));
    } else {
      assert Step(c, now, StepProducer(Go)) == At(s, PScan(s.sh.active, s.sh.expertCount, k + 1));
      ScanPasses(c, s, k + 1);
    }
  }

  lemma CallChecks(c: Config, s: State)
    requires Rested(c, s) && Reachable(c, s)
    ensures Reachable(c, At(s, PScan(s.sh.active, s.sh.expertCount, 0)))
  {
    hide Reachable, ShapeRank;
    var e, l, n := s.sh.active, s.sh.layerId, s.sh.expertCount;
    StaysReachable(c, s, CallProduce(e, l, n));
    assert Step(c, s, CallProduce(e, l, n)) == At(s, PActive(e, l, n));
    StaysReachable(c, At(s, PActive(e, l, n)), StepProducer(Go));
    assert Step(c, At(s, PActive(e, l, n)), StepProducer(Go)) == At(s, PLayer(e, l, n));
    StaysReachable(c, At(s, PLayer(e, l, n)), StepProducer(Go));
    assert Step(c, At(s, PLayer(e, l, n)), StepProducer(Go)) == At(s, PCount(e, n));
    StaysReachable(c, At(s, PCount(e, n)), StepProducer(Go));
    assert Step(c, At(s, PCount(e, n)), StepProducer(Go)) == At(s, PJoined(e, n));
    StaysReachable(c, At(s, PJoined(e, n)), StepProducer(Go));
    assert Step(c, At(s, PJoined(e, n)), StepProducer(Go)) == At(s, PScan(e, n, 0));
  }

  /** From every finished epoch a second call for it gets through all checks and begins a repetition. */
  lemma SecondCallReruns(c: Config, s: State)
    requires Reachable(c, s) && Rested(c, s)
    ensures exists t :: Reachable(c, t) && t.sh.rerun && t.poison.Healthy? && t.ranks == s.ranks
  {
    CallChecks(c, s);
    ScanPasses(c, s, 0);
    var gate := At(s, PGate(s.sh.active, s.sh.expertCount));
    ReachableShape(c, gate);
    GateDecides(c, gate, Go);
    StaysReachable(c, gate, StepProducer(Go));
    assert Step(c, gate, StepProducer(Go)).sh.rerun;
  }
}
