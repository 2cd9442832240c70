/** Calls that end: a thread that gets its turns reaches what each of them brings nearer; `close` for one. */
module TransportEnding {
  import opened TransportModel
  import opened TransportInvariant
  import opened TransportTheorems
  import opened TransportProgress
  import opened TransportRerun
  import opened TransportLeaving

  // ------------------------------------------------------------- turn by turn

  /** While p lasts and q has not come, nobody lengthens the way and the thread's own turns shorten it. */
  ghost predicate Advances(sigma: nat -> State, sched: nat -> Action, w: Thread,
                           p: State -> bool, q: State -> bool, way: State -> nat, j: nat)
  {
    p(sigma(j)) && !q(sigma(j)) ==>
      || q(sigma(j + 1))
      || (&& p(sigma(j + 1)) && way(sigma(j + 1)) <= way(sigma(j))
          && (OwnStep(sched(j), w) ==> way(sigma(j + 1)) < way(sigma(j))))
  }

  lemma ToNextTurn(sigma: nat -> State, sched: nat -> Action, w: Thread,
                   p: State -> bool, q: State -> bool, way: State -> nat, i: nat, j: nat) returns (n: nat)
    requires p(sigma(i)) && !q(sigma(i)) && i <= j && OwnStep(sched(j), w)
    requires forall k: nat :: i <= k ==> Advances(sigma, sched, w, p, q, way, k)
    ensures i < n && (q(sigma(n)) || (p(sigma(n)) && way(sigma(n)) < way(sigma(i))))
    decreases j - i
  {
    assert Advances(sigma, sched, w, p, q, way, i);
    if q(sigma(i + 1)) || way(sigma(i + 1)) < way(sigma(i)) { return i + 1; }
    n := ToNextTurn(sigma, sched, w, p, q, way, i + 1, j);
  }

  /** A thread that gets its turns gets there. */
  lemma LeadsTo(sigma: nat -> State, sched: nat -> Action, w: Thread,
                p: State -> bool, q: State -> bool, way: State -> nat, i: nat) returns (n: nat)
    requires TurnsOf(sched, w) && p(sigma(i))
    requires forall k: nat :: i <= k ==> Advances(sigma, sched, w, p, q, way, k)
    ensures i <= n && q(sigma(n))
    decreases way(sigma(i))
  {
    if q(sigma(i)) { return i; }
    assert NextTurn(sched, w, i);
    var j: nat :| i <= j && OwnStep(sched(j), w);
    n := ToNextTurn(sigma, sched, w, p, q, way, i, j);
    if !q(sigma(n)) { n := LeadsTo(sigma, sched, w, p, q, way, n); }
  }

  // --------------------------------------------------- a consumer that is told to stop

  /** Own steps to the end, when nothing makes the consumer wait any more. */
  function StopWay(experts: nat, k: Consumer): nat {
    match k
    case KTop => 1
    case KActive => 20 * experts + 42
    case KJoin(_) => 20 * experts + 41
    case KCount(_) => 20 * experts + 40
    case KScan(_, n, x) => Rest(n, x) + 19
    case KSequence(_, n, x) => Rest(n, x) + 18
    case KEpoch(_, n, x, _) => Rest(n, x) + 17
    case KExpert(_, n, x, _) => Rest(n, x) + 16
    case KGate(_, n, x, _) => Rest(n, x) + 15
    case KIssue(_, n, x, _, kind) => Rest(n, x) + 10 + if kind < KINDS then KINDS - kind else 0
    case KRecord(_, n, x, _) => Rest(n, x) + 10
    case KEvent(_, n, x, _) => Rest(n, x) + 9
    case KEventGate(_, n, x, _) => Rest(n, x) + 8
    case KLast(_, n, x, _) => Rest(n, x) + 7
    case KAck(_, n, x, _) => Rest(n, x) + 6
    case KBytes(_, _) => 3
    case KDone(_, _) => 2
    case KCatch => 1
    case KStopped => 0
  }

  function Rest(n: nat, x: nat): nat { if x < n then 20 * (n - x) else 0 }

  lemma SeekStops(c: Config, p: Poison, sh: Shared, rk: Rank, r: nat)
    requires ValidConfig(c) && r < c.tp && ShapeRank(rk) && rk.stopping && Seeking(rk.consumer)
    ensures var t := SeekStep(c, p, sh, rk, r).1;
            t.stopping && StopWay(c.numExperts[r], t.consumer) < StopWay(c.numExperts[r], rk.consumer)
  {
    hide ShapeRank;
  }

  lemma PollStops(p: Poison, sh: Shared, rk: Rank, o: Outcome, experts: nat)
    requires |sh.ready| == SLOTS == |rk.lastReady| && ShapeRank(rk) && rk.stopping && Polling(rk.consumer)
    ensures var t := PollStep(p, sh, rk, o).1;
      t.stopping && StopWay(experts, t.consumer) < StopWay(experts, rk.consumer)
  {
    hide ShapeRank, PollStep, Rest;
    PollNext(p, sh, rk, o);
  }

  /** Where polling leads a consumer told to stop. */
  lemma PollNext(p: Poison, sh: Shared, rk: Rank, o: Outcome)
    requires |sh.ready| == SLOTS == |rk.lastReady| && ShapeRank(rk) && rk.stopping && Polling(rk.consumer)
    ensures var k, t := rk.consumer, PollStep(p, sh, rk, o).1;
      && t.stopping
      && (|| t.consumer.KCatch?
          || match k
             case KScan(e, n, x) => t.consumer == KSequence(e, n, x)
             case KSequence(e, n, x) => t.consumer.KEpoch? && t.consumer == KEpoch(e, n, x, t.consumer.seen)
             case KEpoch(e, n, x, q) => t.consumer == KExpert(e, n, x, q)
             case KExpert(e, n, x, q) => t.consumer == KGate(e, n, x, q)
             case KGate(e, n, x, q) => t.consumer == KIssue(e, n, x, q, 0)
             case _ => false)
  {
    hide ShapeRank;
  }

  lemma CopyStops(p: Poison, rk: Rank, o: Outcome, experts: nat)
    requires ShapeRank(rk) && rk.stopping && Copying(rk.consumer)
    ensures var t := CopyStep(p, rk, o).1; t.stopping && StopWay(experts, t.consumer) < StopWay(experts, rk.consumer)
  {
  }

  lemma FinishStops(c: Config, rk: Rank, r: nat, experts: nat)
    requires ValidConfig(c) && r < c.tp && |rk.lastReady| == SLOTS == |rk.ack| && ShapeRank(rk) && rk.stopping
    requires rk.consumer.KLast? || rk.consumer.KAck? || rk.consumer.KBytes? || rk.consumer.KDone?
    ensures var t := FinishStep(c, rk, r); t.stopping && StopWay(experts, t.consumer) < StopWay(experts, rk.consumer)
  {
    hide ShapeRank;
  }

  /** Every own step of a consumer told to stop brings it nearer to the end. */
  lemma ConsumerStops(c: Config, p: Poison, sh: Shared, rk: Rank, r: nat, o: Outcome)
    requires ValidConfig(c) && r < c.tp && ShapeShared(c, sh) && ShapeRank(rk)
    requires rk.stopping && !rk.consumer.KStopped?
    ensures var t := ConsumerStep(c, p, sh, rk, r, o).1;
            t.stopping && StopWay(c.numExperts[r], t.consumer) < StopWay(c.numExperts[r], rk.consumer)
  {
    hide SeekStep, PollStep, CopyStep, FinishStep, StopWay;
    var k := rk.consumer;
    if Seeking(k) { SeekStops(c, p, sh, rk, r); }
    else if Polling(k) { PollStops(p, sh, rk, o, c.numExperts[r]); }
    else if Copying(k) { CopyStops(p, rk, o, c.numExperts[r]); }
    else if k.KCatch? { CaughtStops(p, rk, c.numExperts[r]); }
    else { FinishStops(c, rk, r, c.numExperts[r]); }
  }

  lemma CaughtStops(p: Poison, rk: Rank, experts: nat)
    requires ShapeRank(rk) && rk.stopping && rk.consumer.KCatch?
    ensures var t := CatchStep(p, rk).1; t.stopping && StopWay(experts, t.consumer) < StopWay(experts, rk.consumer)
  {
    hide ShapeRank;
  }

  // ------------------------------------------------------ the flag stays up

  lemma CallerKeepsStopping(p: Poison, sh: Shared, rk: Rank, o: Outcome)
    requires ShapeRank(rk) && rk.stopping
    ensures CallerStep(p, sh, rk, o).1.stopping
  {
    hide ShapeRank;
    if rk.caller.JWait? || Joining(rk.caller) { hide WaitStep, CloseStep; }
    else if Waiting(rk.caller) { hide JoinStep, CloseStep; }
    else { hide JoinStep, WaitStep; }
  }

  lemma ConsumerKeepsStopping(c: Config, p: Poison, sh: Shared, rk: Rank, r: nat, o: Outcome)
    requires ValidConfig(c) && r < c.tp && ShapeShared(c, sh) && ShapeRank(rk) && rk.stopping
    ensures ConsumerStep(c, p, sh, rk, r, o).1.stopping
  {
    if rk.consumer.KStopped? {} else { ConsumerStops(c, p, sh, rk, r, o); hide ConsumerStep; }
  }

  lemma StoppingStays(c: Config, s: State, a: Action, r: nat)
    requires Shape(c, s) && r < c.tp && s.ranks[r].stopping
    ensures Shape(c, Step(c, s, a)) && Step(c, s, a).ranks[r].stopping
  {
    ShapeKept(c, s, a);
    match a
    case StepConsumer(q, o) =>
      if q == r { ConsumerKeepsStopping(c, s.poison, s.sh, s.ranks[r], r, o); }
      hide ConsumerStep, ShapeRank;
    case StepCaller(q, o) =>
      if q == r { CallerKeepsStopping(s.poison, s.sh, s.ranks[r], o); }
      hide CallerStep, OpenerStep, ShapeRank;
    case _ =>
      hide ConsumerStep, CallerStep, OpenerStep, ProducerStep, ShapeRank;
  }

  // ------------------------------------------------------------------- close

  lemma OwnConsumerStep(c: Config, s: State, r: nat, a: Action)
    requires Shape(c, s) && r < c.tp && s.ranks[r].stopping && !s.ranks[r].consumer.KStopped?
    requires OwnStep(a, ConsumerOf(r))
    ensures Shape(c, Step(c, s, a))
    ensures StopWay(c.numExperts[r], Step(c, s, a).ranks[r].consumer) < StopWay(c.numExperts[r], s.ranks[r].consumer)
  {
    ShapeKept(c, s, a);
    ConsumerStops(c, s.poison, s.sh, s.ranks[r], r, a.outcome);
    hide ConsumerStep, StopWay, ShapeRank;
  }

  /** A consumer whose stopping flag is set and that gets its turns stops, in any execution. */
  lemma ConsumerEnds(c: Config, sigma: nat -> State, sched: nat -> Action, r: nat, i: nat) returns (n: nat)
    requires Execution(c, sigma, sched) && r < c.tp && TurnsOf(sched, ConsumerOf(r))
    requires sigma(i).ranks[r].stopping
    ensures i <= n && sigma(n).ranks[r].consumer.KStopped?
  {
    var p := (s: State) => r < |s.ranks| && s.ranks[r].stopping;
    var q := (s: State) => r < |s.ranks| && s.ranks[r].consumer.KStopped?;
    var way := (s: State) => if r < |s.ranks| then StopWay(c.numExperts[r], s.ranks[r].consumer) else 0;
    var w := ConsumerOf(r);
    forall j: nat | i <= j ensures Advances(sigma, sched, w, p, q, way, j) {
      hide Reachable, Step, StopWay, Inv;
      assert Shape(c, sigma(j)) && Shape(c, sigma(j + 1)) && sigma(j + 1) == Step(c, sigma(j), sched(j));
      if p(sigma(j)) && !q(sigma(j)) {
        StoppingStays(c, sigma(j), sched(j), r);
        if OwnStep(sched(j), w) {
          OwnConsumerStep(c, sigma(j), r, sched(j));
        } else {
          StaysInExecution(c, sigma, sched, j);
          ReachableInv(c, sigma(j));
          OthersKeep(c, sigma(j), w, sched(j));
        }
      }
    }
    assert Shape(c, sigma(i));
    n := LeadsTo(sigma, sched, w, p, q, way, i);
  }

  function CloseWay(k: Caller): nat {
    match k
    case XActive => 4
    case XDone(_) => 3
    case XPublish => 2
    case XStop => 1
    case _ => 0
  }

  lemma CloseAdvances(p: Poison, sh: Shared, rk: Rank, o: Outcome)
    requires ShapeRank(rk) && Closing(rk.caller)
    ensures var t := CallerStep(p, sh, rk, o).1;
            && (!rk.caller.XReap? ==> Closing(t.caller) && CloseWay(t.caller) < CloseWay(rk.caller))
            && (rk.caller.XReap? ==> t.caller == if rk.consumer.KStopped? then CIdle else XReap)
  {
    hide ShapeRank;
  }

  lemma OwnCloseStep(c: Config, s: State, r: nat, a: Action)
    requires Inv(c, s) && Shape(c, s) && r < c.tp && Closing(s.ranks[r].caller) && OwnStep(a, CallerOf(r))
    ensures Shape(c, Step(c, s, a))
    ensures var k, t := s.ranks[r].caller, Step(c, s, a).ranks[r];
            && (!k.XReap? ==> Closing(t.caller) && CloseWay(t.caller) < CloseWay(k))
            && (k.XReap? ==> t.caller == if s.ranks[r].consumer.KStopped? then CIdle else XReap)
  {
    ShapeKept(c, s, a);
    CloseAdvances(s.poison, s.sh, s.ranks[r], a.outcome);
    hide Inv, CallerStep, ShapeRank, CloseWay;
  }

  /** What a place says of the flag. */
  lemma ReapingMeansStopping(c: Config, s: State, r: nat)
    requires Inv(c, s) && r < c.tp && s.ranks[r].caller.XReap?
    ensures s.ranks[r].stopping
  {
    assert RankInv(c, s.poison, s.sh, r, s.ranks[r]);
    hide SharedInv, Acked, Lockstep, Arguments, BytesAt, SeekAt, EpochAt, GenerationAt, JoinAt, WaitAt, SeenByOpener;
    hide LocalBytesAt, AckCounts, AckCells, SeenByProducer, Stream, Memory, History, SeenByScan, ShapeRank;
  }

  /** One step of anybody while `close` is under way. */
  lemma CloseNearer(c: Config, s: State, a: Action, r: nat)
    requires Inv(c, s) && Shape(c, s) && r < c.tp && Closing(s.ranks[r].caller) && !s.ranks[r].caller.XReap?
    ensures Shape(c, Step(c, s, a))
    ensures var k, t := s.ranks[r].caller, Step(c, s, a).ranks[r].caller;
            && Closing(t) && CloseWay(t) <= CloseWay(k) && (OwnStep(a, CallerOf(r)) ==> CloseWay(t) < CloseWay(k))
  {
    hide Inv, Step, CloseWay, ShapeRank;
    if OwnStep(a, CallerOf(r)) { OwnCloseStep(c, s, r, a); } else { OthersKeep(c, s, CallerOf(r), a); }
  }

  /** One step of anybody while `close` waits for the consumer. */
  lemma ReapNearer(c: Config, s: State, a: Action, r: nat)
    requires Inv(c, s) && Shape(c, s) && r < c.tp && s.ranks[r].caller.XReap?
    ensures Shape(c, Step(c, s, a))
    ensures var t := Step(c, s, a).ranks[r];
            && (OwnStep(a, CallerOf(r)) && s.ranks[r].consumer.KStopped? ==> t.caller.CIdle?)
            && (!OwnStep(a, CallerOf(r)) || !s.ranks[r].consumer.KStopped? ==> t.caller.XReap?)
            && (s.ranks[r].consumer.KStopped? ==> t.consumer.KStopped?)
  {
    hide Inv, Step, ShapeRank;
    if s.ranks[r].consumer.KStopped? { StoppedStays(c, s, a, r); }
    if OwnStep(a, CallerOf(r)) { OwnCloseStep(c, s, r, a); } else { OthersKeep(c, s, CallerOf(r), a); }
  }

  /** `close`, up to the join of the consumer thread. */
  lemma CloseReaps(c: Config, sigma: nat -> State, sched: nat -> Action, r: nat, i: nat) returns (n: nat)
    requires Execution(c, sigma, sched) && r < c.tp && TurnsOf(sched, CallerOf(r))
    requires Closing(sigma(i).ranks[r].caller)
    ensures i <= n && sigma(n).ranks[r].caller.XReap?
  {
    var p := (s: State) => r < |s.ranks| && Closing(s.ranks[r].caller);
    var q := (s: State) => r < |s.ranks| && s.ranks[r].caller.XReap?;
    var way := (s: State) => if r < |s.ranks| then CloseWay(s.ranks[r].caller) else 0;
    var w := CallerOf(r);
    hide Reachable, Step, CloseWay, Inv, ShapeRank, Closing;
    forall j: nat | i <= j ensures Advances(sigma, sched, w, p, q, way, j) {
      assert Shape(c, sigma(j)) && Shape(c, sigma(j + 1)) && sigma(j + 1) == Step(c, sigma(j), sched(j));
      if p(sigma(j)) && !q(sigma(j)) {
        StaysInExecution(c, sigma, sched, j);
        ReachableInv(c, sigma(j));
        CloseNearer(c, sigma(j), sched(j), r);
      }
    }
    assert Shape(c, sigma(i));
    n := LeadsTo(sigma, sched, w, p, q, way, i);
  }

  lemma StoppedStep(c: Config, p: Poison, sh: Shared, rk: Rank, r: nat, o: Outcome)
    requires ValidConfig(c) && r < c.tp && ShapeShared(c, sh) && ShapeRank(rk) && rk.consumer.KStopped?
    ensures ConsumerStep(c, p, sh, rk, r, o).1.consumer.KStopped?
  {
    hide SeekStep, PollStep, CopyStep, FinishStep, ShapeRank;
  }

  /** A stopped consumer stays stopped. */
  lemma StoppedStays(c: Config, s: State, a: Action, r: nat)
    requires Inv(c, s) && Shape(c, s) && r < c.tp && s.ranks[r].consumer.KStopped?
    ensures Shape(c, Step(c, s, a)) && Step(c, s, a).ranks[r].consumer.KStopped?
  {
    ShapeKept(c, s, a);
    if OwnStep(a, ConsumerOf(r)) {
      StoppedStep(c, s.poison, s.sh, s.ranks[r], r, a.outcome);
      hide ShapeRank, Inv, ConsumerStep;
    } else {
      hide Inv, Step, ShapeRank;
      OthersKeep(c, s, ConsumerOf(r), a);
    }
  }

  /** The last step of `close`, from a point where the consumer has stopped. */
  lemma ReapEnds(c: Config, sigma: nat -> State, sched: nat -> Action, r: nat, i: nat) returns (n: nat)
    requires Execution(c, sigma, sched) && r < c.tp && TurnsOf(sched, CallerOf(r))
    requires sigma(i).ranks[r].caller.XReap? && sigma(i).ranks[r].consumer.KStopped?
    ensures i <= n && sigma(n).ranks[r].caller.CIdle? && sigma(n).ranks[r].consumer.KStopped?
  {
    var p := (s: State) => r < |s.ranks| && s.ranks[r].caller.XReap? && s.ranks[r].consumer.KStopped?;
    var q := (s: State) => r < |s.ranks| && s.ranks[r].caller.CIdle? && s.ranks[r].consumer.KStopped?;
    var way := (s: State) => 0 as nat;
    var w := CallerOf(r);
    hide Reachable, Step, Inv, ShapeRank;
    forall j: nat | i <= j ensures Advances(sigma, sched, w, p, q, way, j) {
      assert Shape(c, sigma(j)) && Shape(c, sigma(j + 1)) && sigma(j + 1) == Step(c, sigma(j), sched(j));
      if p(sigma(j)) {
        StaysInExecution(c, sigma, sched, j);
        ReachableInv(c, sigma(j));
        ReapNearer(c, sigma(j), sched(j), r);
      }
    }
    assert Shape(c, sigma(i));
    n := LeadsTo(sigma, sched, w, p, q, way, i);
  }

  /** While the consumer runs on, `close` stays at its join. */
  lemma ReapingUntil(c: Config, sigma: nat -> State, sched: nat -> Action, r: nat, i: nat, n: nat) returns (m: nat)
    requires Execution(c, sigma, sched) && r < c.tp && i <= n
    requires sigma(i).ranks[r].caller.XReap? && sigma(n).ranks[r].consumer.KStopped?
    ensures i <= m && sigma(m).ranks[r].caller.XReap? && sigma(m).ranks[r].consumer.KStopped?
    decreases n - i
  {
    hide Reachable, Step, Inv, ShapeRank;
    assert Shape(c, sigma(i)) && sigma(i + 1) == Step(c, sigma(i), sched(i));
    if sigma(i).ranks[r].consumer.KStopped? { return i; }
    StaysInExecution(c, sigma, sched, i);
    ReachableInv(c, sigma(i));
    ReapNearer(c, sigma(i), sched(i), r);
    m := ReapingUntil(c, sigma, sched, r, i + 1, n);
  }

  /**
   `close` returns in every execution in which its thread and its rank's consumer get their turns,
   whatever state the transport is in; by then the consumer has stopped.
   */
  lemma CloseReturns(c: Config, sigma: nat -> State, sched: nat -> Action, r: nat, i: nat) returns (n: nat)
    requires Execution(c, sigma, sched) && r < c.tp && Closing(sigma(i).ranks[r].caller)
    requires TurnsOf(sched, CallerOf(r)) && TurnsOf(sched, ConsumerOf(r))
    ensures i <= n && sigma(n).ranks[r].caller.CIdle? && sigma(n).ranks[r].consumer.KStopped?
  {
    hide Reachable, Inv, Step;
    var reaping := CloseReaps(c, sigma, sched, r, i);
    StaysInExecution(c, sigma, sched, reaping);
    ReachableInv(c, sigma(reaping));
    ReapingMeansStopping(c, sigma(reaping), r);
    var stopped := ConsumerEnds(c, sigma, sched, r, reaping);
    var both := ReapingUntil(c, sigma, sched, r, reaping, stopped);
    n := ReapEnds(c, sigma, sched, r, both);
  }
}
