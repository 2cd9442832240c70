/** A transport in which nothing times out, nothing fails and nobody closes: the latch stays clear and epochs finish. */
module TransportClean {
  import opened TransportModel
  import opened TransportInvariant
  import opened TransportSafety
  import opened TransportTheorems
  import opened TransportProgress
  import opened TransportDiscipline

  /** No timeout, no error, no close. */
  predicate CleanAction(a: Action) {
    match a
    case StepCaller(_, o) => o.Go?
    case StepProducer(o) => o.Go?
    case StepConsumer(_, o) => o.Go?
    case CallClose(_) => false
    case _ => true
  }

  predicate CleanRank(rk: Rank) {
    !rk.closed && !rk.stopping && !Closing(rk.caller) && !rk.consumer.KCatch? && !rk.consumer.KStopped?
  }

  /** Nobody has thrown and nobody is on the way out. */
  predicate CleanState(s: State) {
    && s.poison.Healthy? && !s.sh.producer.PCatch?
    && (forall r :: 0 <= r < |s.ranks| ==> CleanRank(s.ranks[r]))
  }

  /** The only thing that can go wrong in one clean step is a protocol error. */
  predicate CleanOrProtocol(p: Poison) { p.Healthy? || p == Claimed(Protocol) }

  // -------------------------------------------------------------- one rank

  lemma CallerClean(sh: Shared, rk: Rank)
    requires ShapeRank(rk) && CleanRank(rk)
    ensures var (p, t) := CallerStep(Healthy, sh, rk, Go); CleanOrProtocol(p) && CleanRank(t)
  {
    hide ShapeRank;
    if rk.caller.JWait? || Joining(rk.caller) { hide WaitStep, CloseStep; }
    else if Waiting(rk.caller) { hide JoinStep, CloseStep; }
    else { hide JoinStep, WaitStep; }
  }

  lemma SeekClean(c: Config, sh: Shared, rk: Rank, r: nat)
    requires ValidConfig(c) && r < c.tp && ShapeRank(rk) && CleanRank(rk)
    ensures var (p, t) := SeekStep(c, Healthy, sh, rk, r); CleanOrProtocol(p) && (p.Healthy? ==> CleanRank(t))
  {
    hide ShapeRank;
  }

  lemma PollClean(sh: Shared, rk: Rank)
    requires |sh.ready| == SLOTS && |rk.lastReady| == SLOTS && ShapeRank(rk) && CleanRank(rk)
    ensures var (p, t) := PollStep(Healthy, sh, rk, Go); CleanOrProtocol(p) && (p.Healthy? ==> CleanRank(t))
  {
    hide ShapeRank;
  }

  lemma CopyClean(c: Config, rk: Rank, r: nat)
    requires ValidConfig(c) && r < c.tp && |rk.lastReady| == SLOTS && |rk.ack| == SLOTS
    requires ShapeRank(rk) && CleanRank(rk)
    ensures var (p, t) := CopyStep(Healthy, rk, Go); p.Healthy? && CleanRank(t)
    ensures CleanRank(FinishStep(c, rk, r))
  {
    hide ShapeRank;
  }

  lemma ConsumerClean(c: Config, sh: Shared, rk: Rank, r: nat)
    requires ValidConfig(c) && r < c.tp && ShapeShared(c, sh) && ShapeRank(rk) && CleanRank(rk)
    ensures var (p, t) := ConsumerStep(c, Healthy, sh, rk, r, Go); CleanOrProtocol(p) && (p.Healthy? ==> CleanRank(t))
  {
    hide SeekStep, PollStep, CopyStep, FinishStep;
    SeekClean(c, sh, rk, r);
    PollClean(sh, rk);
    CopyClean(c, rk, r);
  }

  // ----------------------------------------------------- opener and producer

  lemma OpenerClean(c: Config, s: State)
    requires Shape(c, s) && CleanState(s)
    ensures var (p, sh) := OpenerStep(c, s, Go); CleanOrProtocol(p) && sh.producer == s.sh.producer
  {
    hide ShapeRank;
  }

  lemma EffectClean(was: Opener, now: Opener, r: nat, rk: Rank)
    requires ShapeRank(rk) && CleanRank(rk)
    ensures CleanRank(OpenerEffect(was, now, r, rk))
  {
    hide ShapeRank;
  }

  lemma CallClean(c: Config, s: State)
    requires Shape(c, s) && CleanState(s) && Calling(s.sh.producer)
    ensures var (p, sh) := CallStep(c, s, Go); CleanOrProtocol(p) && !sh.producer.PCatch?
  {
    hide ShapeRank;
    assert CleanRank(s.ranks[0]);
    if s.sh.producer.PScan? {} else if s.sh.producer.PGate? {} else {}
  }

  lemma ExpertClean(c: Config, s: State)
    requires Shape(c, s) && CleanState(s) && OnExpert(s.sh.producer)
    ensures var (p, sh) := ExpertStep(c, s, Go); p.Healthy? && !sh.producer.PCatch?
  {
    hide ShapeRank;
    assert CleanRank(s.ranks[0]);
    if s.sh.producer.PAck? {} else if s.sh.producer.PSequence? {} else {}
  }

  lemma DrainClean(c: Config, s: State)
    requires Shape(c, s) && CleanState(s) && !Calling(s.sh.producer) && !OnExpert(s.sh.producer)
    ensures var (p, sh) := DrainStep(c, s, Go); p.Healthy? && !sh.producer.PCatch?
  {
    hide ShapeRank;
    assert CleanRank(s.ranks[0]);
  }

  // ------------------------------------------------------------------ steps

  lemma CallerActionClean(c: Config, s: State, r: nat)
    requires Inv(c, s) && Shape(c, s) && CleanState(s) && r < c.tp
    ensures var t := Step(c, s, StepCaller(r, Go)); CleanOrProtocol(t.poison) && (t.poison.Healthy? ==> CleanState(t))
  {
    if s.ranks[r].caller.COpening? {
      OnlyZeroOpens(c, s, r);
      hide Inv, ShapeRank, CleanRank;
      OpenerClean(c, s);
      var t := Step(c, s, StepCaller(0, Go));
      forall q | 0 <= q < c.tp ensures CleanRank(t.ranks[q]) {
        EffectClean(s.sh.opener, t.sh.opener, q, s.ranks[q]);
      }
      hide OpenerStep, OpenerEffect;
    } else {
      hide Inv, ShapeRank, CallerStep, CleanRank;
      CallerClean(s.sh, s.ranks[r]);
    }
  }

  lemma ProducerActionClean(c: Config, s: State)
    requires Shape(c, s) && CleanState(s)
    ensures var t := Step(c, s, StepProducer(Go)); CleanOrProtocol(t.poison) && (t.poison.Healthy? ==> CleanState(t))
  {
    hide CallStep, ExpertStep, DrainStep, ShapeRank, CleanRank;
    if Calling(s.sh.producer) { CallClean(c, s); }
    else if OnExpert(s.sh.producer) { ExpertClean(c, s); }
    else { DrainClean(c, s); }
  }

  lemma ConsumerActionClean(c: Config, s: State, r: nat)
    requires Shape(c, s) && CleanState(s) && r < c.tp
    ensures var t := Step(c, s, StepConsumer(r, Go)); CleanOrProtocol(t.poison) && (t.poison.Healthy? ==> CleanState(t))
  {
    hide ConsumerStep, ShapeRank, CleanRank;
    ConsumerClean(c, s.sh, s.ranks[r], r);
  }

  lemma OtherActionClean(c: Config, s: State, a: Action)
    requires Shape(c, s) && CleanState(s) && CleanAction(a)
    requires !a.StepCaller? && !a.StepProducer? && !a.StepConsumer?
    ensures var t := Step(c, s, a); CleanOrProtocol(t.poison) && (t.poison.Healthy? ==> CleanState(t))
  {
    hide ShapeRank, ConsumerStep, CallerStep, OpenerStep, ProducerStep;
  }

  /** A clean step of disciplined callers leaves the transport clean. */
  lemma CleanStep(c: Config, script: seq<Job>, s: State, a: Action)
    requires Inv(c, s) && Shape(c, s) && ScriptInv(c, script, s) && ValidScript(c, script)
    requires Disciplined(c, script, s, a) && CleanAction(a) && CleanState(s)
    ensures CleanState(Step(c, s, a))
  {
    StepDisciplined(c, script, s, a);
    NoErrorIn(c, script, Step(c, s, a));
    hide Inv, Shape, ScriptInv, Disciplined, CleanState, Step;
    match a
    case StepCaller(r, o) => if r < c.tp { CallerActionClean(c, s, r); } else { BeyondClean(c, s, a); }
    case StepProducer(o) => ProducerActionClean(c, s);
    case StepConsumer(r, o) => if r < c.tp { ConsumerActionClean(c, s, r); } else { BeyondClean(c, s, a); }
    case _ => OtherActionClean(c, s, a);
  }

  lemma BeyondClean(c: Config, s: State, a: Action)
    requires Shape(c, s) && (a.StepCaller? || a.StepConsumer?) && a.r >= c.tp
    ensures Step(c, s, a) == s
  {
  }

  lemma NoErrorIn(c: Config, script: seq<Job>, s: State)
    requires ScriptInv(c, script, s)
    ensures s.poison != Claimed(Protocol)
  {
  }

  // ------------------------------------------------------------- executions

  /** Every call follows the script, every step is clean. */
  ghost predicate CleanExecution(c: Config, script: seq<Job>, sigma: nat -> State, sched: nat -> Action)
    requires Execution(c, sigma, sched)
  {
    && sigma(0) == Init(c)
    && forall i: nat :: Disciplined(c, script, sigma(i), sched(i)) && CleanAction(sched(i))
  }

  lemma InitClean(c: Config, script: seq<Job>)
    requires ValidConfig(c)
    ensures Inv(c, Init(c)) && CleanState(Init(c)) && ScriptInv(c, script, Init(c))
  {
    InitInv(c);
    var s := Init(c);
    hide Inv, After;
    forall r {:trigger s.ranks[r]} | 0 <= r < |s.ranks| ensures ScriptRank(script, s.sh, r, s.ranks[r]) {
      assert s.ranks[r] == FRESH_RANK;
    }
  }

  lemma {:induction false} StaysClean(c: Config, script: seq<Job>, sigma: nat -> State, sched: nat -> Action, i: nat)
    requires Execution(c, sigma, sched) && ValidConfig(c) && ValidScript(c, script)
    requires CleanExecution(c, script, sigma, sched)
    ensures Inv(c, sigma(i)) && CleanState(sigma(i)) && ScriptInv(c, script, sigma(i))
  {
    hide Inv, Shape, Step, CleanState, ScriptInv, Disciplined, Reachable;
    if i == 0 {
      InitClean(c, script);
    } else {
      var k: nat := i - 1;
      StaysClean(c, script, sigma, sched, k);
      assert sigma(k + 1) == Step(c, sigma(k), sched(k));
      assert Disciplined(c, script, sigma(k), sched(k)) && CleanAction(sched(k));
      StepKept(c, sigma(k), sched(k));
      StepDisciplined(c, script, sigma(k), sched(k));
      CleanStep(c, script, sigma(k), sched(k));
    }
  }

  /**
   If nothing times out, fails or closes, and the callers follow one script, the latch is never set
   and every epoch that got under way is finished on every rank.
   */
  lemma CleanEpochsFinish(c: Config, script: seq<Job>, sigma: nat -> State, sched: nat -> Action, m: nat)
    requires ValidConfig(c) && ValidScript(c, script)
    requires Execution(c, sigma, sched) && Fair(c, sched) && CleanExecution(c, script, sigma, sched)
    ensures sigma(m).poison.Healthy?
    ensures UnderWay(sigma(m)) ==> exists n :: m <= n && Finished(sigma(n)) && sigma(n).sh.active == sigma(m).sh.active
  {
    hide Inv, Shape, Step, ScriptInv, Disciplined, Reachable, UnderWay, Finished, Fair;
    StaysClean(c, script, sigma, sched, m);
    if UnderWay(sigma(m)) {
      var n := EndFrom(c, sigma, sched, m);
      StaysClean(c, script, sigma, sched, n);
    }
  }
}
