/**
 A whole script runs to its end: when nothing times out, fails or closes, every thread gets its
 turns, and callers go on to their next call, every rank returns from the last job's `wait`.
 */
module TransportScript {
  import opened TransportModel
  import opened TransportInvariant
  import opened TransportConsumer
  import opened TransportSafety
  import opened TransportTheorems
  import opened TransportProgress
  import opened TransportDiscipline
  import opened TransportClean
  import opened TransportRerun
  import opened TransportLeaving

  // ------------------------------------------------------------- the callers

  /** A rank joins the next epoch only after it has returned from the one it joined. */
  predicate Patient(c: Config, s: State, a: Action)
    requires Shape(c, s)
  {
    a.CallJoin? && a.r < c.tp && s.ranks[a.r].caller.CIdle? ==> s.ranks[a.r].waitReturned == s.ranks[a.r].join
  }

  predicate PatientRank(rk: Rank) {
    rk.caller.COpening? || rk.caller.JWait? || Joining(rk.caller) ==> rk.waitReturned == rk.join
  }

  predicate AllPatient(s: State) { forall r :: 0 <= r < |s.ranks| ==> PatientRank(s.ranks[r]) }

  lemma JoinPatient(p: Poison, sh: Shared, rk: Rank, o: Outcome)
    requires ShapeRank(rk) && PatientRank(rk) && (rk.caller.JWait? || Joining(rk.caller))
    ensures PatientRank(JoinStep(p, sh, rk, o).1)
  {
    hide ShapeRank;
  }

  lemma WaitPatient(p: Poison, sh: Shared, rk: Rank, o: Outcome)
    requires ShapeRank(rk)
    ensures Waiting(rk.caller) ==> PatientRank(WaitStep(p, sh, rk, o).1)
    ensures PatientRank(rk) ==> PatientRank(CloseStep(p, sh, rk).1)
  {
    hide ShapeRank;
  }

  lemma CallerPatient(p: Poison, sh: Shared, rk: Rank, o: Outcome)
    requires ShapeRank(rk) && PatientRank(rk) && !rk.caller.COpening?
    ensures PatientRank(CallerStep(p, sh, rk, o).1)
  {
    hide ShapeRank, PatientRank, JoinStep, WaitStep, CloseStep;
    if rk.caller.JWait? || Joining(rk.caller) { JoinPatient(p, sh, rk, o); } else { WaitPatient(p, sh, rk, o); }
  }

  lemma EffectPatient(was: Opener, now: Opener, r: nat, rk: Rank)
    requires ShapeRank(rk) && PatientRank(rk) && (r == 0 ==> rk.caller.COpening?)
    ensures PatientRank(OpenerEffect(was, now, r, rk))
  {
    hide ShapeRank;
  }

  lemma CallersPatient(c: Config, s: State, r: nat, o: Outcome)
    requires Inv(c, s) && Shape(c, s) && AllPatient(s) && r < c.tp
    ensures AllPatient(Step(c, s, StepCaller(r, o)))
  {
    var t := Step(c, s, StepCaller(r, o));
    if s.ranks[r].caller.COpening? {
      OnlyZeroOpens(c, s, r);
      hide Inv, PatientRank, ShapeRank, OpenerStep, OpenerEffect;
      forall q | 0 <= q < c.tp ensures PatientRank(t.ranks[q]) {
        EffectPatient(s.sh.opener, t.sh.opener, q, s.ranks[q]);
      }
    } else {
      hide Inv, PatientRank, ShapeRank, CallerStep;
      CallerPatient(s.poison, s.sh, s.ranks[r], o);
    }
  }

  lemma ConsumersPatient(c: Config, s: State, r: nat, o: Outcome)
    requires Shape(c, s) && AllPatient(s) && r < c.tp
    ensures AllPatient(Step(c, s, StepConsumer(r, o)))
  {
    ConsumerKeepsCaller(c, s.poison, s.sh, s.ranks[r], r, o);
    hide ShapeRank, ConsumerStep;
  }

  lemma OthersPatient(c: Config, s: State, a: Action)
    requires Shape(c, s) && AllPatient(s) && Patient(c, s, a) && !a.StepCaller? && !a.StepConsumer?
    ensures AllPatient(Step(c, s, a))
  {
    hide ShapeRank, ProducerStep;
  }

  lemma PatientStep(c: Config, s: State, a: Action)
    requires Inv(c, s) && Shape(c, s) && AllPatient(s) && Patient(c, s, a)
    ensures AllPatient(Step(c, s, a))
  {
    hide Inv, Shape, AllPatient, Patient, Step;
    match a
    case StepCaller(r, o) => if r < c.tp { CallersPatient(c, s, r, o); } else { BeyondClean(c, s, a); }
    case StepConsumer(r, o) => if r < c.tp { ConsumersPatient(c, s, r, o); } else { BeyondClean(c, s, a); }
    case _ => OthersPatient(c, s, a);
  }

  // -------------------------------------------------------- what always holds

  /** No repetition, every caller patient, nobody thrown, script followed. */
  ghost predicate Fine(c: Config, script: seq<Job>, s: State) {
    && ValidConfig(c) && ValidScript(c, script)
    && Reachable(c, s) && Inv(c, s) && Shape(c, s)
    && CleanState(s) && ScriptInv(c, script, s) && AllPatient(s) && !s.sh.rerun
  }

  ghost predicate Proper(c: Config, script: seq<Job>, s: State, a: Action)
    requires Shape(c, s) && ValidConfig(c)
  {
    Disciplined(c, script, s, a) && CleanAction(a) && Patient(c, s, a)
  }

  lemma FirstRunStep(c: Config, script: seq<Job>, s: State, a: Action)
    requires Fine(c, script, s)
    ensures !Step(c, s, a).sh.rerun
  {
    match a
    case StepProducer(o) =>
      hide Inv, ShapeRank, CleanState, AllPatient, Reachable, ProducerStep;
      if s.sh.producer.PGate? {
        GateFirst(c, script, s);
        GateDecides(c, s, o);
      } else {
        NoGateNoRerun(c, s, o);
      }
    case StepCaller(_, o) =>
      OpenerClaims(c, s, o);
      hide Inv, ShapeRank, CallerStep, OpenerStep, CleanState, AllPatient, ScriptInv;
    case _ =>
      hide Inv, ShapeRank, ConsumerStep, CleanState, AllPatient, ScriptInv;
  }

  lemma GateFirst(c: Config, script: seq<Job>, s: State)
    requires ScriptInv(c, script, s) && CleanState(s) && Calling(s.sh.producer)
    ensures s.poison.Healthy? && s.sh.producerDone < s.sh.producer.epoch == s.sh.active
  {
    hide After;
  }

  lemma NoGateNoRerun(c: Config, s: State, o: Outcome)
    requires Shape(c, s) && !s.sh.producer.PGate? && !s.sh.rerun
    ensures !ProducerStep(c, s, o).1.rerun
  {
    hide ShapeRank, CallStep, ExpertStep, DrainStep;
    ExpertEndsNothing(c, s, o);
    DrainEndsAtDone(c, s, o);
    if Calling(s.sh.producer) { CallNoRerun(c, s, o); }
  }

  lemma CallNoRerun(c: Config, s: State, o: Outcome)
    requires Shape(c, s) && !s.sh.producer.PGate?
    ensures CallStep(c, s, o).1.rerun == s.sh.rerun
  {
    hide ShapeRank;
  }

  lemma FineStep(c: Config, script: seq<Job>, s: State, a: Action)
    requires Fine(c, script, s) && Proper(c, script, s, a)
    ensures Fine(c, script, Step(c, s, a))
  {
    hide Inv, Shape, CleanState, ScriptInv, AllPatient, Step, Disciplined, Patient, Reachable;
    ShapeKept(c, s, a);
    StepKept(c, s, a);
    StaysReachable(c, s, a);
    StepDisciplined(c, script, s, a);
    CleanStep(c, script, s, a);
    PatientStep(c, s, a);
    FirstRunStep(c, script, s, a);
  }

  // ------------------------------------------------------------- executions

  /** Having returned from what it joined, the rank goes on to its next job. */
  ghost predicate JoinsAt(sigma: nat -> State, sched: nat -> Action, r: nat, job: Job, i: nat, j: nat)
    requires r < |sigma(i).ranks| && r < |sigma(j).ranks|
  {
    || sigma(j).ranks[r].join != sigma(i).ranks[r].join
    || (sigma(j).ranks[r].caller.CIdle? && sched(j) == CallJoin(r, job.epoch, job.layer, job.count))
  }

  /** Having joined, it waits for what it joined. */
  ghost predicate WaitsAt(sigma: nat -> State, sched: nat -> Action, r: nat, i: nat, j: nat)
    requires r < |sigma(i).ranks| && r < |sigma(j).ranks|
  {
    || sigma(j).ranks[r].waitReturned != sigma(i).ranks[r].waitReturned
    || (sigma(j).ranks[r].caller.CIdle? && sched(j) == CallWait(r, sigma(i).ranks[r].join))
  }

  /** Having joined an epoch not yet produced, rank zero produces it. */
  ghost predicate ProducesAt(sigma: nat -> State, sched: nat -> Action, j: nat) {
    !sigma(j).sh.producer.PIdle? || sched(j).CallProduce?
  }

  /** A thread that is between two calls makes its next one in the end. */
  ghost predicate Eager(c: Config, script: seq<Job>, sigma: nat -> State, sched: nat -> Action)
    requires Execution(c, sigma, sched)
  {
    && (forall r: nat, i: nat, job: Job ::
          r < c.tp && sigma(i).ranks[r].caller.CIdle? && sigma(i).ranks[r].waitReturned == sigma(i).ranks[r].join
          && After(script, sigma(i).ranks[r].join, job)
          ==> exists j: nat :: i <= j && JoinsAt(sigma, sched, r, job, i, j))
    && (forall r: nat, i: nat ::
          r < c.tp && sigma(i).ranks[r].caller.CIdle? && sigma(i).ranks[r].waitReturned < sigma(i).ranks[r].join
          ==> exists j: nat :: i <= j && WaitsAt(sigma, sched, r, i, j))
    && (forall i: nat ::
          sigma(i).sh.producer.PIdle? && sigma(i).ranks[0].join == sigma(i).sh.active
          && sigma(i).sh.producerDone < sigma(i).sh.active
          ==> exists j: nat :: i <= j && ProducesAt(sigma, sched, j))
  }

  /** Clean, fair to all threads, patient and eager. */
  ghost predicate Whole(c: Config, script: seq<Job>, sigma: nat -> State, sched: nat -> Action) {
    && ValidConfig(c) && ValidScript(c, script)
    && Execution(c, sigma, sched) && Fair(c, sched) && CleanExecution(c, script, sigma, sched)
    && (forall r: nat :: r < c.tp ==> TurnsOf(sched, CallerOf(r)))
    && (forall i: nat :: Patient(c, sigma(i), sched(i)))
    && Eager(c, script, sigma, sched)
  }

  lemma InitFine(c: Config, script: seq<Job>)
    requires ValidConfig(c) && ValidScript(c, script)
    ensures Fine(c, script, Init(c))
  {
    InitClean(c, script);
    hide Inv, ScriptInv, CleanState;
    assert Init(c) == Run(c, Init(c), []);
  }

  lemma {:induction false} StaysFine(c: Config, script: seq<Job>, sigma: nat -> State, sched: nat -> Action, i: nat)
    requires Whole(c, script, sigma, sched)
    ensures Fine(c, script, sigma(i)) && sigma(i + 1) == Step(c, sigma(i), sched(i))
    ensures Proper(c, script, sigma(i), sched(i)) && Fine(c, script, sigma(i + 1))
  {
    hide Fine, Shape, Step, Reachable, Disciplined, Patient, Eager;
    if i == 0 {
      InitFine(c, script);
    } else {
      StaysFine(c, script, sigma, sched, i - 1);
      assert sigma(i - 1 + 1) == sigma(i);
    }
    assert Shape(c, sigma(i)) && sigma(i + 1) == Step(c, sigma(i), sched(i));
    assert Disciplined(c, script, sigma(i), sched(i)) && CleanAction(sched(i)) && Patient(c, sigma(i), sched(i));
    FineStep(c, script, sigma(i), sched(i));
  }

  // --------------------------------------------------------- cells only grow

  lemma ConsumerCells(c: Config, p: Poison, sh: Shared, r: nat, rk: Rank, o: Outcome)
    requires Before(c, p, sh, r, rk) && ShapeShared(c, sh) && ShapeRank(rk) && ValidConfig(c)
    ensures var t := ConsumerStep(c, p, sh, rk, r, o).1;
            SameCaller(rk, t) && (t.consumerDone == rk.consumerDone || t.consumerDone == sh.active)
  {
    ConsumerKeepsCaller(c, p, sh, rk, r, o);
    if rk.consumer.KDone? { DoneEpoch(c, p, sh, r, rk); }
    hide Before, SameCaller, ShapeShared, ShapeRank;
    ConsumerEndsAt(c, p, sh, rk, r, o);
  }

  lemma DoneEpoch(c: Config, p: Poison, sh: Shared, r: nat, rk: Rank)
    requires Before(c, p, sh, r, rk) && rk.consumer.KDone?
    ensures rk.consumer.epoch == sh.active
  {
    hide SharedInv, Acked, Lockstep, Arguments, BytesAt, SeekAt, GenerationAt, JoinAt, WaitAt, SeenByOpener, CloseAt;
    hide LocalBytesAt, AckCounts, AckCells, SeenByProducer, Stream, Memory, History, SeenByScan, ShapeRank;
  }

  lemma SeekEndsNothing(c: Config, p: Poison, sh: Shared, rk: Rank, r: nat, o: Outcome)
    requires ValidConfig(c) && r < c.tp && |sh.ready| == SLOTS == |rk.lastReady| && ShapeRank(rk)
    ensures SeekStep(c, p, sh, rk, r).1.consumerDone == rk.consumerDone
    ensures PollStep(p, sh, rk, o).1.consumerDone == rk.consumerDone
  {
    hide ShapeRank;
  }

  lemma FinishEndsAtDone(c: Config, p: Poison, rk: Rank, r: nat, o: Outcome)
    requires ValidConfig(c) && r < c.tp && |rk.ack| == SLOTS == |rk.lastReady| && ShapeRank(rk)
    ensures CopyStep(p, rk, o).1.consumerDone == rk.consumerDone
    ensures FinishStep(c, rk, r).consumerDone == if rk.consumer.KDone? then rk.consumer.epoch else rk.consumerDone
  {
    hide ShapeRank;
  }

  lemma ConsumerEndsAt(c: Config, p: Poison, sh: Shared, rk: Rank, r: nat, o: Outcome)
    requires ValidConfig(c) && r < c.tp && ShapeShared(c, sh) && ShapeRank(rk)
    ensures ConsumerStep(c, p, sh, rk, r, o).1.consumerDone
         == if rk.consumer.KDone? then rk.consumer.epoch else rk.consumerDone
  {
    hide SeekStep, PollStep, CopyStep, FinishStep;
    SeekEndsNothing(c, p, sh, rk, r, o);
    FinishEndsAtDone(c, p, rk, r, o);
  }
}
