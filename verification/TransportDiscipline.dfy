/** Callers that walk through one script of jobs never make anyone report a protocol error. */
module TransportDiscipline {
  import opened TransportModel
  import opened TransportInvariant
  import opened TransportConsumer
  import opened TransportSafety

  datatype Job = Job(epoch: nat, layer: int, count: nat)

  /** Strictly increasing epochs, arguments every rank accepts. */
  predicate ValidScript(c: Config, script: seq<Job>)
    requires ValidConfig(c)
  {
    && (forall i, j :: 0 <= i < j < |script| ==> script[i].epoch < script[j].epoch)
    && (forall i, r :: 0 <= i < |script| && 0 <= r < c.tp ==>
          ValidCall(c, r, script[i].epoch, script[i].layer, script[i].count))
  }

  /** The job is the one that comes right after epoch p. */
  predicate After(script: seq<Job>, p: nat, job: Job) {
    exists i :: 0 <= i < |script| && script[i] == job && p == EpochBefore(script, i)
  }

  function EpochBefore(script: seq<Job>, i: nat): nat
    requires i < |script|
  {
    if i == 0 then 0 else script[i - 1].epoch
  }

  lemma AfterIsUnique(c: Config, script: seq<Job>, p: nat, j1: Job, j2: Job)
    requires ValidConfig(c) && ValidScript(c, script)
    requires After(script, p, j1) && After(script, p, j2)
    ensures j1 == j2 && j1.epoch > p
  {
    var a :| 0 <= a < |script| && script[a] == j1 && p == EpochBefore(script, a);
    var b :| 0 <= b < |script| && script[b] == j2 && p == EpochBefore(script, b);
    assert ValidCall(c, 0, script[a].epoch, script[a].layer, script[a].count);
    assert ValidCall(c, 0, script[b].epoch, script[b].layer, script[b].count);
    if a > 0 { assert ValidCall(c, 0, script[a - 1].epoch, script[a - 1].layer, script[a - 1].count); }
    if b > 0 { assert ValidCall(c, 0, script[b - 1].epoch, script[b - 1].layer, script[b - 1].count); }
  }

  /** Each rank joins the script's jobs one after the other and waits for what it joined; each job is produced once. */
  predicate Disciplined(c: Config, script: seq<Job>, s: State, a: Action)
    requires Shape(c, s)
  {
    match a
    case CallJoin(r, e, l, n) => r < c.tp ==> After(script, s.ranks[r].join, Job(e, l, n))
    case CallWait(r, e) => r < c.tp ==> e == s.ranks[r].join && e > 0
    case CallProduce(e, l, n) =>
      && e == s.ranks[0].join == s.sh.active && s.sh.producerDone < e
      && l == s.sh.openLayer && n == s.sh.openCount
    case _ => true
  }

  predicate NoProtocolError(p: Poison) { p.Healthy? || !p.code.Protocol? }

  predicate ScriptShared(script: seq<Job>, sh: Shared) {
    var p := sh.producer;
    && (sh.active > 0 ==> After(script, sh.previous, Job(sh.active, sh.openLayer, sh.openCount)))
    && (!sh.opener.ONone? ==> After(script, sh.active, Job(sh.opener.epoch, sh.opener.layer, sh.opener.count)))
    && (Calling(p) ==> p.epoch == sh.active && p.count == sh.openCount && sh.producerDone < sh.active)
    && (p.PActive? || p.PLayer? ==> p.layer == sh.openLayer)
  }

  predicate ScriptRank(script: seq<Job>, sh: Shared, r: nat, rk: Rank) {
    var k := rk.caller;
    && (r == 0 && !k.JStore? ==> rk.join == sh.active)
    && (r == 0 && k.JStore? ==> rk.join < k.epoch == sh.active)
    && (r == 0 ==> !k.JWait? && !k.JGate? && !k.JLayer? && !k.JCount?)
    && (r != 0 && (k.JWait? || Joining(k)) ==> After(script, rk.join, Job(k.epoch, k.layer, k.count)))
    && (r == 0 && Calling(sh.producer) ==> rk.join == sh.active)
  }

  ghost predicate ScriptInv(c: Config, script: seq<Job>, s: State) {
    && NoProtocolError(s.poison) && ScriptShared(script, s.sh)
    && (forall r {:trigger s.ranks[r]} :: 0 <= r < |s.ranks| ==> ScriptRank(script, s.sh, r, s.ranks[r]))
  }

  // ------------------------------------------------------------ rank by rank

  /** The consumer's two protocol checks cannot fail: the count is valid and the epoch cannot have moved on. */
  lemma ConsumerChecks(c: Config, p: Poison, sh: Shared, r: nat, rk: Rank)
    requires Before(c, p, sh, r, rk)
    ensures rk.consumer.KCount? ==> 0 < sh.expertCount <= c.numExperts[r]
    ensures rk.consumer.KScan? ==> sh.active <= rk.consumer.epoch
  {
    hide PublicationsShared, ReadyShared, ProducedShared, Memory, AckCells, History, RunAt, RerunAt, LogShared;
    hide AckCounts, SeenByProducer, Stream, LocalBytesAt, GenerationAt, JoinAt, WaitAt, CloseAt, BytesAt;
  }

  lemma CheckedConsumer(c: Config, p: Poison, sh: Shared, r: nat, rk: Rank, o: Outcome)
    requires ValidConfig(c) && r < c.tp && ShapeShared(c, sh) && ShapeRank(rk) && NoProtocolError(p)
    requires rk.consumer.KCount? ==> 0 < sh.expertCount <= c.numExperts[r]
    requires rk.consumer.KScan? ==> sh.active <= rk.consumer.epoch
    ensures NoProtocolError(ConsumerStep(c, p, sh, rk, r, o).0)
  {
    hide ShapeRank;
    var k := rk.consumer;
    if Seeking(k) { hide PollStep, CopyStep, FinishStep, CatchStep; }
    else if Polling(k) { hide SeekStep, CopyStep, FinishStep, CatchStep; }
    else if Copying(k) { hide SeekStep, PollStep, FinishStep, CatchStep; }
    else { hide SeekStep, PollStep, CopyStep; }
  }

  lemma ConsumerDisciplined(c: Config, script: seq<Job>, p: Poison, sh: Shared, r: nat, rk: Rank, o: Outcome)
    requires Before(c, p, sh, r, rk) && NoProtocolError(p) && ScriptRank(script, sh, r, rk)
    ensures var (q, rk') := ConsumerStep(c, p, sh, rk, r, o); NoProtocolError(q) && ScriptRank(script, sh, r, rk')
  {
    ConsumerChecks(c, p, sh, r, rk);
    CheckedConsumer(c, p, sh, r, rk, o);
    ConsumerKeepsCaller(c, p, sh, rk, r, o);
    hide SharedInv, RankInv, ConsumerStep;
  }

  /** A joining rank's job is the active one as long as rank zero cannot have touched the argument cells. */
  lemma JoinsTheActive(c: Config, script: seq<Job>, p: Poison, sh: Shared, r: nat, rk: Rank)
    requires Before(c, p, sh, r, rk) && ScriptRank(script, sh, r, rk) && r != 0
    requires ScriptShared(script, sh) && ValidScript(c, script) && (rk.caller.JWait? || Joining(rk.caller))
    ensures sh.active <= rk.caller.epoch
    ensures sh.active == rk.caller.epoch ==>
              sh.layerId == rk.caller.layer && sh.expertCount == rk.caller.count && rk.join != sh.active
  {
    hide PublicationsShared, ReadyShared, ProducedShared, Memory, AckCells, History, RunAt, RerunAt, LogShared;
    hide AckCounts, SeenByProducer, Stream, LocalBytesAt, GenerationAt, After, WaitAt, CloseAt, BytesAt, SeekAt;
    hide EpochAt;
    var k := rk.caller;
    var job := Job(k.epoch, k.layer, k.count);
    AfterIsUnique(c, script, rk.join, job, job);
    if rk.join == sh.previous && sh.active > 0 {
      AfterIsUnique(c, script, rk.join, job, Job(sh.active, sh.openLayer, sh.openCount));
    }
  }

  lemma CheckedJoin(script: seq<Job>, p: Poison, sh: Shared, r: nat, rk: Rank, o: Outcome)
    requires ShapeRank(rk) && NoProtocolError(p) && ScriptRank(script, sh, r, rk)
    requires rk.caller.JWait? || Joining(rk.caller)
    requires Joining(rk.caller) ==> rk.caller.epoch <= sh.active
    requires r != 0 ==>
               && sh.active <= rk.caller.epoch
               && (sh.active == rk.caller.epoch ==>
                     sh.layerId == rk.caller.layer && sh.expertCount == rk.caller.count && rk.join != sh.active)
    ensures var (q, rk') := JoinStep(p, sh, rk, o); NoProtocolError(q) && ScriptRank(script, sh, r, rk')
  {
    hide After, ShapeRank;
  }

  lemma CheckedWait(script: seq<Job>, p: Poison, sh: Shared, r: nat, rk: Rank, o: Outcome)
    requires ShapeRank(rk) && NoProtocolError(p) && ScriptRank(script, sh, r, rk)
    requires Waiting(rk.caller)
    ensures var (q, rk') := WaitStep(p, sh, rk, o); NoProtocolError(q) && ScriptRank(script, sh, r, rk')
  {
    hide After, ShapeRank;
  }

  lemma CheckedClose(script: seq<Job>, p: Poison, sh: Shared, r: nat, rk: Rank)
    requires ShapeRank(rk) && NoProtocolError(p) && ScriptRank(script, sh, r, rk)
    requires !rk.caller.JWait? && !Joining(rk.caller) && !Waiting(rk.caller)
    ensures var (q, rk') := CloseStep(p, sh, rk); NoProtocolError(q) && ScriptRank(script, sh, r, rk')
  {
    hide After, ShapeRank;
  }

  lemma CallerDisciplined(c: Config, script: seq<Job>, p: Poison, sh: Shared, r: nat, rk: Rank, o: Outcome)
    requires Before(c, p, sh, r, rk) && NoProtocolError(p) && ScriptRank(script, sh, r, rk)
    requires ScriptShared(script, sh) && ValidScript(c, script)
    ensures var (q, rk') := CallerStep(p, sh, rk, o); NoProtocolError(q) && ScriptRank(script, sh, r, rk')
  {
    if r != 0 && (rk.caller.JWait? || Joining(rk.caller)) { JoinsTheActive(c, script, p, sh, r, rk); }
    hide ScriptRank, ScriptShared, Memory, AckCells, History, AckCounts, SeenByProducer, Stream, ReadyShared;
    hide JoinStep, WaitStep, CloseStep, PublicationsShared, ProducedShared, RunAt, RerunAt;
    if rk.caller.JWait? || Joining(rk.caller) { CheckedJoin(script, p, sh, r, rk, o); }
    else if Waiting(rk.caller) { CheckedWait(script, p, sh, r, rk, o); }
    else { CheckedClose(script, p, sh, r, rk); }
  }

  // ------------------------------------------------------- opener, producer

  lemma CheckedOpener(c: Config, script: seq<Job>, s: State, r: nat, o: Outcome)
    requires Shape(c, s) && r < c.tp && NoProtocolError(s.poison) && ScriptShared(script, s.sh)
    requires ScriptRank(script, s.sh, r, s.ranks[r]) && (s.ranks[r].caller.COpening? <==> r == 0)
    requires !s.sh.opener.ONone? ==> s.sh.opener.epoch > s.sh.active
    requires s.sh.opener.OActivate? ==> !Calling(s.sh.producer)
    ensures var (p, sh) := OpenerStep(c, s, o);
            && NoProtocolError(p) && ScriptShared(script, sh)
            && ScriptRank(script, sh, r, OpenerEffect(s.sh.opener, sh.opener, r, s.ranks[r]))
  {
    hide After, ShapeRank;
    if s.sh.opener.OActivate? { if r == 0 {} else {} } else if r == 0 {} else {}
  }

  /** Rank zero opens the next job; nobody is calling the producer while it stores. */
  lemma OpenerDisciplined(c: Config, script: seq<Job>, s: State, r: nat, o: Outcome)
    requires Inv(c, s) && Shape(c, s) && ScriptInv(c, script, s) && ValidScript(c, script)
    requires s.ranks[0].caller.COpening? && r < c.tp
    ensures var (p, sh) := OpenerStep(c, s, o);
            && NoProtocolError(p) && ScriptShared(script, sh)
            && ScriptRank(script, sh, r, OpenerEffect(s.sh.opener, sh.opener, r, s.ranks[r]))
  {
    hide OpenerStep, OpenerEffect, After, Memory, AckCells, History, AckCounts, SeenByProducer, Stream, ReadyShared;
    assert RankInv(c, s.poison, s.sh, r, s.ranks[r]);
    assert ScriptRank(script, s.sh, r, s.ranks[r]);
    var k := s.sh.opener;
    if !k.ONone? {
      AfterIsUnique(c, script, s.sh.active, Job(k.epoch, k.layer, k.count), Job(k.epoch, k.layer, k.count));
    }
    CheckedOpener(c, script, s, r, o);
  }

  lemma CallDisciplined(c: Config, script: seq<Job>, s: State, o: Outcome)
    requires SharedInv(c, s.sh) && Shape(c, s) && NoProtocolError(s.poison) && Calling(s.sh.producer)
    requires ScriptShared(script, s.sh) && ScriptRank(script, s.sh, 0, s.ranks[0])
    ensures var (p, sh) := CallStep(c, s, o); NoProtocolError(p) && ScriptShared(script, sh)
  {
    hide PublicationsShared, ReadyShared, ProducedShared, RunAt, RerunAt, LogShared, After, ShapeRank, CallAt, FillAt;
    var k := s.sh.producer;
    if k.PGate? { hide OpenerShared; } else if k.PScan? { hide OpenerShared; } else if k.PLayer? {} else {}
  }

  /** Once the run has begun the producer can only time out or fail. */
  lemma RunDisciplined(c: Config, s: State, o: Outcome)
    requires Shape(c, s) && NoProtocolError(s.poison) && !Calling(s.sh.producer)
    ensures var (p, sh) := ProducerStep(c, s, o); NoProtocolError(p) && !Calling(sh.producer)
  {
    hide ShapeRank, CallStep;
    if OnExpert(s.sh.producer) { hide DrainStep; } else { hide ExpertStep; }
  }

  lemma ProducerDisciplined(c: Config, script: seq<Job>, s: State, r: nat, o: Outcome)
    requires Inv(c, s) && Shape(c, s) && ScriptInv(c, script, s) && r < c.tp
    ensures var (p, sh) := ProducerStep(c, s, o);
            NoProtocolError(p) && ScriptShared(script, sh) && ScriptRank(script, sh, r, s.ranks[r])
  {
    assert ScriptRank(script, s.sh, r, s.ranks[r]) && ScriptRank(script, s.sh, 0, s.ranks[0]);
    ProducerKeepsEpoch(c, s, o);
    hide SharedInv, RankInv, ShapeRank, After, CallStep, ExpertStep, DrainStep;
    if Calling(s.sh.producer) { CallDisciplined(c, script, s, o); } else { RunDisciplined(c, s, o); }
  }

  // ---------------------------------------------------------------- actions

  lemma ConsumerActionDisciplined(c: Config, script: seq<Job>, s: State, r: nat, o: Outcome)
    requires Inv(c, s) && Shape(c, s) && ScriptInv(c, script, s) && r < c.tp
    ensures ScriptInv(c, script, Step(c, s, StepConsumer(r, o)))
  {
    assert RankInv(c, s.poison, s.sh, r, s.ranks[r]) && ScriptRank(script, s.sh, r, s.ranks[r]);
    hide SharedInv, RankInv, ShapeRank, ScriptRank, ScriptShared;
    ConsumerDisciplined(c, script, s.poison, s.sh, r, s.ranks[r], o);
    hide ConsumerStep;
  }

  lemma CallerActionDisciplined(c: Config, script: seq<Job>, s: State, r: nat, o: Outcome)
    requires Inv(c, s) && Shape(c, s) && ScriptInv(c, script, s) && ValidScript(c, script) && r < c.tp
    ensures ScriptInv(c, script, Step(c, s, StepCaller(r, o)))
  {
    var t := Step(c, s, StepCaller(r, o));
    assert RankInv(c, s.poison, s.sh, r, s.ranks[r]) && ScriptRank(script, s.sh, r, s.ranks[r]);
    if s.ranks[r].caller.COpening? { OnlyZeroOpens(c, s, r); }
    hide SharedInv, RankInv, ShapeRank, ScriptRank, ScriptShared, CallerStep, OpenerStep, OpenerEffect;
    if s.ranks[r].caller.COpening? {
      forall q {:trigger t.ranks[q]} | 0 <= q < c.tp
        ensures NoProtocolError(t.poison) && ScriptShared(script, t.sh) && ScriptRank(script, t.sh, q, t.ranks[q])
      {
        OpenerDisciplined(c, script, s, q, o);
      }
      assert t.ranks[0] == t.ranks[0];
    } else {
      CallerDisciplined(c, script, s.poison, s.sh, r, s.ranks[r], o);
    }
  }

  lemma ProducerActionDisciplined(c: Config, script: seq<Job>, s: State, o: Outcome)
    requires Inv(c, s) && Shape(c, s) && ScriptInv(c, script, s)
    ensures ScriptInv(c, script, Step(c, s, StepProducer(o)))
  {
    hide SharedInv, RankInv, ShapeRank, ProducerStep;
    var t := Step(c, s, StepProducer(o));
    forall q {:trigger t.ranks[q]} | 0 <= q < c.tp
      ensures NoProtocolError(t.poison) && ScriptShared(script, t.sh) && ScriptRank(script, t.sh, q, t.ranks[q])
    {
      ProducerDisciplined(c, script, s, q, o);
    }
    assert t.ranks[0] == t.ranks[0];
  }

  lemma StepDisciplined(c: Config, script: seq<Job>, s: State, a: Action)
    requires Inv(c, s) && Shape(c, s) && ScriptInv(c, script, s) && ValidScript(c, script)
    requires Disciplined(c, script, s, a)
    ensures ScriptInv(c, script, Step(c, s, a))
  {
    hide Inv, After, ScriptInv, ConsumerStep, CallerStep, OpenerStep, OpenerEffect, ProducerStep, DeviceStep;
    match a
    case StepConsumer(r, o) => if r < c.tp { ConsumerActionDisciplined(c, script, s, r, o); }
    case StepCaller(r, o) => if r < c.tp { CallerActionDisciplined(c, script, s, r, o); }
    case StepProducer(o) => ProducerActionDisciplined(c, script, s, o);
    case _ => OtherDisciplined(c, script, s, a);
  }

  lemma OtherDisciplined(c: Config, script: seq<Job>, s: State, a: Action)
    requires Shape(c, s) && ScriptInv(c, script, s) && Disciplined(c, script, s, a)
    requires !a.StepConsumer? && !a.StepCaller? && !a.StepProducer?
    ensures ScriptInv(c, script, Step(c, s, a))
  {
    hide ConsumerStep, CallerStep, OpenerStep, OpenerEffect, ProducerStep, After, ShapeRank;
    var t := Step(c, s, a);
    assert ScriptRank(script, s.sh, 0, s.ranks[0]);
    forall q {:trigger t.ranks[q]} | 0 <= q < c.tp ensures ScriptRank(script, t.sh, q, t.ranks[q]) {
      assert ScriptRank(script, s.sh, q, s.ranks[q]);
    }
  }

  // --------------------------------------------------------------- schedules

  /** Every call of the schedule follows the script. */
  predicate DisciplinedRun(c: Config, script: seq<Job>, s: State, schedule: seq<Action>)
    requires Shape(c, s)
    decreases |schedule|
  {
    schedule == [] ||
    (ShapeKept(c, s, schedule[0]);
     Disciplined(c, script, s, schedule[0]) && DisciplinedRun(c, script, Step(c, s, schedule[0]), schedule[1..]))
  }

  lemma {:induction false} DisciplinedFrom(c: Config, script: seq<Job>, s: State, schedule: seq<Action>)
    requires Inv(c, s) && Shape(c, s) && ScriptInv(c, script, s) && ValidScript(c, script)
    requires DisciplinedRun(c, script, s, schedule)
    ensures NoProtocolError(Run(c, s, schedule).poison)
    decreases |schedule|
  {
    hide Inv, Step, Disciplined, ScriptShared;
    if schedule != [] {
      ShapeKept(c, s, schedule[0]);
      StepKept(c, s, schedule[0]);
      StepDisciplined(c, script, s, schedule[0]);
      DisciplinedFrom(c, script, Step(c, s, schedule[0]), schedule[1..]);
    }
  }

  /** With one script for all ranks, no interleaving, failure or timeout is ever reported as a protocol error. */
  lemma NoProtocolErrors(c: Config, script: seq<Job>, schedule: seq<Action>)
    requires ValidConfig(c) && ValidScript(c, script) && DisciplinedRun(c, script, Init(c), schedule)
    ensures NoProtocolError(Run(c, Init(c), schedule).poison)
  {
    InitInv(c);
    DisciplinedFrom(c, script, Init(c), schedule);
  }
}
