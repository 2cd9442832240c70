/** One rank, one expert: a run from start to end, step by step, and a second call after it. */
module TransportWitness {
  import opened TransportModel
  import opened TransportTheorems
  import opened TransportRerun

  const ONE := Config(1, [1], [[1, 1, 1, 1]])

  function OneRank(sh: Shared, rk: Rank): State { State(Healthy, sh, [rk]) }

  ghost predicate Seen(sh: Shared, rk: Rank) {
    Reachable(ONE, OneRank(sh, rk)) && Shape(ONE, OneRank(sh, rk))
  }

  lemma Then(s: State, a: Action, t: State)
    requires Reachable(ONE, s) && Shape(ONE, s) && Step(ONE, s, a) == t
    ensures Reachable(ONE, t) && Shape(ONE, t)
  {
    StaysReachable(ONE, s, a);
    ReachableShape(ONE, t);
  }

  const ACTIVATED := FRESH_SHARED.(active := 1, openCount := 1, expertCount := 1)

  const JOINED := FRESH_RANK.(join := 1, joinCount := 1)

  const OPENING := FRESH_RANK.(caller := COpening)

  /** `join` is called on rank zero. */
  lemma JoinCalled()
    ensures var sh := FRESH_SHARED.(opener := OActive(1, 0, 1)); Seen(sh, OPENING)
  {
    var s := OneRank(FRESH_SHARED, FRESH_RANK);
    assert Init(ONE) == s;
    assert s == Run(ONE, Init(ONE), []);
    Then(s, CallJoin(0, 1, 0, 1), OneRank(FRESH_SHARED.(opener := OActive(1, 0, 1)), OPENING));
  }

  /** Rank zero opens epoch 1 and joins it. */
  lemma Opened()
    ensures Seen(ACTIVATED, JOINED)
  {
    hide Reachable;
    JoinCalled();
    var sh, k := FRESH_SHARED, OPENING;
    OpenerTakes(sh.(opener := OActive(1, 0, 1)), sh.(opener := OLayer(1, 0, 1)), k, k);
    OpenerTakes(sh.(opener := OLayer(1, 0, 1)), sh.(opener := OCount(1, 0, 1)), k, k);
    var counted := sh.(expertCount := 1);
    OpenerTakes(sh.(opener := OCount(1, 0, 1)), counted.(opener := OBytes(1, 0, 1, 0)), k, k);
    OpenerTakes(counted.(opener := OBytes(1, 0, 1, 0)), counted.(opener := OActivate(1, 0, 1)), k, k);
    var joining := FRESH_RANK.(caller := JStore(1, 0, 1));
    OpenerTakes(counted.(opener := OActivate(1, 0, 1)), ACTIVATED, k, joining);
    JoinStored(joining);
  }

  lemma JoinStored(joining: Rank)
    requires joining == FRESH_RANK.(caller := JStore(1, 0, 1))
    requires Seen(ACTIVATED, joining)
    ensures Seen(ACTIVATED, JOINED)
  {
    hide Reachable;
    assert [joining][0 := JOINED] == [JOINED];
    Then(OneRank(ACTIVATED, joining), StepCaller(0, Go), OneRank(ACTIVATED, JOINED));
  }

  /** One step of the opener. */
  lemma OpenerTakes(sh: Shared, sh': Shared, rk: Rank, rk': Rank)
    requires Seen(sh, rk) && ShapeRank(rk) && rk.caller.COpening?
    requires OpenerStep(ONE, OneRank(sh, rk), Go) == (Healthy, sh') && OpenerEffect(sh.opener, sh'.opener, 0, rk) == rk'
    ensures Seen(sh', rk')
  {
    hide Reachable, OpenerStep, OpenerEffect;
    assert Step(ONE, OneRank(sh, rk), StepCaller(0, Go)).ranks == [rk'];
    Then(OneRank(sh, rk), StepCaller(0, Go), OneRank(sh', rk'));
  }

  /** One step of the producer. */
  lemma ProducerTakes(sh: Shared, sh': Shared, rk: Rank)
    requires Seen(sh, rk) && ProducerStep(ONE, OneRank(sh, rk), Go) == (Healthy, sh')
    ensures Seen(sh', rk)
  {
    hide Reachable, ProducerStep;
    Then(OneRank(sh, rk), StepProducer(Go), OneRank(sh', rk));
  }

  /** One step of the consumer. */
  lemma ConsumerTakes(sh: Shared, rk: Rank, rk': Rank)
    requires Seen(sh, rk) && ShapeRank(rk)
    requires ConsumerStep(ONE, Healthy, sh, rk, 0, Go) == (Healthy, rk')
    ensures Seen(sh, rk')
  {
    hide Reachable, ConsumerStep;
    assert [rk][0 := rk'] == [rk'];
    Then(OneRank(sh, rk), StepConsumer(0, Go), OneRank(sh, rk'));
  }

  /** What the writer leaves in this run: nothing was stored. */
  const BLANK: seq<Block> := [[], [], [], []]

  const PUBLISHED := ACTIVATED.(
    nextSequence := 1,
    ready := [Ready(1, 1, 0), Ready(0, 0, 0)],
    producer := PDrain(1, 1, 0, 0),
    published := [1, 0],
    log := RunLog(1, 0, [0, 0], 1, 1, [[BLANK]]),
    publications := [Publication(1, 1, 0)])

  /** The producer passes its checks and the gate. */
  lemma Called()
    ensures var sh := ACTIVATED.(producer := PWrite(1, 1, 0), log := RunLog(1, 0, [0, 0], 1, 0, []));
            Seen(sh, JOINED)
  {
    hide Reachable;
    Opened();
    var sh := ACTIVATED;
    Then(OneRank(sh, JOINED), CallProduce(1, 0, 1), OneRank(sh.(producer := PActive(1, 0, 1)), JOINED));
    ProducerTakes(sh.(producer := PActive(1, 0, 1)), sh.(producer := PLayer(1, 0, 1)), JOINED);
    ProducerTakes(sh.(producer := PLayer(1, 0, 1)), sh.(producer := PCount(1, 1)), JOINED);
    ProducerTakes(sh.(producer := PCount(1, 1)), sh.(producer := PJoined(1, 1)), JOINED);
    ProducerTakes(sh.(producer := PJoined(1, 1)), sh.(producer := PScan(1, 1, 0)), JOINED);
    ProducerTakes(sh.(producer := PScan(1, 1, 0)), sh.(producer := PGate(1, 1)), JOINED);
    var begun := sh.(producer := PWrite(1, 1, 0), log := RunLog(1, 0, [0, 0], 1, 0, []));
    ProducerTakes(sh.(producer := PGate(1, 1)), begun, JOINED);
  }

  const PRODUCED := ACTIVATED.(log := RunLog(1, 0, [0, 0], 1, 0, [[BLANK]]))

  /** The writer returns for the one expert. */
  lemma WriterReturns()
    ensures var sh := PRODUCED.(producer := PNumber(1, 1, 0)); Seen(sh, JOINED)
  {
    hide Reachable;
    Called();
    var sh := ACTIVATED.(producer := PWrite(1, 1, 0), log := RunLog(1, 0, [0, 0], 1, 0, []));
    assert HostSlots(ONE, OneRank(sh, JOINED), 0) == [BLANK];
    assert sh.log.produced + [[BLANK]] == PRODUCED.log.produced;
    ProducerTakes(sh, PRODUCED.(producer := PNumber(1, 1, 0)), JOINED);
  }

  const NUMBERED := PRODUCED.(nextSequence := 1)

  /** It is numbered and published. */
  lemma ExpertPublished()
    ensures Seen(PUBLISHED, JOINED)
  {
    hide Reachable;
    WriterReturns();
    var sh := NUMBERED;
    ProducerTakes(PRODUCED.(producer := PNumber(1, 1, 0)), sh.(producer := PEpoch(1, 1, 0, 1)), JOINED);
    var filled := sh.(ready := [Ready(0, 1, 0), Ready(0, 0, 0)]);
    assert sh.ready[0 := Ready(0, 1, 0)] == filled.ready;
    ProducerTakes(sh.(producer := PEpoch(1, 1, 0, 1)), filled.(producer := PExpert(1, 1, 0, 1)), JOINED);
    assert filled.ready[0 := Ready(0, 1, 0)] == filled.ready;
    ProducerTakes(filled.(producer := PExpert(1, 1, 0, 1)), filled.(producer := PSequence(1, 1, 0, 1)), JOINED);
    SequenceStored(filled);
  }

  lemma SequenceStored(filled: Shared)
    requires filled == NUMBERED.(ready := [Ready(0, 1, 0), Ready(0, 0, 0)])
    requires var sh := filled.(producer := PSequence(1, 1, 0, 1)); Seen(sh, JOINED)
    ensures Seen(PUBLISHED, JOINED)
  {
    hide Reachable;
    assert filled.ready[0 := Ready(1, 1, 0)] == PUBLISHED.ready && filled.published[0 := 1] == PUBLISHED.published;
    assert filled.publications + [Publication(1, 1, 0)] == PUBLISHED.publications;
    ProducerTakes(filled.(producer := PSequence(1, 1, 0, 1)), PUBLISHED, JOINED);
  }

  const BEGUN := JOINED.(runEpoch := 1)

  /** The consumer finds the epoch and the publication. */
  lemma PublicationAccepted()
    ensures var rk := BEGUN.(consumer := KIssue(1, 1, 0, 1, 0));
            Seen(PUBLISHED, rk)
  {
    hide Reachable;
    ExpertPublished();
    var sh, rk := PUBLISHED, JOINED;
    ConsumerTakes(sh, rk, rk.(consumer := KActive));
    ConsumerTakes(sh, rk.(consumer := KActive), rk.(consumer := KJoin(1)));
    ConsumerTakes(sh, rk.(consumer := KJoin(1)), rk.(consumer := KCount(1)));
    ConsumerTakes(sh, rk.(consumer := KCount(1)), BEGUN.(consumer := KScan(1, 1, 0)));
    ConsumerTakes(sh, BEGUN.(consumer := KScan(1, 1, 0)), BEGUN.(consumer := KSequence(1, 1, 0)));
    ConsumerTakes(sh, BEGUN.(consumer := KSequence(1, 1, 0)), BEGUN.(consumer := KEpoch(1, 1, 0, 1)));
    ConsumerTakes(sh, BEGUN.(consumer := KEpoch(1, 1, 0, 1)), BEGUN.(consumer := KExpert(1, 1, 0, 1)));
    ConsumerTakes(sh, BEGUN.(consumer := KExpert(1, 1, 0, 1)), BEGUN.(consumer := KGate(1, 1, 0, 1)));
    ConsumerTakes(sh, BEGUN.(consumer := KGate(1, 1, 0, 1)), BEGUN.(consumer := KIssue(1, 1, 0, 1, 0)));
  }

  /** The first k kinds on the GPU. */
  function Shown(k: nat): map<(nat, nat), Block> { map y: nat | y < k :: (0, y) := [] }

  function Copied(k: nat): Rank {
    BEGUN.(issued := k, gpu := Shown(k), consumer := if k < KINDS then KIssue(1, 1, 0, 1, k) else KRecord(1, 1, 0, 1))
  }

  function Issued(k: nat): Rank
    requires k < KINDS
  {
    Copied(k + 1).(gpu := Shown(k), dma := [Copy(0, 0, k)])
  }

  lemma OneIssued(k: nat)
    requires k < KINDS && Seen(PUBLISHED, Copied(k))
    ensures Seen(PUBLISHED, Issued(k))
  {
    hide Reachable, Shown;
    assert Copied(k).dma + [Copy(0, 0, k)] == [Copy(0, 0, k)];
    ConsumerTakes(PUBLISHED, Copied(k), Issued(k));
  }

  lemma OneMoved(k: nat)
    requires k < KINDS && ShapeRank(Issued(k))
    ensures DeviceStep(Issued(k)) == Copied(k + 1)
  {
    assert Shown(k)[(0, k) := []] == Shown(k + 1);
    assert Issued(k).dma[1..] == [];
  }

  /** One kind is issued and copied. */
  lemma OneCopy(k: nat)
    requires k < KINDS && Seen(PUBLISHED, Copied(k))
    ensures Seen(PUBLISHED, Copied(k + 1))
  {
    OneIssued(k);
    hide Reachable, DeviceStep;
    assert OneRank(PUBLISHED, Issued(k)).ranks[0] == Issued(k);
    OneMoved(k);
    hide Issued, Copied;
    assert [Issued(k)][0 := Copied(k + 1)] == [Copied(k + 1)];
    Then(OneRank(PUBLISHED, Issued(k)), DeviceCopies(0), OneRank(PUBLISHED, Copied(k + 1)));
  }

  const ENDED := BEGUN.(
    consumerDone := 1, bytes := 4, localBytes := 4, ack := [1, 0], lastReady := [1, 0], gpu := Shown(4),
    acked := 1, consumed := [Publication(1, 1, 0)])

  /** The consumer acknowledges and ends the epoch. */
  lemma Acknowledged()
    ensures Seen(PUBLISHED, ENDED)
  {
    hide Reachable;
    PublicationAccepted();
    assert Copied(0) == BEGUN.(consumer := KIssue(1, 1, 0, 1, 0));
    OneCopy(0); OneCopy(1); OneCopy(2); OneCopy(3);
    var rk := Copied(4);
    ConsumerTakes(PUBLISHED, rk, rk.(consumer := KEvent(1, 1, 0, 1)));
    ConsumerTakes(PUBLISHED, rk.(consumer := KEvent(1, 1, 0, 1)), rk.(consumer := KEventGate(1, 1, 0, 1)));
    ConsumerTakes(PUBLISHED, rk.(consumer := KEventGate(1, 1, 0, 1)), rk.(consumer := KLast(1, 1, 0, 1)));
    SlotAcknowledged();
  }

  const LAST := Copied(4).(lastReady := [1, 0], localBytes := 4)

  lemma SlotRemembered()
    ensures var rk := Copied(4).(consumer := KLast(1, 1, 0, 1));
      && ShapeRank(rk)
      && ConsumerStep(ONE, Healthy, PUBLISHED, rk, 0, Go) == (Healthy, LAST.(consumer := KAck(1, 1, 0, 1)))
  {
    hide Shown;
    assert Copied(4).lastReady[0 := 1] == [1, 0];
  }

  lemma SlotAcknowledged()
    requires var rk := Copied(4).(consumer := KLast(1, 1, 0, 1));
             Seen(PUBLISHED, rk)
    ensures Seen(PUBLISHED, ENDED)
  {
    SlotRemembered();
    hide Reachable, Shown, ConsumerStep, ShapeShared, Copied;
    ConsumerTakes(PUBLISHED, Copied(4).(consumer := KLast(1, 1, 0, 1)), LAST.(consumer := KAck(1, 1, 0, 1)));
    AckStored();
  }

  lemma AckStored()
    requires var rk := LAST.(consumer := KAck(1, 1, 0, 1)); Seen(PUBLISHED, rk)
    ensures Seen(PUBLISHED, ENDED)
  {
    hide Reachable, Shown;
    var acked := LAST.(ack := [1, 0], acked := 1, issued := 0, consumed := [Publication(1, 1, 0)]);
    assert LAST.ack[0 := 1] == [1, 0] && LAST.consumed + [Publication(1, 1, 0)] == acked.consumed;
    ConsumerTakes(PUBLISHED, LAST.(consumer := KAck(1, 1, 0, 1)), acked.(consumer := KBytes(1, 1)));
    EpochEnded(acked);
  }

  lemma EpochEnded(acked: Rank)
    requires acked == LAST.(ack := [1, 0], acked := 1, issued := 0, consumed := [Publication(1, 1, 0)])
    requires var rk := acked.(consumer := KBytes(1, 1)); Seen(PUBLISHED, rk)
    ensures Seen(PUBLISHED, ENDED)
  {
    hide Reachable, Shown;
    ConsumerTakes(PUBLISHED, acked.(consumer := KBytes(1, 1)), acked.(bytes := 4, consumer := KDone(1, 1)));
    ConsumerTakes(PUBLISHED, acked.(bytes := 4, consumer := KDone(1, 1)), ENDED);
  }

  const FINISHED := PUBLISHED.(producer := PIdle, producerDone := 1)

  /** The producer drains and announces the end. */
  lemma Announced()
    ensures Reachable(ONE, OneRank(FINISHED, ENDED)) && Rested(ONE, OneRank(FINISHED, ENDED))
  {
    hide Reachable;
    Acknowledged();
    ProducerTakes(PUBLISHED, PUBLISHED.(producer := PDrainGate(1, 1, 0)), ENDED);
    ProducerTakes(PUBLISHED.(producer := PDrainGate(1, 1, 0)), PUBLISHED.(producer := PDone(1)), ENDED);
    ProducerTakes(PUBLISHED.(producer := PDone(1)), FINISHED, ENDED);
  }

  /** A healthy transport can be in a repeated run. */
  lemma RerunHappens()
    ensures exists t :: Reachable(ONE, t) && t.sh.rerun && t.poison.Healthy? && t.ranks == [ENDED]
  {
    Announced();
    SecondCallReruns(ONE, OneRank(FINISHED, ENDED));
  }
}
