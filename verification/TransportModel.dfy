/**
 The FP8 layerwise transport as a labelled transition system.

 One caller thread and one consumer thread per rank, one producer thread on
 rank zero, and one copy engine per rank all work on one shared control region.
 Every shared-cell store, every load whose value matters and every copy is a step of its
 own; a schedule is any sequence of actions, so a property of all schedules is a
 property of all interleavings.  A wait whose predicate comes out false looks at
 the poison cell and the stopping flag in the step of the load that failed:
 both only ever go up, and a wait that misses them here meets them at its gate.
 */
module TransportModel {

  const SLOTS: nat := 2
  const KINDS: nat := 4
  const U64: nat := 0x1_0000_0000_0000_0000

  newtype Byte = x: int | 0 <= x < 256

  /** The contents of one (expert, rank, kind) buffer. */
  type Block = seq<Byte>

  /** `numExperts` and the four `nbytes` are per rank: each transport gets its own. */
  datatype Config = Config(tp: nat, numExperts: seq<nat>, nbytes: seq<seq<nat>>)

  predicate ValidConfig(c: Config) {
    && c.tp >= 1
    && |c.numExperts| == c.tp && |c.nbytes| == c.tp
    && (forall r :: 0 <= r < c.tp ==> c.numExperts[r] > 0 && |c.nbytes[r]| == KINDS)
  }

  /** Bytes that one expert adds to a rank's counter: the four kinds together. */
  function ExpertBytes(c: Config, r: nat): nat
    requires ValidConfig(c) && r < c.tp
  {
    c.nbytes[r][0] + c.nbytes[r][1] + c.nbytes[r][2] + c.nbytes[r][3]
  }

  datatype Code = Protocol | TimedOut | CudaCopy | Writer | ClosedWhileActive

  /** The poison cell: 0, claimed by the publisher that won, or 1. */
  datatype Poison = Healthy | Claimed(code: Code) | Poisoned(code: Code)

  datatype Ready = Ready(sequence: nat, epoch: nat, expert: nat)

  /** What rank zero's thread does inside `join` before it stores its own join cell. */
  datatype Opener =
    | ONone
    | OActive(epoch: nat, layer: int, count: nat)
    | OScan(epoch: nat, layer: int, count: nat, k: nat)
    | OGate(epoch: nat, layer: int, count: nat)
    | OLayer(epoch: nat, layer: int, count: nat)
    | OCount(epoch: nat, layer: int, count: nat)
    | OBytes(epoch: nat, layer: int, count: nat, k: nat)
    | OActivate(epoch: nat, layer: int, count: nat)

  /** Where a rank's caller thread stands in `join`, `wait` or `close`. */
  datatype Caller =
    | CIdle
    | JWait(epoch: nat, layer: int, count: nat)
    | JGate(epoch: nat, layer: int, count: nat)
    | JLayer(epoch: nat, layer: int, count: nat)
    | JCount(epoch: nat, layer: int, count: nat)
    | JStore(epoch: nat, layer: int, count: nat)
    | COpening
    | WConsumer(epoch: nat)
    | WProducer(epoch: nat)
    | WGate(epoch: nat)
    | WLayer(epoch: nat)
    | WCount(epoch: nat, layer: int)
    | WBytes(epoch: nat, layer: int, count: nat)
    | WStore(epoch: nat, layer: int, count: nat, bytes: nat)
    | XActive
    | XDone(active: nat)
    | XPublish
    | XStop
    | XReap

  /** Where the producer stands in `run_producer`. */
  datatype Producer =
    | PIdle
    | PActive(epoch: nat, layer: int, count: nat)
    | PLayer(epoch: nat, layer: int, count: nat)
    | PCount(epoch: nat, count: nat)
    | PJoined(epoch: nat, count: nat)
    | PScan(epoch: nat, count: nat, k: nat)
    | PGate(epoch: nat, count: nat)
    | PAck(epoch: nat, count: nat, expert: nat, k: nat)
    | PAckGate(epoch: nat, count: nat, expert: nat)
    | PWrite(epoch: nat, count: nat, expert: nat)
    | PNumber(epoch: nat, count: nat, expert: nat)
    | PEpoch(epoch: nat, count: nat, expert: nat, sequence: nat)
    | PExpert(epoch: nat, count: nat, expert: nat, sequence: nat)
    | PSequence(epoch: nat, count: nat, expert: nat, sequence: nat)
    | PDrain(epoch: nat, count: nat, slot: nat, k: nat)
    | PDrainGate(epoch: nat, count: nat, slot: nat)
    | PDone(epoch: nat)
    | PCatch

  /** Where a rank's consumer thread stands in `consumer_main`. */
  datatype Consumer =
    | KTop
    | KActive
    | KJoin(epoch: nat)
    | KCount(epoch: nat)
    | KScan(epoch: nat, count: nat, expert: nat)
    | KSequence(epoch: nat, count: nat, expert: nat)
    | KEpoch(epoch: nat, count: nat, expert: nat, seen: nat)
    | KExpert(epoch: nat, count: nat, expert: nat, seen: nat)
    | KGate(epoch: nat, count: nat, expert: nat, seen: nat)
    | KIssue(epoch: nat, count: nat, expert: nat, seen: nat, kind: nat)
    | KRecord(epoch: nat, count: nat, expert: nat, seen: nat)
    | KEvent(epoch: nat, count: nat, expert: nat, seen: nat)
    | KEventGate(epoch: nat, count: nat, expert: nat, seen: nat)
    | KLast(epoch: nat, count: nat, expert: nat, seen: nat)
    | KAck(epoch: nat, count: nat, expert: nat, seen: nat)
    | KBytes(epoch: nat, count: nat)
    | KDone(epoch: nat, count: nat)
    | KCatch
    | KStopped

  /** One asynchronous host-to-device copy waiting in a rank's stream. */
  datatype Copy = Copy(slot: nat, expert: nat, kind: nat)

  datatype Publication = Publication(sequence: nat, epoch: nat, expert: nat)

  /**
   The history of the latest run that was the first for its epoch: `start` and
   `base` are the sequence counter and the slots' sequences when it began,
   `produced[x][r][k]` is what the writer left for expert x, rank r, kind k.
   */
  datatype RunLog = RunLog(epoch: nat, start: nat, base: seq<nat>, count: nat, published: nat,
                           produced: seq<seq<seq<Block>>>)

  /** The control region, the two threads that only rank zero has, and history; the poison cell is apart. */
  datatype Shared = Shared(
    active: nat,
    layerId: int,
    expertCount: nat,
    nextSequence: nat,
    producerDone: nat,
    ready: seq<Ready>,
    opener: Opener,
    producer: Producer,
    published: seq<nat>,       // published_sequence, local to run_producer
    // history
    previous: nat,             // the epoch that was active before this one
    openLayer: int,            // what rank zero activated the epoch with
    openCount: nat,
    log: RunLog,
    rerun: bool,               // a second run of an epoch already produced has begun
    publications: seq<Publication>)

  /** One rank: its control cells, its memory, its two threads and its stream. */
  datatype Rank = Rank(
    join: nat,
    consumerDone: nat,
    waitReturned: nat,
    bytes: nat,
    ack: seq<nat>,
    host: seq<seq<Block>>,     // [slot][kind]
    gpu: map<(nat, nat), Block>, // (expert, kind)
    caller: Caller,
    closed: bool,
    stopping: bool,
    consumer: Consumer,
    lastReady: seq<nat>,
    localBytes: nat,
    dma: seq<Copy>,
    // history
    joinLayer: int,            // what this rank joined its current epoch with
    joinCount: nat,
    runEpoch: nat,             // the epoch its consumer last began
    acked: nat,                // experts of that epoch acknowledged
    issued: nat,               // copies issued for the expert under way
    consumed: seq<Publication>)

  datatype State = State(poison: Poison, sh: Shared, ranks: seq<Rank>)

  /** What the environment lets a waiting or calling thread do: go on, time out, or fail. */
  datatype Outcome = Go | TimesOut | Errs

  datatype Action =
    | CallJoin(r: nat, epoch: nat, layer: int, count: nat)
    | CallWait(r: nat, epoch: nat)
    | CallClose(r: nat)
    | CallProduce(epoch: nat, layer: int, count: nat)
    | StepCaller(r: nat, outcome: Outcome)
    | StepProducer(outcome: Outcome)
    | WriterStores(r: nat, kind: nat, block: Block)
    | StepConsumer(r: nat, outcome: Outcome)
    | DeviceCopies(r: nat)
    | FinishPoison

  /** Sizes and index ranges: what keeps every step below well defined. */
  predicate Shape(c: Config, s: State) {
    && ValidConfig(c)
    && |s.ranks| == c.tp
    && ShapeShared(c, s.sh)
    && (forall r :: 0 <= r < c.tp ==> ShapeRank(s.ranks[r]))
  }

  predicate ShapeShared(c: Config, sh: Shared) {
    && |sh.ready| == SLOTS && |sh.published| == SLOTS && |sh.log.base| == SLOTS
    && (sh.opener.OScan? ==> sh.opener.k < c.tp)
    && (sh.opener.OBytes? ==> sh.opener.k < c.tp)
    && (sh.producer.PScan? ==> sh.producer.k < c.tp)
    && (sh.producer.PAck? ==> sh.producer.k < c.tp)
    && (sh.producer.PDrain? ==> sh.producer.k < c.tp && sh.producer.slot < SLOTS)
    && (sh.producer.PDrainGate? ==> sh.producer.slot < SLOTS)
  }

  predicate ShapeRank(rk: Rank) {
    && |rk.ack| == SLOTS && |rk.lastReady| == SLOTS && |rk.host| == SLOTS
    && (forall i :: 0 <= i < SLOTS ==> |rk.host[i]| == KINDS)
    && (forall i :: 0 <= i < |rk.dma| ==> rk.dma[i].slot < SLOTS && rk.dma[i].kind < KINDS)
    && (rk.consumer.KIssue? ==> rk.consumer.kind < KINDS)
  }

  function Claim(p: Poison, code: Code): Poison {
    if p.Healthy? then Claimed(code) else p
  }

  /** A wait that finds its predicate false leaves when it sees either of these. */
  predicate MustLeave(p: Poison, stopping: bool) {
    !p.Healthy? || stopping
  }

  predicate ValidCall(c: Config, r: nat, epoch: nat, layer: int, count: nat)
    requires ValidConfig(c) && r < c.tp
  {
    epoch != 0 && layer >= 0 && 0 < count <= c.numExperts[r]
  }

  // ---------------------------------------------------------------- callers

  function BeginJoin(c: Config, s: State, r: nat, epoch: nat, layer: int, count: nat): State
    requires Shape(c, s) && r < c.tp
  {
    var rk := s.ranks[r];
    if !rk.caller.CIdle? || rk.closed || !s.poison.Healthy? || !ValidCall(c, r, epoch, layer, count) then s
    else if r == 0 then
      s.(sh := s.sh.(opener := OActive(epoch, layer, count)), ranks := s.ranks[0 := rk.(caller := COpening)])
    else
      s.(ranks := s.ranks[r := rk.(caller := JWait(epoch, layer, count))])
  }

  function BeginWait(c: Config, s: State, r: nat, epoch: nat): State
    requires Shape(c, s) && r < c.tp
  {
    var rk := s.ranks[r];
    if !rk.caller.CIdle? || rk.closed || !s.poison.Healthy? then s
    else if epoch == 0 || rk.join != epoch then s.(poison := Claim(s.poison, Protocol))
    else s.(ranks := s.ranks[r := rk.(caller := WConsumer(epoch))])
  }

  function BeginClose(c: Config, s: State, r: nat): State
    requires Shape(c, s) && r < c.tp
  {
    var rk := s.ranks[r];
    if !rk.caller.CIdle? || rk.closed then s
    else s.(ranks := s.ranks[r := rk.(closed := true, caller := XActive)])
  }

  /** One step of rank zero's `join` up to the store of active_epoch. */
  function OpenerStep(c: Config, s: State, o: Outcome): (t: (Poison, Shared))
    requires Shape(c, s)
    ensures ShapeShared(c, t.1)
  {
    var p, sh := s.poison, s.sh;
    var thrown := sh.(opener := ONone);
    match sh.opener
    case ONone => (p, sh)
    case OActive(e, l, n) =>
      if e <= sh.active then (Claim(p, Protocol), thrown)
      else (p, sh.(opener := if sh.active != 0 then OScan(e, l, n, 0) else OLayer(e, l, n)))
    case OScan(e, l, n, k) =>
      if o.TimesOut? then (Claim(p, TimedOut), thrown)
      else if s.ranks[k].waitReturned >= sh.active then
        (p, sh.(opener := if k + 1 == c.tp then OGate(e, l, n) else OScan(e, l, n, k + 1)))
      else (p, if MustLeave(p, s.ranks[0].stopping) then thrown else sh.(opener := OScan(e, l, n, 0)))
    case OGate(e, l, n) => (p, if !p.Healthy? then thrown else sh.(opener := OLayer(e, l, n)))
    case OLayer(e, l, n) => (p, sh.(layerId := l, opener := OCount(e, l, n)))
    case OCount(e, l, n) => (p, sh.(expertCount := n, opener := OBytes(e, l, n, 0)))
    case OBytes(e, l, n, k) =>
      (p, sh.(opener := if k + 1 == c.tp then OActivate(e, l, n) else OBytes(e, l, n, k + 1)))
    case OActivate(e, l, n) =>
      (p, sh.(active := e, previous := sh.active, openLayer := l, openCount := n, opener := ONone))
  }

  /** What that step does to rank r: it clears one byte counter, and its end moves rank zero's caller on. */
  function OpenerEffect(was: Opener, now: Opener, r: nat, rk: Rank): (t: Rank)
    requires ShapeRank(rk)
    ensures ShapeRank(t)
  {
    if was.OBytes? && was.k == r then rk.(bytes := 0)
    else if r != 0 || was.ONone? || !now.ONone? then rk
    else if was.OActivate? then rk.(caller := JStore(was.epoch, was.layer, was.count))
    else rk.(caller := CIdle)
  }

  /** One step of `join` on any rank, on rank zero from the store of its join cell. */
  function JoinStep(p: Poison, sh: Shared, rk: Rank, o: Outcome): (t: (Poison, Rank))
    requires ShapeRank(rk)
    ensures ShapeRank(t.1)
  {
    var idle := rk.(caller := CIdle);
    match rk.caller
    case JWait(e, l, n) =>
      if o.TimesOut? then (Claim(p, TimedOut), idle)
      else if sh.active > e then (Claim(p, Protocol), idle)
      else if sh.active == e then (p, rk.(caller := JGate(e, l, n)))
      else if MustLeave(p, rk.stopping) then (p, idle)
      else (p, rk)
    case JGate(e, l, n) => if !p.Healthy? then (p, idle) else (p, rk.(caller := JLayer(e, l, n)))
    case JLayer(e, l, n) =>
      if sh.layerId != l then (Claim(p, Protocol), idle) else (p, rk.(caller := JCount(e, l, n)))
    case JCount(e, l, n) =>
      if sh.expertCount != n then (Claim(p, Protocol), idle) else (p, rk.(caller := JStore(e, l, n)))
    case JStore(e, l, n) =>
      // storing an epoch the cell already shows changes nothing
      if rk.join == e then (p, idle) else (p, idle.(join := e, joinLayer := l, joinCount := n))
    case _ => (p, rk)
  }

  function WaitStep(p: Poison, sh: Shared, rk: Rank, o: Outcome): (t: (Poison, Rank))
    requires ShapeRank(rk)
    ensures ShapeRank(t.1)
  {
    var idle := rk.(caller := CIdle);
    match rk.caller
    case WConsumer(e) =>
      if o.TimesOut? then (Claim(p, TimedOut), idle)
      else if rk.consumerDone >= e then (p, rk.(caller := WProducer(e)))
      else if MustLeave(p, rk.stopping) then (p, idle)
      else (p, rk)
    case WProducer(e) =>
      if sh.producerDone >= e then (p, rk.(caller := WGate(e)))
      else if MustLeave(p, rk.stopping) then (p, idle)
      else (p, rk.(caller := WConsumer(e)))
    case WGate(e) => if !p.Healthy? then (p, idle) else (p, rk.(caller := WLayer(e)))
    case WLayer(e) => (p, rk.(caller := WCount(e, sh.layerId)))
    case WCount(e, l) => (p, rk.(caller := WBytes(e, l, sh.expertCount)))
    case WBytes(e, l, n) => (p, rk.(caller := WStore(e, l, n, rk.bytes)))
    case WStore(e, l, n, b) => (p, idle.(waitReturned := e))
    case _ => (p, rk)
  }

  function CloseStep(p: Poison, sh: Shared, rk: Rank): (t: (Poison, Rank))
    requires ShapeRank(rk)
    ensures ShapeRank(t.1)
  {
    match rk.caller
    case XActive => (p, rk.(caller := XDone(sh.active)))
    case XDone(a) => (p, rk.(caller := if a != 0 && rk.consumerDone < a then XPublish else XStop))
    case XPublish => (Claim(p, ClosedWhileActive), rk.(caller := XStop))
    case XStop => (p, rk.(stopping := true, caller := XReap))
    case XReap => (p, if rk.consumer.KStopped? then rk.(caller := CIdle) else rk)
    case _ => (p, rk)
  }

  predicate Joining(k: Caller) { k.JGate? || k.JLayer? || k.JCount? || k.JStore? }
  predicate Waiting(k: Caller) {
    k.WConsumer? || k.WProducer? || k.WGate? || k.WLayer? || k.WCount? || k.WBytes? || k.WStore?
  }
  predicate Closing(k: Caller) { k.XActive? || k.XDone? || k.XPublish? || k.XStop? || k.XReap? }

  /** One step of a caller that only touches its own rank and the poison cell. */
  function CallerStep(p: Poison, sh: Shared, rk: Rank, o: Outcome): (t: (Poison, Rank))
    requires ShapeRank(rk)
    ensures ShapeRank(t.1)
  {
    if rk.caller.JWait? || Joining(rk.caller) then JoinStep(p, sh, rk, o)
    else if Waiting(rk.caller) then WaitStep(p, sh, rk, o)
    else CloseStep(p, sh, rk)
  }

  // --------------------------------------------------------------- producer

  function BeginProduce(c: Config, s: State, epoch: nat, layer: int, count: nat): State
    requires Shape(c, s)
  {
    if !s.sh.producer.PIdle? || s.ranks[0].closed || !s.poison.Healthy? || !ValidCall(c, 0, epoch, layer, count)
    then s
    else s.(sh := s.sh.(producer := PActive(epoch, layer, count)))
  }

  /** Where the expert loop goes when expert x comes up: wait for the slot's acks first if it was used. */
  function NextExpert(published: seq<nat>, e: nat, n: nat, x: nat): Producer
    requires |published| == SLOTS
  {
    if x >= n then NextDrain(published, e, n, 0)
    else if published[x % SLOTS] != 0 then PAck(e, n, x, 0)
    else PWrite(e, n, x)
  }

  /** The closing loop over the slots skips a slot that was never published. */
  function NextDrain(published: seq<nat>, e: nat, n: nat, slot: nat): Producer
    requires |published| == SLOTS
    decreases SLOTS - slot
  {
    if slot >= SLOTS then PDone(e)
    else if published[slot] == 0 then NextDrain(published, e, n, slot + 1)
    else PDrain(e, n, slot, 0)
  }

  /** The expert loop begins; history: a run of an epoch not produced before starts a new log, any other is a rerun. */
  function BeginRun(sh: Shared, e: nat, n: nat): Shared
    requires |sh.ready| == SLOTS
  {
    var begun := sh.(published := [0, 0], producer := NextExpert([0, 0], e, n, 0));
    if e > sh.log.epoch then
      begun.(log := RunLog(e, sh.nextSequence, [sh.ready[0].sequence, sh.ready[1].sequence], n, 0, []))
    else begun.(rerun := true)
  }

  predicate Calling(p: Producer) {
    p.PActive? || p.PLayer? || p.PCount? || p.PJoined? || p.PScan? || p.PGate?
  }
  predicate OnExpert(p: Producer) {
    p.PAck? || p.PAckGate? || p.PWrite? || p.PNumber? || p.PEpoch? || p.PExpert? || p.PSequence?
  }

  /** The checks of `run_producer` against the control cells, then the wait for every rank to join. */
  function CallStep(c: Config, s: State, o: Outcome): (t: (Poison, Shared))
    requires Shape(c, s)
    ensures ShapeShared(c, t.1)
  {
    var p, sh := s.poison, s.sh;
    var refused := (Claim(p, Protocol), sh.(producer := PIdle));
    var leave := sh.(producer := PCatch);
    match sh.producer
    case PActive(e, l, n) => if sh.active != e then refused else (p, sh.(producer := PLayer(e, l, n)))
    case PLayer(e, l, n) => if sh.layerId != l then refused else (p, sh.(producer := PCount(e, n)))
    case PCount(e, n) => if sh.expertCount != n then refused else (p, sh.(producer := PJoined(e, n)))
    case PJoined(e, n) => if s.ranks[0].join != e then refused else (p, sh.(producer := PScan(e, n, 0)))
    case PScan(e, n, k) =>
      if o.TimesOut? then (Claim(p, TimedOut), leave)
      else if s.ranks[k].join == e then
        (p, sh.(producer := if k + 1 == c.tp then PGate(e, n) else PScan(e, n, k + 1)))
      else if MustLeave(p, s.ranks[0].stopping) then (p, leave)
      else (p, sh.(producer := PScan(e, n, 0)))
    case PGate(e, n) => (p, if p.Healthy? then BeginRun(sh, e, n) else leave)
    case _ => (p, sh)
  }

  /** One expert: wait for the slot, write, take a number, fill the ready cells, publish. */
  function ExpertStep(c: Config, s: State, o: Outcome): (t: (Poison, Shared))
    requires Shape(c, s)
    ensures ShapeShared(c, t.1)
  {
    var p, sh := s.poison, s.sh;
    var leave := sh.(producer := PCatch);
    match sh.producer
    case PAck(e, n, x, k) =>
      if o.TimesOut? then (Claim(p, TimedOut), leave)
      else if s.ranks[k].ack[x % SLOTS] >= sh.published[x % SLOTS] then
        (p, sh.(producer := if k + 1 == c.tp then PAckGate(e, n, x) else PAck(e, n, x, k + 1)))
      else if MustLeave(p, s.ranks[0].stopping) then (p, leave)
      else (p, sh.(producer := PAck(e, n, x, 0)))
    case PAckGate(e, n, x) => (p, if p.Healthy? then sh.(producer := PWrite(e, n, x)) else leave)
    case PWrite(e, n, x) => (p, if o.Errs? then leave else WriterReturned(sh, HostSlots(c, s, x % SLOTS)))
    case PNumber(e, n, x) =>
      (p, sh.(nextSequence := sh.nextSequence + 1, producer := PEpoch(e, n, x, sh.nextSequence + 1)))
    case PEpoch(e, n, x, q) =>
      (p, sh.(ready := sh.ready[x % SLOTS := sh.ready[x % SLOTS].(epoch := e)], producer := PExpert(e, n, x, q)))
    case PExpert(e, n, x, q) =>
      (p, sh.(ready := sh.ready[x % SLOTS := sh.ready[x % SLOTS].(expert := x)], producer := PSequence(e, n, x, q)))
    case PSequence(e, n, x, q) => (p, Published(sh))
    case _ => (p, sh)
  }

  /** After the last expert: wait for every used slot, then announce the end. */
  function DrainStep(c: Config, s: State, o: Outcome): (t: (Poison, Shared))
    requires Shape(c, s)
    ensures ShapeShared(c, t.1)
  {
    var p, sh := s.poison, s.sh;
    var leave := sh.(producer := PCatch);
    match sh.producer
    case PDrain(e, n, slot, k) =>
      if o.TimesOut? then (Claim(p, TimedOut), leave)
      else if s.ranks[k].ack[slot] >= sh.published[slot] then
        (p, sh.(producer := if k + 1 == c.tp then PDrainGate(e, n, slot) else PDrain(e, n, slot, k + 1)))
      else if MustLeave(p, s.ranks[0].stopping) then (p, leave)
      else (p, sh.(producer := PDrain(e, n, slot, 0)))
    case PDrainGate(e, n, slot) =>
      (p, if p.Healthy? then sh.(producer := NextDrain(sh.published, e, n, slot + 1)) else leave)
    case PDone(e) => (p, sh.(producerDone := e, producer := PIdle))
    case PCatch => (Claim(p, Writer), sh.(producer := PIdle))
    case _ => (p, sh)
  }

  function ProducerStep(c: Config, s: State, o: Outcome): (t: (Poison, Shared))
    requires Shape(c, s)
    ensures ShapeShared(c, t.1)
  {
    if Calling(s.sh.producer) then CallStep(c, s, o)
    else if OnExpert(s.sh.producer) then ExpertStep(c, s, o)
    else DrainStep(c, s, o)
  }

  /** What every rank's copy of a host slot holds, rank by rank. */
  function HostSlots(c: Config, s: State, slot: nat): seq<seq<Block>>
    requires Shape(c, s) && slot < SLOTS
  {
    seq(c.tp, r requires 0 <= r < c.tp => s.ranks[r].host[slot])
  }

  function WriterReturned(sh: Shared, left: seq<seq<Block>>): Shared
    requires sh.producer.PWrite?
  {
    var PWrite(e, n, x) := sh.producer;
    sh.(producer := PNumber(e, n, x),
        log := if sh.rerun then sh.log else sh.log.(produced := sh.log.produced + [left]))
  }

  /** The store of the slot's sequence publishes the expert. */
  function Published(sh: Shared): Shared
    requires sh.producer.PSequence? && |sh.ready| == SLOTS && |sh.published| == SLOTS
  {
    var PSequence(e, n, x, q) := sh.producer;
    var published := sh.published[x % SLOTS := q];
    sh.(ready := sh.ready[x % SLOTS := sh.ready[x % SLOTS].(sequence := q)],
        published := published,
        producer := NextExpert(published, e, n, x + 1),
        log := if sh.rerun then sh.log else sh.log.(published := sh.log.published + 1),
        publications := if sh.rerun then sh.publications else sh.publications + [Publication(q, e, x)])
  }

  // --------------------------------------------------------------- consumer

  predicate Seeking(k: Consumer) { k.KTop? || k.KActive? || k.KJoin? || k.KCount? }
  predicate Polling(k: Consumer) { k.KScan? || k.KSequence? || k.KEpoch? || k.KExpert? || k.KGate? }
  predicate Copying(k: Consumer) { k.KIssue? || k.KRecord? || k.KEvent? || k.KEventGate? }

  /** The outer loop: look for an epoch this rank has joined and not finished. */
  function SeekStep(c: Config, p: Poison, sh: Shared, rk: Rank, r: nat): (t: (Poison, Rank))
    requires ValidConfig(c) && r < c.tp
    requires ShapeRank(rk)
    ensures ShapeRank(t.1)
  {
    var skip := rk.(consumer := if p.Healthy? then KTop else KCatch);
    match rk.consumer
    case KTop => (p, rk.(consumer := if rk.stopping then KStopped else KActive))
    case KActive =>
      (p, if sh.active == 0 || sh.active <= rk.consumerDone then skip else rk.(consumer := KJoin(sh.active)))
    case KJoin(e) => (p, if rk.join == e then rk.(consumer := KCount(e)) else skip)
    case KCount(e) =>
      if sh.expertCount == 0 || sh.expertCount > c.numExperts[r]
      then (Claim(p, Protocol), rk.(consumer := KCatch))
      else (p, rk.(consumer := KScan(e, sh.expertCount, 0), localBytes := 0, runEpoch := e, acked := 0))
    case _ => (p, rk)
  }

  /** The wait for the next expert's generation: three separate loads of the ready slot. */
  function PollStep(p: Poison, sh: Shared, rk: Rank, o: Outcome): (t: (Poison, Rank))
    requires |sh.ready| == SLOTS && |rk.lastReady| == SLOTS
    requires ShapeRank(rk)
    ensures ShapeRank(t.1)
  {
    match rk.consumer
    case KScan(e, n, x) =>
      if o.TimesOut? then (Claim(p, TimedOut), rk.(consumer := KCatch))
      else if sh.active > e then (Claim(p, Protocol), rk.(consumer := KCatch))
      else (p, rk.(consumer := KSequence(e, n, x)))
    case KSequence(e, n, x) =>
      var q := sh.ready[x % SLOTS].sequence;
      (p, if q == rk.lastReady[x % SLOTS] then Rescan(p, rk, e, n, x) else rk.(consumer := KEpoch(e, n, x, q)))
    case KEpoch(e, n, x, q) =>
      (p, if sh.ready[x % SLOTS].epoch != e then Rescan(p, rk, e, n, x) else rk.(consumer := KExpert(e, n, x, q)))
    case KExpert(e, n, x, q) =>
      (p, if sh.ready[x % SLOTS].expert != x then Rescan(p, rk, e, n, x) else rk.(consumer := KGate(e, n, x, q)))
    case KGate(e, n, x, q) => (p, rk.(consumer := if p.Healthy? then KIssue(e, n, x, q, 0) else KCatch))
    case _ => (p, rk)
  }

  /** `copy_expert`: four asynchronous copies, an event, and the wait for it. */
  function CopyStep(p: Poison, rk: Rank, o: Outcome): (t: (Poison, Rank))
    requires ShapeRank(rk)
    ensures ShapeRank(t.1)
  {
    var thrown := rk.(consumer := KCatch);
    match rk.consumer
    case KIssue(e, n, x, q, k) =>
      (p, if o.Errs? then thrown
          else rk.(dma := rk.dma + [Copy(x % SLOTS, x, k)], issued := k + 1,
                   consumer := if k + 1 == KINDS then KRecord(e, n, x, q) else KIssue(e, n, x, q, k + 1)))
    case KRecord(e, n, x, q) => (p, if o.Errs? then thrown else rk.(consumer := KEvent(e, n, x, q)))
    case KEvent(e, n, x, q) =>
      if o.Errs? then (p, thrown)
      else if o.TimesOut? then (Claim(p, TimedOut), thrown)
      else if rk.dma == [] then (p, rk.(consumer := KEventGate(e, n, x, q)))
      else (p, if MustLeave(p, rk.stopping) then thrown else rk)
    case KEventGate(e, n, x, q) => (p, rk.(consumer := if p.Healthy? then KLast(e, n, x, q) else KCatch))
    case _ => (p, rk)
  }

  /** After the copy: remember the sequence, acknowledge it, and after the last expert finish the epoch. */
  function FinishStep(c: Config, rk: Rank, r: nat): (t: Rank)
    requires ValidConfig(c) && r < c.tp && |rk.lastReady| == SLOTS && |rk.ack| == SLOTS
    requires ShapeRank(rk)
    ensures ShapeRank(t)
  {
    match rk.consumer
    case KLast(e, n, x, q) =>
      rk.(lastReady := rk.lastReady[x % SLOTS := q], localBytes := AddBytes(rk.localBytes, c.nbytes[r]),
          consumer := KAck(e, n, x, q))
    case KAck(e, n, x, q) =>
      rk.(ack := rk.ack[x % SLOTS := q], acked := x + 1, issued := 0,
          consumed := rk.consumed + [Publication(q, e, x)],
          consumer := if x + 1 < n then KScan(e, n, x + 1) else KBytes(e, n))
    case KBytes(e, n) => rk.(bytes := rk.localBytes, consumer := KDone(e, n))
    case KDone(e, n) => rk.(consumerDone := e, consumer := KTop)
    case _ => rk
  }

  /** The catch clauses: a consumer that is not being closed publishes the error. */
  function CatchStep(p: Poison, rk: Rank): (t: (Poison, Rank))
    requires ShapeRank(rk)
    ensures ShapeRank(t.1)
  {
    if rk.consumer.KCatch? then (if rk.stopping then p else Claim(p, CudaCopy), rk.(consumer := KStopped))
    else (p, rk)
  }

  function ConsumerStep(c: Config, p: Poison, sh: Shared, rk: Rank, r: nat, o: Outcome): (t: (Poison, Rank))
    requires ValidConfig(c) && r < c.tp && ShapeShared(c, sh) && ShapeRank(rk)
    ensures ShapeRank(t.1)
  {
    var k := rk.consumer;
    if Seeking(k) then SeekStep(c, p, sh, rk, r)
    else if Polling(k) then PollStep(p, sh, rk, o)
    else if Copying(k) then CopyStep(p, rk, o)
    else if k.KCatch? || k.KStopped? then CatchStep(p, rk)
    else (p, FinishStep(c, rk, r))
  }

  /** The generation predicate was false: leave if told to, otherwise look again. */
  function Rescan(p: Poison, rk: Rank, e: nat, n: nat, x: nat): Rank
  {
    rk.(consumer := if MustLeave(p, rk.stopping) then KCatch else KScan(e, n, x))
  }

  /** Four 64-bit additions, one per kind. */
  function AddBytes(total: nat, nbytes: seq<nat>): nat
    requires |nbytes| == KINDS
  {
    ((((total + nbytes[0]) % U64 + nbytes[1]) % U64 + nbytes[2]) % U64 + nbytes[3]) % U64
  }

  /** The copy engine performs the oldest copy of the stream, reading the host slot now. */
  function DeviceStep(rk: Rank): (t: Rank)
    requires ShapeRank(rk)
    ensures ShapeRank(t)
  {
    if rk.dma == [] then rk
    else
      var cp := rk.dma[0];
      rk.(dma := rk.dma[1..], gpu := rk.gpu[(cp.expert, cp.kind) := rk.host[cp.slot][cp.kind]])
  }

  // ------------------------------------------------------------------ steps

  function Step(c: Config, s: State, a: Action): State
    requires Shape(c, s)
  {
    match a
    case CallJoin(r, e, l, n) => if r < c.tp then BeginJoin(c, s, r, e, l, n) else s
    case CallWait(r, e) => if r < c.tp then BeginWait(c, s, r, e) else s
    case CallClose(r) => if r < c.tp then BeginClose(c, s, r) else s
    case CallProduce(e, l, n) => BeginProduce(c, s, e, l, n)
    case StepCaller(r, o) =>
      if r >= c.tp then s
      else if s.ranks[r].caller.COpening? then
        var (p, sh) := OpenerStep(c, s, o);
        State(p, sh, seq(c.tp, q requires 0 <= q < c.tp => OpenerEffect(s.sh.opener, sh.opener, q, s.ranks[q])))
      else
        var (p, rk) := CallerStep(s.poison, s.sh, s.ranks[r], o);
        s.(poison := p, ranks := s.ranks[r := rk])
    case StepProducer(o) =>
      var (p, sh) := ProducerStep(c, s, o);
      s.(poison := p, sh := sh)
    case WriterStores(r, kind, block) =>
      if r < c.tp && kind < KINDS && s.sh.producer.PWrite?
      then s.(ranks := s.ranks[r := Written(s.ranks[r], s.sh.producer.expert % SLOTS, kind, block)])
      else s
    case StepConsumer(r, o) =>
      if r >= c.tp then s
      else
        var (p, rk) := ConsumerStep(c, s.poison, s.sh, s.ranks[r], r, o);
        s.(poison := p, ranks := s.ranks[r := rk])
    case DeviceCopies(r) => if r < c.tp then s.(ranks := s.ranks[r := DeviceStep(s.ranks[r])]) else s
    case FinishPoison =>
      if s.poison.Claimed? then s.(poison := Poisoned(s.poison.code)) else s
  }

  /** The writer stores one kind's buffer through the pointer it was given. */
  function Written(rk: Rank, slot: nat, kind: nat, block: Block): Rank
    requires ShapeRank(rk) && slot < SLOTS && kind < KINDS
  {
    rk.(host := rk.host[slot := rk.host[slot][kind := block]])
  }

  /** Sizes and indices stay in range whatever happens. */
  lemma ShapeKept(c: Config, s: State, a: Action)
    requires Shape(c, s)
    ensures Shape(c, Step(c, s, a))
  {
    hide ConsumerStep, CallerStep, OpenerStep, ProducerStep, OpenerEffect, DeviceStep;
  }

  /** The state after a schedule. */
  function Run(c: Config, s: State, schedule: seq<Action>): (t: State)
    requires Shape(c, s)
    ensures Shape(c, t)
    decreases |schedule|
  {
    if schedule == [] then s
    else
      ShapeKept(c, s, schedule[0]);
      Run(c, Step(c, s, schedule[0]), schedule[1..])
  }

  const FRESH_RUN := RunLog(0, 0, [0, 0], 0, 0, [])

  const FRESH_SHARED := Shared(0, 0, 0, 0, 0, [Ready(0, 0, 0), Ready(0, 0, 0)], ONone, PIdle, [0, 0],
                              0, 0, 0, FRESH_RUN, false, [])

  const FRESH_RANK := Rank(0, 0, 0, 0, [0, 0], [[[], [], [], []], [[], [], [], []]], map[], CIdle, false, false,
                          KTop, [0, 0], 0, [], 0, 0, 0, 0, 0, [])

  /** The control region as `initialize_fp8_layerwise_control` leaves it, all transports built. */
  function Init(c: Config): (s: State)
    requires ValidConfig(c)
    ensures Shape(c, s)
  {
    State(Healthy, FRESH_SHARED, seq(c.tp, _ => FRESH_RANK))
  }
}
