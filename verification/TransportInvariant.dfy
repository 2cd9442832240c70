/**
 What every reachable state of the transport satisfies, one predicate per concern.
 Each is local: it speaks of the shared part and of a single rank.
 */
module TransportInvariant {
  import opened TransportModel

  /** The sequence a slot shows once the first n experts of a run went through it. */
  function SlotSequence(log: RunLog, n: nat, i: nat): nat
    requires |log.base| == SLOTS && i < SLOTS
  {
    if n >= 1 && (n - 1) % SLOTS == i then log.start + n
    else if n >= 2 then log.start + n - 1
    else log.base[i]
  }

  /** Experts of the logged run that a rank has acknowledged. */
  function Acked(log: RunLog, runEpoch: nat, acked: nat): nat {
    if runEpoch < log.epoch then 0
    else if runEpoch == log.epoch then acked
    else log.count
  }

  /** The byte counter after n experts: n times the four 64-bit additions. */
  function TotalBytes(nbytes: seq<nat>, n: nat): nat
    requires |nbytes| == KINDS
  {
    if n == 0 then 0 else AddBytes(TotalBytes(nbytes, n - 1), nbytes)
  }

  /** Both cells show the sequences of a run whose first n experts went through. */
  predicate Shows(cells: seq<nat>, log: RunLog, n: nat)
    requires |cells| == SLOTS && |log.base| == SLOTS
  {
    cells[0] == SlotSequence(log, n, 0) && cells[1] == SlotSequence(log, n, 1)
  }

  // ----------------------------------------------------------- shared part

  /** Rank zero is past its wait for all ranks and not yet done activating. */
  predicate Storing(o: Opener) {
    o.OGate? || o.OLayer? || o.OCount? || o.OBytes? || o.OActivate?
  }

  predicate LayerRewritten(o: Opener) { o.OCount? || o.OBytes? || o.OActivate? }
  predicate CountRewritten(o: Opener) { o.OBytes? || o.OActivate? }

  predicate EpochsShared(previous: nat, active: nat, logEpoch: nat, producerDone: nat, storing: bool) {
    && (active == 0 || previous < active)
    && (active == 0 ==> previous == 0)
    && (logEpoch == previous || logEpoch == active)
    && (producerDone == previous || producerDone == active)
    && producerDone <= logEpoch
    && (logEpoch < active ==> producerDone == logEpoch)
    && (storing ==> producerDone == active)
  }

  /** The two argument cells show what the epoch was opened with, until rank zero overwrites them. */
  predicate OpenerShared(c: Config, o: Opener, active: nat, openLayer: int, openCount: nat, layerId: int,
                         expertCount: nat)
    requires ValidConfig(c)
  {
    && (active > 0 ==> openCount > 0)
    && layerId == (if LayerRewritten(o) then o.layer else openLayer)
    && expertCount == (if CountRewritten(o) then o.count else openCount)
    && (!o.ONone? ==> o.epoch > 0 && 0 < o.count <= c.numExperts[0])
    && (!o.ONone? && !o.OActive? ==> o.epoch > active)
  }

  predicate InRun(p: Producer) {
    p.PAck? || p.PAckGate? || p.PWrite? || p.PNumber? || p.PEpoch? || p.PExpert? || p.PSequence?
    || p.PDrain? || p.PDrainGate? || p.PDone?
  }

  /** The writer has returned for the expert under way but it is not yet published. */
  predicate WriterDone(p: Producer) { p.PNumber? || p.PEpoch? || p.PExpert? || p.PSequence? }

  predicate Numbered(p: Producer) { p.PEpoch? || p.PExpert? || p.PSequence? }

  predicate LogShared(log: RunLog, active: nat, openCount: nat, producerDone: nat, nextSequence: nat, rerun: bool)
    requires |log.base| == SLOTS
  {
    && log.base[0] <= log.start && log.base[1] <= log.start
    && log.published <= log.count
    && (producerDone == log.epoch ==> log.published == log.count)
    && (log.epoch == active ==> log.count == openCount)
    && log.start + log.published <= nextSequence
    && (rerun ==> producerDone == log.epoch)
  }

  /** The writer's products: one more than the publications exactly while one is being published. */
  predicate ProducedShared(c: Config, produced: seq<seq<seq<Block>>>, published: nat, done: bool, p: Producer,
                           rerun: bool) {
    && published <= |produced| <= published + 1
    && (!rerun && WriterDone(p) ==> |produced| == published + 1)
    && (!rerun && InRun(p) && !WriterDone(p) ==> |produced| == published)
    && (done ==> |produced| == published)
    && (forall x :: 0 <= x < |produced| ==> |produced[x]| == c.tp)
  }

  predicate ReadyShared(ready: seq<Ready>, log: RunLog, p: Producer, rerun: bool)
    requires |ready| == SLOTS && |log.base| == SLOTS
  {
    && ready[0].epoch <= log.epoch && ready[1].epoch <= log.epoch
    && (!rerun ==> ReadySlot(ready[0], log, p, 0) && ReadySlot(ready[1], log, p, 1))
  }

  /** Slot i shows the latest publication of its parity, untouched until the ids of the next one go in. */
  predicate ReadySlot(cell: Ready, log: RunLog, p: Producer, i: nat)
    requires i < SLOTS && |log.base| == SLOTS
  {
    var n := log.published;
    && cell.sequence == SlotSequence(log, n, i)
    && (n > i ==> cell.epoch == log.epoch)
    && (n > i && !(p.PSequence? && p.expert % SLOTS == i) ==> cell.expert == LatestIn(n, i))
  }

  /** The last expert below n that uses slot i. */
  function LatestIn(n: nat, i: nat): nat
    requires i < n && i < SLOTS
  {
    if (n - 1) % SLOTS == i then n - 1 else n - 2
  }

  /** An epoch the producer was called with: the active one, or one that was produced already. */
  predicate Callable(active: nat, logEpoch: nat, e: nat) {
    0 < e <= active && (e < active ==> e <= logEpoch)
  }

  predicate CallAt(p: Producer, active: nat, openCount: nat, logEpoch: nat) {
    && (Calling(p) ==> p.count > 0 && p.epoch > 0)
    && (Calling(p) && !p.PActive? ==> Callable(active, logEpoch, p.epoch))
    && (p.PJoined? || p.PScan? || p.PGate? ==> p.epoch > logEpoch ==> p.count == openCount)
  }

  /** Off the run, either the last run was finished or the ranks were told. */
  predicate ProducerTold(p: Poison, producer: Producer, done: bool, rerun: bool) {
    !InRun(producer) && !producer.PCatch? && p.Healthy? ==> !rerun && done
  }

  /** The first run of an epoch. */
  predicate RunAt(p: Producer, log: RunLog, active: nat, producerDone: nat, published: seq<nat>, nextSequence: nat)
    requires |published| == SLOTS && |log.base| == SLOTS
  {
    InRun(p) ==>
      && p.epoch == log.epoch == active && producerDone < log.epoch && log.count > 0
      && published[0] == (if 0 < log.published then SlotSequence(log, log.published, 0) else 0)
      && published[1] == (if 1 < log.published then SlotSequence(log, log.published, 1) else 0)
      && (OnExpert(p) ==> p.count == log.count && p.expert == log.published < p.count)
      && (OnExpert(p) && !Numbered(p) ==> nextSequence == log.start + p.expert)
      && (Numbered(p) ==> p.sequence == nextSequence == log.start + p.expert + 1)
      && (p.PDrain? || p.PDrainGate? ==> p.slot < p.count == log.count == log.published)
      && (p.PAck? || p.PAckGate? ==> p.expert >= SLOTS)
      && (p.PDone? ==> log.count == log.published)
  }

  /** A later run of the same epoch: nobody consumes, so it never gets past its first ack. */
  predicate RerunAt(p: Producer, log: RunLog, published: seq<nat>)
    requires |published| == SLOTS
  {
    var top := log.start + log.count;
    InRun(p) ==>
      && p.epoch <= log.epoch
      && !p.PAckGate? && !p.PDrainGate? && !p.PDone?
      && p.count > 0
      && (OnExpert(p) ==> p.expert < p.count)
      && (OnExpert(p) ==>
            && (if 0 < p.expert then published[0] > top else published[0] == 0)
            && (if 1 < p.expert then published[1] > top else published[1] == 0))
      && (Numbered(p) ==> p.sequence > top)
      && (p.PAck? ==> p.k == 0 && published[p.expert % SLOTS] > top)
      && (p.PDrain? ==> p.k == 0 && p.slot < SLOTS && published[p.slot] > top)
  }

  /** The run's publications are the newest ones, and sequences only grow. */
  predicate PublicationsShared(start: nat, epoch: nat, published: nat, pubs: seq<Publication>) {
    && published <= |pubs|
    && (forall j :: |pubs| - published <= j < |pubs| ==>
          var x := j - (|pubs| - published);
          pubs[j] == Publication(start + x + 1, epoch, x))
    && (forall j :: 0 <= j < |pubs| ==> pubs[j].sequence <= start + published)
    && (forall i, j :: 0 <= i < j < |pubs| ==> pubs[i].sequence < pubs[j].sequence)
  }

  /** The ids go into the ready slot before its sequence does. */
  predicate FillAt(p: Producer, ready: seq<Ready>)
    requires |ready| == SLOTS
  {
    && (p.PExpert? || p.PSequence? ==> ready[p.expert % SLOTS].epoch == p.epoch)
    && (p.PSequence? ==> ready[p.expert % SLOTS].expert == p.expert)
  }

  predicate SharedInv(c: Config, sh: Shared) {
    && ValidConfig(c) && ShapeShared(c, sh)
    && EpochsShared(sh.previous, sh.active, sh.log.epoch, sh.producerDone, Storing(sh.opener))
    && OpenerShared(c, sh.opener, sh.active, sh.openLayer, sh.openCount, sh.layerId, sh.expertCount)
    && LogShared(sh.log, sh.active, sh.openCount, sh.producerDone, sh.nextSequence, sh.rerun)
    && ProducedShared(c, sh.log.produced, sh.log.published, sh.producerDone == sh.log.epoch, sh.producer, sh.rerun)
    && ReadyShared(sh.ready, sh.log, sh.producer, sh.rerun)
    && CallAt(sh.producer, sh.active, sh.openCount, sh.log.epoch)
    && (if sh.rerun then RerunAt(sh.producer, sh.log, sh.published)
        else RunAt(sh.producer, sh.log, sh.active, sh.producerDone, sh.published, sh.nextSequence))
    && FillAt(sh.producer, sh.ready)
    && PublicationsShared(sh.log.start, sh.log.epoch, sh.log.published, sh.publications)
  }

  // --------------------------------------------------------------- one rank
  // Each predicate takes just the fields it depends on.

  /** Lockstep: no cell of a rank is more than one epoch behind, and they are ordered. */
  predicate Lockstep(previous: nat, active: nat, producerDone: nat, join: nat, consumerDone: nat, waitReturned: nat) {
    && (join == previous || join == active)
    && (consumerDone == previous || consumerDone == active)
    && (waitReturned == previous || waitReturned == active)
    && waitReturned <= consumerDone <= join
    && waitReturned <= producerDone
  }

  /** What rank zero has seen while it waits for the previous epoch to end. */
  predicate SeenByOpener(o: Opener, active: nat, r: nat, waitReturned: nat) {
    && (o.OScan? && r < o.k ==> waitReturned == active)
    && (Storing(o) ==> waitReturned == active)
  }

  /** A run starts only after every rank joined, and none can leave the epoch before it ends. */
  predicate SeenByScan(p: Producer, active: nat, logEpoch: nat, r: nat, join: nat) {
    && (logEpoch == active ==> join == active)
    && (p.PScan? && r < p.k && p.epoch == active ==> join == active)
    && (p.PGate? && p.epoch == active ==> join == active)
  }

  predicate ValidCount(c: Config, r: nat, n: nat)
    requires ValidConfig(c) && r < c.tp
  {
    0 < n <= c.numExperts[r]
  }

  predicate Arguments(c: Config, r: nat, active: nat, openLayer: int, openCount: nat, logEpoch: nat, logCount: nat,
                      join: nat, joinLayer: int, joinCount: nat)
    requires ValidConfig(c) && r < c.tp
  {
    && (join > 0 ==> ValidCount(c, r, joinCount))
    && (join == active ==> joinLayer == openLayer && joinCount == openCount)
    && (join == logEpoch ==> joinCount == logCount)
  }

  /** In `join`: the epoch is the active one, or one that this rank had joined before. */
  predicate JoinAt(c: Config, r: nat, opening: bool, active: nat, openLayer: int, openCount: nat, k: Caller, join: nat)
    requires ValidConfig(c) && r < c.tp
  {
    && (k.COpening? <==> r == 0 && opening)
    && (k.JWait? || Joining(k) ==> k.epoch > 0 && ValidCount(c, r, k.count))
    && (Joining(k) ==> k.epoch <= active && (k.epoch == active || k.epoch == join))
    && (k.JCount? && join != k.epoch ==> k.layer == openLayer)
    && (k.JStore? && join != k.epoch ==> k.layer == openLayer && k.count == openCount)
  }

  /** In `wait`: what was read so far is what the epoch was opened with, on the first wait. */
  predicate WaitAt(nbytes: seq<nat>, openLayer: int, openCount: nat, producerDone: nat,
                   k: Caller, join: nat, consumerDone: nat, waitReturned: nat)
    requires |nbytes| == KINDS
  {
    && (Waiting(k) ==> k.epoch > 0 && k.epoch == join)
    && (Waiting(k) && !k.WConsumer? ==> consumerDone == k.epoch)
    && (Waiting(k) && !k.WConsumer? && !k.WProducer? ==> k.epoch <= producerDone)
    && (Waiting(k) && waitReturned < k.epoch ==>
          && ((k.WCount? || k.WBytes? || k.WStore?) ==> k.layer == openLayer)
          && ((k.WBytes? || k.WStore?) ==> k.count == openCount)
          && (k.WStore? ==> k.bytes == TotalBytes(nbytes, openCount)))
  }

  predicate BytesAt(nbytes: seq<nat>, active: nat, openCount: nat, consumerDone: nat, waitReturned: nat, bytes: nat)
    requires |nbytes| == KINDS
  {
    consumerDone == active && waitReturned < active ==> bytes == TotalBytes(nbytes, openCount)
  }

  /** A rank that is being closed finished what it joined, or the others were told. */
  predicate CloseAt(p: Poison, k: Caller, closed: bool, stopping: bool, stopped: bool, join: nat, consumerDone: nat) {
    var safe := consumerDone == join || !p.Healthy?;
    && (closed ==> k.CIdle? || Closing(k))
    && (Closing(k) || stopping ==> closed)
    && (k.XDone? ==> k.active >= join)
    && (k.XStop? || stopping ==> safe)
    && (k.XReap? ==> stopping)
    && (stopped ==> safe && (closed || !p.Healthy?))
  }

  predicate OnCopy(k: Consumer) { Copying(k) || k.KLast? || k.KAck? }
  predicate OnGeneration(k: Consumer) { Polling(k) || OnCopy(k) }
  predicate InEpoch(k: Consumer) { OnGeneration(k) || k.KBytes? || k.KDone? }

  /** The rank has read a complete publication: its sequence belongs to expert x of the run under way. */
  predicate Accepted(log: RunLog, runEpoch: nat, x: nat, seen: nat) {
    log.epoch == runEpoch && x < log.published && seen == log.start + x + 1
  }

  predicate SeekAt(active: nat, k: Consumer, join: nat, consumerDone: nat, runEpoch: nat) {
    && (Seeking(k) ==> consumerDone == runEpoch)
    && (k.KJoin? ==> consumerDone < k.epoch == active)
    && (k.KCount? ==> consumerDone < k.epoch == active == join)
  }

  predicate EpochAt(active: nat, openCount: nat, k: Consumer, join: nat, consumerDone: nat, runEpoch: nat, acked: nat) {
    && (InEpoch(k) ==> k.epoch == runEpoch == active == join && consumerDone < k.epoch
                       && k.count == openCount)
    && (OnGeneration(k) ==> k.expert == acked < k.count)
    && (k.KBytes? || k.KDone? ==> acked == k.count)
  }

  /** Past the sequence load only a complete publication gets through, or a rerun's whose epoch gives it away. */
  predicate GenerationAt(log: RunLog, rerun: bool, k: Consumer, runEpoch: nat) {
    && (k.KEpoch? ==> Accepted(log, runEpoch, k.expert, k.seen) || (log.epoch < k.epoch && rerun))
    && (k.KExpert? || k.KGate? || OnCopy(k) ==> Accepted(log, runEpoch, k.expert, k.seen))
  }

  predicate LocalBytesAt(nbytes: seq<nat>, k: Consumer, acked: nat, localBytes: nat, bytes: nat)
    requires |nbytes| == KINDS
  {
    && (OnGeneration(k) ==> localBytes == TotalBytes(nbytes, if k.KAck? then acked + 1 else acked))
    && (k.KBytes? || k.KDone? ==> localBytes == TotalBytes(nbytes, acked))
    && (k.KDone? ==> bytes == TotalBytes(nbytes, acked))
  }

  predicate AckCounts(previous: nat, active: nat, producerDone: nat, logEpoch: nat, count: nat, published: nat,
                      join: nat, consumerDone: nat, runEpoch: nat, acked: nat, a: nat) {
    && (runEpoch == previous || runEpoch == active) && consumerDone <= runEpoch <= join
    && consumerDone <= logEpoch
    && (consumerDone == runEpoch == logEpoch ==> acked == count)
    && (runEpoch > logEpoch ==> acked == 0)
    && a <= published <= a + 2
    && (producerDone == logEpoch ==> a == count)
  }

  predicate AckCells(log: RunLog, a: nat, ack: seq<nat>, lastReady: seq<nat>, acking: bool)
    requires |log.base| == SLOTS && |ack| == SLOTS && |lastReady| == SLOTS
  {
    && Shows(ack, log, a)
    && Shows(lastReady, log, if acking then a + 1 else a)
  }

  /** What the producer's position says about every rank it has already looked at. */
  predicate SeenByProducer(log: RunLog, rerun: bool, p: Producer, r: nat, a: nat)
    requires |log.base| == SLOTS
  {
    !rerun ==>
      && (p.PAck? && r < p.k ==> p.expert <= a + 1)
      && (OnExpert(p) && !p.PAck? ==> p.expert <= a + 1)
      && (p.PDrain? && (0 < p.slot || r < p.k) ==> Drained(log, a, 0))
      && (p.PDrain? && (1 < p.slot || (1 == p.slot && r < p.k)) ==> Drained(log, a, 1))
      && (p.PDrainGate? ==> Drained(log, a, 0))
      && (p.PDrainGate? && 1 <= p.slot ==> Drained(log, a, 1))
      && (p.PDone? ==> a == log.count)
  }

  predicate Drained(log: RunLog, a: nat, i: nat)
    requires |log.base| == SLOTS && i < SLOTS
  {
    SlotSequence(log, a, i) >= SlotSequence(log, log.count, i)
  }

  /** The copies in the stream are the newest of the expert under way. */
  predicate Stream(logEpoch: nat, published: nat, k: Consumer, dma: seq<Copy>, issued: nat, runEpoch: nat, acked: nat) {
    && |dma| <= issued <= KINDS
    && InFlight(dma, acked, issued)
    && (issued > 0 ==> runEpoch == logEpoch && acked < published)
    && (k.KIssue? ==> issued == k.kind)
    && (k.KRecord? || k.KEvent? ==> issued == KINDS)
    && (k.KEventGate? || k.KLast? || k.KAck? ==> issued == KINDS && dma == [])
    && (!OnCopy(k) && !k.KCatch? && !k.KStopped? ==> issued == 0)
  }

  predicate InFlight(dma: seq<Copy>, x: nat, issued: nat)
    requires |dma| <= issued
  {
    forall i :: 0 <= i < |dma| ==> dma[i] == Copy(x % SLOTS, x, issued - |dma| + i)
  }

  /** Everything acknowledged is on the GPU, and so are the copies done for the expert under way. */
  predicate Memory(produced: seq<seq<seq<Block>>>, r: nat, a: nat, acked: nat, moved: int,
                   gpu: map<(nat, nat), Block>, host: seq<seq<Block>>)
    requires |host| == SLOTS
  {
    && GpuHolds(produced, r, gpu, a)
    && (moved > 0 && acked < |produced| && r < |produced[acked]| ==>
          PartOnGpu(produced[acked][r], gpu, acked, moved))
    && HostHolds(produced, r, host, a)
  }

  /** The first m kinds of expert x are on the GPU. */
  predicate PartOnGpu(blocks: seq<Block>, gpu: map<(nat, nat), Block>, x: nat, m: nat) {
    m <= |blocks| == KINDS && forall y: nat :: y < m ==> (x, y) in gpu && gpu[(x, y)] == blocks[y]
  }

  predicate GpuHolds(produced: seq<seq<seq<Block>>>, r: nat, gpu: map<(nat, nat), Block>, a: nat) {
    forall x :: 0 <= x < a && x < |produced| && r < |produced[x]| ==> PartOnGpu(produced[x][r], gpu, x, KINDS)
  }

  /** What was written for this rank and is not yet acknowledged still sits in its slot. */
  predicate HostHolds(produced: seq<seq<seq<Block>>>, r: nat, host: seq<seq<Block>>, a: nat)
    requires |host| == SLOTS
  {
    forall x :: a <= x < |produced| && r < |produced[x]| ==> host[x % SLOTS] == produced[x][r]
  }

  /** A rank consumed a prefix of all publications, the rest being those it has not acknowledged. */
  predicate History(published: nat, publications: seq<Publication>, a: nat, consumed: seq<Publication>) {
    && |consumed| + published == |publications| + a
    && consumed <= publications
  }

  predicate RankInv(c: Config, p: Poison, sh: Shared, r: nat, rk: Rank)
    requires ValidConfig(c) && r < c.tp && |sh.log.base| == SLOTS
  {
    var a := Acked(sh.log, rk.runEpoch, rk.acked);
    && ShapeRank(rk)
    && Lockstep(sh.previous, sh.active, sh.producerDone, rk.join, rk.consumerDone, rk.waitReturned)
    && SeenByOpener(sh.opener, sh.active, r, rk.waitReturned)
    && SeenByScan(sh.producer, sh.active, sh.log.epoch, r, rk.join)
    && Arguments(c, r, sh.active, sh.openLayer, sh.openCount, sh.log.epoch, sh.log.count, rk.join, rk.joinLayer,
                 rk.joinCount)
    && JoinAt(c, r, !sh.opener.ONone?, sh.active, sh.openLayer, sh.openCount, rk.caller, rk.join)
    && WaitAt(c.nbytes[r], sh.openLayer, sh.openCount, sh.producerDone,
              rk.caller, rk.join, rk.consumerDone, rk.waitReturned)
    && BytesAt(c.nbytes[r], sh.active, sh.openCount, rk.consumerDone, rk.waitReturned, rk.bytes)
    && CloseAt(p, rk.caller, rk.closed, rk.stopping, rk.consumer.KStopped?, rk.join, rk.consumerDone)
    && SeekAt(sh.active, rk.consumer, rk.join, rk.consumerDone, rk.runEpoch)
    && EpochAt(sh.active, sh.openCount, rk.consumer, rk.join, rk.consumerDone, rk.runEpoch, rk.acked)
    && GenerationAt(sh.log, sh.rerun, rk.consumer, rk.runEpoch)
    && LocalBytesAt(c.nbytes[r], rk.consumer, rk.acked, rk.localBytes, rk.bytes)
    && AckCounts(sh.previous, sh.active, sh.producerDone, sh.log.epoch, sh.log.count, sh.log.published,
                 rk.join, rk.consumerDone, rk.runEpoch, rk.acked, a)
    && AckCells(sh.log, a, rk.ack, rk.lastReady, rk.consumer.KAck?)
    && SeenByProducer(sh.log, sh.rerun, sh.producer, r, a)
    && Stream(sh.log.epoch, sh.log.published, rk.consumer, rk.dma, rk.issued, rk.runEpoch, rk.acked)
    && Memory(sh.log.produced, r, a, rk.acked, rk.issued - |rk.dma|, rk.gpu, rk.host)
    && History(sh.log.published, sh.publications, a, rk.consumed)
  }

  ghost predicate Inv(c: Config, s: State) {
    && SharedInv(c, s.sh)
    && ProducerTold(s.poison, s.sh.producer, s.sh.producerDone == s.sh.log.epoch, s.sh.rerun)
    && |s.ranks| == c.tp
    && (forall r {:trigger s.ranks[r]} :: 0 <= r < c.tp ==> RankInv(c, s.poison, s.sh, r, s.ranks[r]))
  }
}
