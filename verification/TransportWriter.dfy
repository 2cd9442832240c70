/** From the writer's single stores to the GPU: what `wait` promises in terms of what was stored. */
module TransportWriter {
  import opened TransportModel
  import opened TransportInvariant
  import opened TransportSafety
  import opened TransportTheorems

  /** One store through the pointers that the writer was handed. */
  datatype Store = Store(expert: nat, rank: nat, kind: nat, block: Block)

  /** What an observer of a schedule writes down: the slots as [rank][slot][kind] when the latest run began,
      and every store of that run since. */
  datatype Record = Record(before: seq<seq<seq<Block>>>, stores: seq<Store>)

  function Hosts(s: State): (hosts: seq<seq<seq<Block>>>) {
    seq(|s.ranks|, r requires 0 <= r < |s.ranks| => s.ranks[r].host)
  }

  predicate Stores(c: Config, s: State, a: Action) {
    a.WriterStores? && a.r < c.tp && a.kind < KINDS && s.sh.producer.PWrite?
  }

  ghost function Noted(c: Config, s: State, a: Action, seen: Record): Record
    requires Shape(c, s)
  {
    if Step(c, s, a).sh.log.epoch != s.sh.log.epoch then Record(Hosts(s), [])
    else if Stores(c, s, a) && !s.sh.rerun then
      seen.(stores := seen.stores + [Store(s.sh.producer.expert, a.r, a.kind, a.block)])
    else seen
  }

  /** The observer's record after a schedule. */
  ghost function Watched(c: Config, schedule: seq<Action>): Record
    requires ValidConfig(c)
  {
    if schedule == [] then Record(Hosts(Init(c)), [])
    else
      var n := |schedule| - 1;
      Noted(c, Run(c, Init(c), schedule[..n]), schedule[n], Watched(c, schedule[..n]))
  }

  predicate Concerns(w: Store, x: nat, r: nat, k: nat) { w.expert == x && w.rank == r && w.kind == k }

  /** `block` is the last one stored for expert x, rank r and kind k, or `otherwise` when none was. */
  ghost predicate LastStored(stores: seq<Store>, x: nat, r: nat, k: nat, otherwise: Block, block: Block) {
    || (exists i :: 0 <= i < |stores| && stores[i] == Store(x, r, k, block)
                    && forall j :: i < j < |stores| ==> !Concerns(stores[j], x, r, k))
    || (block == otherwise && forall j :: 0 <= j < |stores| ==> !Concerns(stores[j], x, r, k))
  }

  lemma StoreIsLast(stores: seq<Store>, w: Store, otherwise: Block)
    ensures LastStored(stores + [w], w.expert, w.rank, w.kind, otherwise, w.block)
  {
    assert (stores + [w])[|stores|] == w;
  }

  lemma OthersStayLast(stores: seq<Store>, w: Store, x: nat, r: nat, k: nat, otherwise: Block, block: Block)
    requires LastStored(stores, x, r, k, otherwise, block) && !Concerns(w, x, r, k)
    ensures LastStored(stores + [w], x, r, k, otherwise, block)
  {
    if i :| 0 <= i < |stores| && stores[i] == Store(x, r, k, block)
            && forall j :: i < j < |stores| ==> !Concerns(stores[j], x, r, k) {
      assert (stores + [w])[i] == Store(x, r, k, block);
    }
  }

  // ------------------------------------------------------- the invariant of the record

  predicate Sized(tp: nat, blocks: seq<seq<Block>>) {
    |blocks| == tp && forall r :: 0 <= r < tp ==> |blocks[r]| == KINDS
  }

  predicate RecordShape(c: Config, seen: Record) {
    && |seen.before| == c.tp
    && forall r :: 0 <= r < c.tp ==>
         |seen.before[r]| == SLOTS && forall i :: 0 <= i < SLOTS ==> |seen.before[r][i]| == KINDS
  }

  predicate ProducedShape(c: Config, produced: seq<seq<seq<Block>>>) {
    forall x :: 0 <= x < |produced| ==> Sized(c.tp, produced[x])
  }

  /** What expert x's slot held on rank r when it came up. */
  function Found(seen: Record, produced: seq<seq<seq<Block>>>, x: nat, r: nat): (blocks: seq<Block>)
    requires x < |produced| + SLOTS && r < |seen.before| && |seen.before[r]| == SLOTS
    requires x >= SLOTS ==> r < |produced[x - SLOTS]|
  {
    if x >= SLOTS then produced[x - SLOTS][r] else seen.before[r][x]
  }

  /** `blocks` are what the stores for expert x on rank r left of `found`. */
  ghost predicate LeftBy(stores: seq<Store>, x: nat, r: nat, found: seq<Block>, blocks: seq<Block>) {
    |found| == |blocks| == KINDS && forall k: nat :: k < KINDS ==> LastStored(stores, x, r, k, found[k], blocks[k])
  }

  /** The next expert's slot holds what was stored for it; the other slot still holds the expert before. */
  ghost predicate SlotsFollow(seen: Record, produced: seq<seq<seq<Block>>>, r: nat, host: seq<seq<Block>>)
    requires r < |seen.before| && |seen.before[r]| == SLOTS == |host|
    requires forall x :: 0 <= x < |produced| ==> r < |produced[x]|
  {
    var n := |produced|;
    && LeftBy(seen.stores, n, r, Found(seen, produced, n, r), host[n % SLOTS])
    && Found(seen, produced, n + 1, r) == host[(n + 1) % SLOTS]
  }

  ghost predicate LogFollows(c: Config, seen: Record, produced: seq<seq<seq<Block>>>)
    requires RecordShape(c, seen) && ProducedShape(c, produced)
  {
    forall x: nat, r: nat :: x < |produced| && r < c.tp ==>
      LeftBy(seen.stores, x, r, Found(seen, produced, x, r), produced[x][r])
  }

  ghost predicate Follows(c: Config, s: State, seen: Record)
    requires Shape(c, s)
  {
    var produced := s.sh.log.produced;
    && RecordShape(c, seen) && ProducedShape(c, produced)
    && (forall j :: 0 <= j < |seen.stores| ==> seen.stores[j].expert <= |produced|)
    && LogFollows(c, seen, produced)
    && (!s.sh.rerun ==> forall r: nat :: r < c.tp ==> SlotsFollow(seen, produced, r, s.ranks[r].host))
  }

  // ------------------------------------------------------- one step

  lemma CallerKeepsMemory(p: Poison, sh: Shared, rk: Rank, o: Outcome)
    requires ShapeRank(rk)
    ensures var t := CallerStep(p, sh, rk, o).1; t.host == rk.host && t.bytes == rk.bytes
  {
    hide ShapeRank;
  }

  lemma SeekKeepsMemory(c: Config, p: Poison, sh: Shared, rk: Rank, r: nat)
    requires ValidConfig(c) && r < c.tp && ShapeRank(rk)
    ensures var t := SeekStep(c, p, sh, rk, r).1; t.host == rk.host && t.bytes == rk.bytes
  {
    hide ShapeRank;
  }

  lemma PollKeepsMemory(p: Poison, sh: Shared, rk: Rank, o: Outcome)
    requires |sh.ready| == SLOTS == |rk.lastReady| && ShapeRank(rk)
    ensures var t := PollStep(p, sh, rk, o).1; t.host == rk.host && t.bytes == rk.bytes
  {
    hide ShapeRank;
  }

  lemma CopyKeepsMemory(p: Poison, rk: Rank, o: Outcome)
    requires ShapeRank(rk)
    ensures var t := CopyStep(p, rk, o).1; t.host == rk.host && t.bytes == rk.bytes
  {
    hide ShapeRank;
  }

  lemma FinishKeepsMemory(c: Config, rk: Rank, r: nat)
    requires ValidConfig(c) && r < c.tp && |rk.lastReady| == SLOTS == |rk.ack| && ShapeRank(rk)
    ensures var t := FinishStep(c, rk, r); t.host == rk.host && (!rk.consumer.KBytes? ==> t.bytes == rk.bytes)
  {
    hide ShapeRank;
  }

  /** A consumer leaves the host slots alone, and its byte counter until the epoch is copied. */
  lemma ConsumerKeepsMemory(c: Config, p: Poison, sh: Shared, rk: Rank, r: nat, o: Outcome)
    requires ValidConfig(c) && r < c.tp && ShapeShared(c, sh) && ShapeRank(rk)
    ensures var t := ConsumerStep(c, p, sh, rk, r, o).1;
      t.host == rk.host && (!rk.consumer.KBytes? ==> t.bytes == rk.bytes)
  {
    hide SeekStep, PollStep, CopyStep, FinishStep;
    SeekKeepsMemory(c, p, sh, rk, r);
    PollKeepsMemory(p, sh, rk, o);
    CopyKeepsMemory(p, rk, o);
    FinishKeepsMemory(c, rk, r);
  }

  /** Only the writer touches the host slots. */
  lemma HostsKept(c: Config, s: State, a: Action)
    requires Shape(c, s) && !Stores(c, s, a)
    ensures Shape(c, Step(c, s, a))
    ensures forall q: nat :: q < c.tp ==> Step(c, s, a).ranks[q].host == s.ranks[q].host
  {
    ShapeKept(c, s, a);
    match a
    case StepCaller(r, o) => if r < c.tp { CallerKeepsMemory(s.poison, s.sh, s.ranks[r], o); }
    case StepConsumer(r, o) => if r < c.tp { ConsumerKeepsMemory(c, s.poison, s.sh, s.ranks[r], r, o); }
    case _ =>
    hide ShapeRank, CallerStep, ConsumerStep, OpenerStep, ProducerStep;
  }

  /** A repeated run leaves the log alone. */
  lemma RerunKeepsLog(c: Config, s: State, a: Action)
    requires Shape(c, s) && s.sh.rerun
    ensures var t := Step(c, s, a); t.sh.log == s.sh.log || t.sh.log.epoch != s.sh.log.epoch
  {
    hide ShapeRank, CallerStep, ConsumerStep, OpenerStep, OpenerEffect, CallStep, ExpertStep, DrainStep, DeviceStep;
    match a
    case StepProducer(o) =>
      CallLogsRerun(c, s, o);
      ExpertLogsRerun(c, s, o);
      DrainLogsRerun(c, s, o);
    case StepCaller(_, o) => OpenerClaims(c, s, o);
    case _ =>
  }

  lemma CallLogsRerun(c: Config, s: State, o: Outcome)
    requires Shape(c, s) && s.sh.rerun
    ensures var log := CallStep(c, s, o).1.log; log == s.sh.log || log.epoch != s.sh.log.epoch
  {
    hide ShapeRank;
    if s.sh.producer.PScan? {} else if s.sh.producer.PGate? {} else {}
  }

  lemma ExpertLogsRerun(c: Config, s: State, o: Outcome)
    requires Shape(c, s) && s.sh.rerun
    ensures ExpertStep(c, s, o).1.log == s.sh.log
  {
    hide ShapeRank;
    if s.sh.producer.PAck? {} else if s.sh.producer.PSequence? {} else {}
  }

  lemma DrainLogsRerun(c: Config, s: State, o: Outcome)
    requires Shape(c, s)
    ensures DrainStep(c, s, o).1.log == s.sh.log
  {
    hide ShapeRank;
  }

  /** The host after one block of it was stored. */
  ghost predicate Moved(was: seq<seq<Block>>, now: seq<seq<Block>>, slot: nat, kind: nat, block: Block) {
    && |was| == |now| == SLOTS
    && (forall i :: 0 <= i < SLOTS ==> |was[i]| == |now[i]| == KINDS)
    && (forall i: nat, k: nat :: i < SLOTS && k < KINDS ==>
          now[i][k] == if i == slot && k == kind then block else was[i][k])
  }

  /** One store moves one kind of one slot of one rank. */
  lemma StoreLands(c: Config, s: State, a: Action)
    requires Shape(c, s) && Stores(c, s, a)
    ensures Shape(c, Step(c, s, a)) && Step(c, s, a).sh == s.sh
    ensures Moved(s.ranks[a.r].host, Step(c, s, a).ranks[a.r].host, s.sh.producer.expert % SLOTS, a.kind, a.block)
    ensures forall q: nat :: q < c.tp && q != a.r ==> Step(c, s, a).ranks[q] == s.ranks[q]
  {
    ShapeKept(c, s, a);
    assert ShapeRank(s.ranks[a.r]);
  }

  lemma StoreFollows(seen: Record, produced: seq<seq<seq<Block>>>, r: nat,
                     was: seq<seq<Block>>, now: seq<seq<Block>>, w: Store)
    requires r < |seen.before| && |seen.before[r]| == SLOTS == |was|
    requires forall x :: 0 <= x < |produced| ==> r < |produced[x]|
    requires SlotsFollow(seen, produced, r, was) && w.expert == |produced|
    requires if w.rank == r then Moved(was, now, w.expert % SLOTS, w.kind, w.block) else now == was
    ensures SlotsFollow(seen.(stores := seen.stores + [w]), produced, r, now)
  {
    var n := |produced|;
    var found := Found(seen, produced, n, r);
    var slot, other := n % SLOTS, (n + 1) % SLOTS;
    forall k: nat | k < KINDS ensures LastStored(seen.stores + [w], n, r, k, found[k], now[slot][k]) {
      if r == w.rank && k == w.kind {
        StoreIsLast(seen.stores, w, found[k]);
      } else {
        OthersStayLast(seen.stores, w, n, r, k, found[k], was[slot][k]);
      }
    }
    hide LastStored;
    assert now[other] == was[other];
  }

  lemma StoreKeepsLog(c: Config, seen: Record, produced: seq<seq<seq<Block>>>, w: Store)
    requires RecordShape(c, seen) && ProducedShape(c, produced) && w.expert == |produced|
    requires LogFollows(c, seen, produced)
    ensures LogFollows(c, seen.(stores := seen.stores + [w]), produced)
  {
    var now := seen.(stores := seen.stores + [w]);
    forall x: nat, r: nat | x < |produced| && r < c.tp
      ensures LeftBy(now.stores, x, r, Found(now, produced, x, r), produced[x][r])
    {
      var found := Found(seen, produced, x, r);
      assert LeftBy(seen.stores, x, r, found, produced[x][r]);
      forall k: nat | k < KINDS ensures LastStored(now.stores, x, r, k, found[k], produced[x][r][k]) {
        OthersStayLast(seen.stores, w, x, r, k, found[k], produced[x][r][k]);
      }
    }
  }

  /** The writer returns: what the slot holds is what was stored, and no store yet concerns the expert after. */
  lemma ReturnFollows(seen: Record, produced: seq<seq<seq<Block>>>, left: seq<seq<Block>>,
                      r: nat, host: seq<seq<Block>>)
    requires r < |seen.before| && |seen.before[r]| == SLOTS == |host|
    requires |host[0]| == |host[1]| == KINDS && r < |left| && left[r] == host[|produced| % SLOTS]
    requires forall x :: 0 <= x < |produced| ==> r < |produced[x]|
    requires forall j :: 0 <= j < |seen.stores| ==> seen.stores[j].expert <= |produced|
    requires SlotsFollow(seen, produced, r, host)
    ensures SlotsFollow(seen, produced + [left], r, host)
    ensures LeftBy(seen.stores, |produced|, r, Found(seen, produced, |produced|, r), left[r])
  {
    hide LeftBy;
    var n := |produced|;
    assert Found(seen, produced, n + 1, r) == host[(n + 1) % SLOTS];
    NoneStored(seen.stores, n + 1, r, host[(n + 1) % SLOTS]);
  }

  lemma NoneStored(stores: seq<Store>, x: nat, r: nat, found: seq<Block>)
    requires |found| == KINDS && forall j :: 0 <= j < |stores| ==> stores[j].expert < x
    ensures LeftBy(stores, x, r, found, found)
  {
    forall k: nat | k < KINDS ensures LastStored(stores, x, r, k, found[k], found[k]) {
      assert forall j :: 0 <= j < |stores| ==> !Concerns(stores[j], x, r, k);
    }
  }

  lemma ReturnKeepsLog(c: Config, seen: Record, produced: seq<seq<seq<Block>>>, left: seq<seq<Block>>)
    requires RecordShape(c, seen) && ProducedShape(c, produced) && Sized(c.tp, left)
    requires LogFollows(c, seen, produced)
    requires forall r: nat :: r < c.tp ==>
      LeftBy(seen.stores, |produced|, r, Found(seen, produced, |produced|, r), left[r])
    ensures ProducedShape(c, produced + [left]) && LogFollows(c, seen, produced + [left])
  {
    hide LeftBy;
    forall x: nat, r: nat | x < |produced| + 1 && r < c.tp
      ensures LeftBy(seen.stores, x, r, Found(seen, produced + [left], x, r), (produced + [left])[x][r])
    {
      assert Found(seen, produced + [left], x, r) == Found(seen, produced, x, r);
    }
  }

  lemma RunBegins(c: Config, s: State, t: State)
    requires Shape(c, s) && Shape(c, t) && t.sh.log.produced == []
    requires forall q: nat :: q < c.tp ==> t.ranks[q].host == s.ranks[q].host
    ensures Follows(c, t, Record(Hosts(s), []))
  {
    var seen := Record(Hosts(s), []);
    forall r | 0 <= r < c.tp
      ensures |s.ranks[r].host| == SLOTS && forall i :: 0 <= i < SLOTS ==> |s.ranks[r].host[i]| == KINDS
    {
      assert ShapeRank(s.ranks[r]);
    }
    forall r: nat | r < c.tp ensures SlotsFollow(seen, [], r, t.ranks[r].host) {
      assert forall k: nat :: k < KINDS ==> LastStored([], 0, r, k, s.ranks[r].host[0][k], t.ranks[r].host[0][k]);
    }
    hide ShapeShared, ShapeRank, SlotsFollow;
  }

  lemma StoreNotedAt(c: Config, s: State, a: Action, seen: Record, r: nat)
    requires Shape(c, s) && Follows(c, s, seen) && Stores(c, s, a) && !s.sh.rerun && r < c.tp
    requires s.sh.producer.expert == |s.sh.log.produced|
    ensures Shape(c, Step(c, s, a))
    ensures SlotsFollow(seen.(stores := seen.stores + [Store(s.sh.producer.expert, a.r, a.kind, a.block)]),
                        s.sh.log.produced, r, Step(c, s, a).ranks[r].host)
  {
    StoreLands(c, s, a);
    assert SlotsFollow(seen, s.sh.log.produced, r, s.ranks[r].host) && ShapeRank(s.ranks[r]);
    HostSized(s.ranks[r]);
    hide Step, ShapeShared, ShapeRank, LogFollows, SlotsFollow, Moved;
    StoreFollows(seen, s.sh.log.produced, r, s.ranks[r].host, Step(c, s, a).ranks[r].host,
                 Store(s.sh.producer.expert, a.r, a.kind, a.block));
  }

  lemma StoreNoted(c: Config, s: State, a: Action, seen: Record)
    requires SharedInv(c, s.sh) && Shape(c, s) && Follows(c, s, seen) && Stores(c, s, a)
    ensures Shape(c, Step(c, s, a)) && Follows(c, Step(c, s, a), Noted(c, s, a, seen))
  {
    hide SharedInv, ShapeShared, ShapeRank, Step, LogFollows, SlotsFollow, Moved;
    var t := Step(c, s, a);
    StoreLands(c, s, a);
    forall r | 0 <= r < c.tp ensures |t.ranks[r].host| == SLOTS { HostSized(t.ranks[r]); }
    if !s.sh.rerun {
      WriterOnNext(c, s.sh);
      StoreKeepsLog(c, seen, s.sh.log.produced, Store(s.sh.producer.expert, a.r, a.kind, a.block));
      forall r: nat | r < c.tp
        ensures SlotsFollow(Noted(c, s, a, seen), s.sh.log.produced, r, t.ranks[r].host)
      {
        StoreNotedAt(c, s, a, seen, r);
      }
    }
  }

  lemma HostSized(rk: Rank)
    requires ShapeRank(rk)
    ensures |rk.host| == SLOTS && |rk.host[0]| == |rk.host[1]| == KINDS
  {}

  lemma HostSlotsSized(c: Config, s: State, slot: nat)
    requires Shape(c, s) && slot < SLOTS
    ensures Sized(c.tp, HostSlots(c, s, slot))
  {
    hide ShapeShared;
  }

  /** The log grows by one expert. */
  lemma ReturnNoted(c: Config, s: State, t: State, seen: Record)
    requires Shape(c, s) && Shape(c, t) && Follows(c, s, seen) && !s.sh.rerun
    requires forall q: nat :: q < c.tp ==> t.ranks[q].host == s.ranks[q].host
    requires t.sh.log.produced == s.sh.log.produced + [HostSlots(c, s, |s.sh.log.produced| % SLOTS)]
    ensures Follows(c, t, seen)
  {
    hide ShapeShared, ShapeRank, LogFollows, SlotsFollow, LeftBy;
    var produced, left := s.sh.log.produced, HostSlots(c, s, |s.sh.log.produced| % SLOTS);
    HostSlotsSized(c, s, |produced| % SLOTS);
    forall q | 0 <= q < c.tp ensures |t.ranks[q].host| == SLOTS { HostSized(t.ranks[q]); }
    forall r: nat | r < c.tp
      ensures SlotsFollow(seen, produced + [left], r, t.ranks[r].host)
      ensures LeftBy(seen.stores, |produced|, r, Found(seen, produced, |produced|, r), left[r])
    {
      assert ShapeRank(s.ranks[r]);
      HostSized(s.ranks[r]);
      ReturnFollows(seen, produced, left, r, s.ranks[r].host);
    }
    ReturnKeepsLog(c, seen, produced, left);
  }

  lemma StepFollows(c: Config, s: State, a: Action, seen: Record)
    requires Reachable(c, s) && Shape(c, s) && Follows(c, s, seen)
    ensures Shape(c, Step(c, s, a)) && Follows(c, Step(c, s, a), Noted(c, s, a, seen))
  {
    ShapeKept(c, s, a);
    var t := Step(c, s, a);
    ReachableInv(c, s);
    hide SharedInv, RankInv, ShapeShared, ShapeRank, Reachable, Step;
    if Stores(c, s, a) { StoreNoted(c, s, a, seen); return; }
    HostsKept(c, s, a);
    LogIsHistory(c, s, a);
    OnlyDoneEnds(c, s, a);
    if s.sh.rerun { RerunKeepsLog(c, s, a); }
    if t.sh.log.epoch != s.sh.log.epoch {
      RunBegins(c, s, t);
    } else if t.sh.log.produced != s.sh.log.produced {
      ReturnNoted(c, s, t, seen);
    }
  }

  // ------------------------------------------------------- what is delivered

  lemma {:induction false} WatchedFollows(c: Config, schedule: seq<Action>)
    requires ValidConfig(c)
    ensures Reachable(c, Run(c, Init(c), schedule))
    ensures Follows(c, Run(c, Init(c), schedule), Watched(c, schedule))
  {
    hide Follows, Step, Noted;
    if schedule == [] {
      RunBegins(c, Init(c), Init(c));
    } else {
      var n := |schedule| - 1;
      WatchedFollows(c, schedule[..n]);
      RunThen(c, Init(c), schedule[..n], schedule[n]);
      assert schedule[..n] + [schedule[n]] == schedule;
      StepFollows(c, Run(c, Init(c), schedule[..n]), schedule[n], Watched(c, schedule[..n]));
    }
  }

  /**
   Past the gate of `wait(e)` on one rank, every rank's GPU shows, for each expert the rank joined with and each
   kind, the block that the writer stored last for them in the run of e; a kind it never stored shows what its
   slot held, which is the expert two before, or for the first two what was there when the run began.
   */
  lemma DeliveredAsStored(c: Config, schedule: seq<Action>, r: nat, q: nat, x: nat, k: nat)
    requires ValidConfig(c) && r < c.tp && q < c.tp && k < KINDS
    requires var rk := Run(c, Init(c), schedule).ranks[r]; Returning(rk.caller) && x < rk.joinCount
    ensures var s, seen := Run(c, Init(c), schedule), Watched(c, schedule);
      var gpu := s.ranks[q].gpu;
      && s.sh.log.epoch == s.ranks[r].caller.epoch
      && (x, k) in gpu
      && (x >= SLOTS ==> (x - SLOTS, k) in gpu)
      && q < |seen.before| && |seen.before[q]| == SLOTS && (x < SLOTS ==> |seen.before[q][x]| == KINDS)
      && LastStored(seen.stores, x, q, k, if x >= SLOTS then gpu[(x - SLOTS, k)] else seen.before[q][x][k], gpu[(x, k)])
  {
    WatchedFollows(c, schedule);
    hide Run, Watched, Reachable, Follows, LastStored;
    ShownAsStored(c, Run(c, Init(c), schedule), Watched(c, schedule), r, q, x, k);
  }

  lemma ShownAsStored(c: Config, s: State, seen: Record, r: nat, q: nat, x: nat, k: nat)
    requires Reachable(c, s) && Shape(c, s) && Follows(c, s, seen) && r < c.tp && q < c.tp && k < KINDS
    requires Returning(s.ranks[r].caller) && x < s.ranks[r].joinCount
    ensures var gpu := s.ranks[q].gpu;
      && s.sh.log.epoch == s.ranks[r].caller.epoch
      && (x, k) in gpu
      && (x >= SLOTS ==> (x - SLOTS, k) in gpu)
      && q < |seen.before| && |seen.before[q]| == SLOTS && (x < SLOTS ==> |seen.before[q][x]| == KINDS)
      && LastStored(seen.stores, x, q, k, if x >= SLOTS then gpu[(x - SLOTS, k)] else seen.before[q][x][k], gpu[(x, k)])
  {
    hide Reachable, ShapeShared, ShapeRank, SlotsFollow, LastStored, LogFollows;
    var produced := s.sh.log.produced;
    ShownAt(c, s, r, q, x, k);
    if x >= SLOTS { ShownAt(c, s, r, q, x - SLOTS, k); }
    StoredAt(c, seen, produced, x, q);
  }

  lemma StoredAt(c: Config, seen: Record, produced: seq<seq<seq<Block>>>, x: nat, q: nat)
    requires RecordShape(c, seen) && ProducedShape(c, produced) && LogFollows(c, seen, produced)
    requires x < |produced| && q < c.tp
    ensures LeftBy(seen.stores, x, q, Found(seen, produced, x, q), produced[x][q])
  {
    hide LeftBy;
  }

  lemma ShownAt(c: Config, s: State, r: nat, q: nat, x: nat, k: nat)
    requires Reachable(c, s) && Shape(c, s) && r < c.tp && q < c.tp && k < KINDS
    requires Returning(s.ranks[r].caller) && x < s.ranks[r].joinCount
    ensures var log, gpu := s.sh.log, s.ranks[q].gpu;
      && log.epoch == s.ranks[r].caller.epoch
      && x < |log.produced| && q < |log.produced[x]| && |log.produced[x][q]| == KINDS
      && (x, k) in gpu && gpu[(x, k)] == log.produced[x][q][k]
  {
    hide Reachable, ShapeShared, ShapeRank;
    EndToEndDelivery(c, s, r, q);
    assert (x, k) in CopyAll(s.sh.log.produced, q);
  }
}
