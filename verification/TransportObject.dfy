/** The control region and its threads as one object updated in place: each
    method is one atomic step of one thread, and its contract says what the
    theorems promise at that step. */
module TransportObject {
  import opened TransportModel
  import opened TransportInvariant
  import opened TransportTheorems
  import opened TransportWriter

  /** Threads may have moved; cells, memory and history are as before. */
  predicate OnlyPlaces(s: State, t: State) {
    && t.sh.(producer := s.sh.producer, opener := s.sh.opener) == s.sh
    && |t.ranks| == |s.ranks|
    && forall q :: 0 <= q < |s.ranks| ==> t.ranks[q].(caller := s.ranks[q].caller,
                                                      closed := s.ranks[q].closed) == s.ranks[q]
  }

  /** A `wait` for an epoch its rank has not joined. */
  predicate NotJoined(a: Action, ranks: seq<Rank>) {
    a.CallWait? && a.r < |ranks| && (a.epoch == 0 || a.epoch != ranks[a.r].join)
  }

  /** Who gets in: a thread that is between calls, on an open rank and with arguments in range; only `close` gets in
      once the latch is set. */
  predicate Admitted(c: Config, s: State, a: Action)
    requires Shape(c, s)
  {
    match a
    case CallJoin(r, e, l, n) =>
      && r < c.tp && s.ranks[r].caller.CIdle? && !s.ranks[r].closed && s.poison.Healthy?
      && 0 < e && 0 <= l && 0 < n <= c.numExperts[r]
    case CallWait(r, _) => r < c.tp && s.ranks[r].caller.CIdle? && !s.ranks[r].closed && s.poison.Healthy?
    case CallClose(r) => r < c.tp && s.ranks[r].caller.CIdle? && !s.ranks[r].closed
    case CallProduce(e, l, n) =>
      && s.sh.producer.PIdle? && !s.ranks[0].closed && s.poison.Healthy?
      && 0 < e && 0 <= l && 0 < n <= c.numExperts[0]
    case _ => false
  }

  lemma CallPromise(c: Config, s: State, a: Action)
    requires Shape(c, s) && (a.CallJoin? || a.CallWait? || a.CallClose? || a.CallProduce?)
    ensures var t := Step(c, s, a);
            && (!s.poison.Healthy? && !a.CallClose? ==> t == s)
            && OnlyPlaces(s, t) && (t != s <==> Admitted(c, s, a))
            && (forall q: nat :: q < c.tp && t.ranks[q] != s.ranks[q] ==> !a.CallProduce? && a.r == q)
            && (a.CallWait? && a.r < c.tp && t.ranks[a.r].caller != s.ranks[a.r].caller ==>
                  t.ranks[a.r].caller == WConsumer(t.ranks[a.r].join) && a.epoch == t.ranks[a.r].join > 0)
            && (t.poison != s.poison ==> t.poison == Claimed(Protocol) && NotJoined(a, t.ranks))
  {
    hide ShapeRank;
  }

  /** The active epoch is over: run ended, copied, returned from, on every rank. */
  predicate EveryoneReturned(sh: Shared, ranks: seq<Rank>) {
    forall q :: 0 <= q < |ranks| ==>
      ranks[q].waitReturned == ranks[q].consumerDone == ranks[q].join == sh.producerDone == sh.active
  }

  lemma AllReturned(c: Config, s: State)
    requires Reachable(c, s) && Shape(c, s) && Storing(s.sh.opener)
    ensures EveryoneReturned(s.sh, s.ranks) && s.sh.active < s.sh.opener.epoch
  {
    hide Reachable, ShapeRank;
    forall q | 0 <= q < |s.ranks|
      ensures s.ranks[q].waitReturned == s.ranks[q].consumerDone == s.ranks[q].join == s.sh.producerDone == s.sh.active
    {
      StoresAfterReturns(c, s, q);
    }
    StoresAfterReturns(c, s, 0);
  }

  /** Which steps of the opener touch the epoch or a byte counter. */
  lemma OpenerPromise(c: Config, s: State, o: Outcome)
    requires Shape(c, s) && s.ranks[0].caller.COpening?
    ensures var t := Step(c, s, StepCaller(0, o));
            && (t.sh.active != s.sh.active ==>
                  Storing(s.sh.opener) && t.sh.active == s.sh.opener.epoch && t.sh.previous == s.sh.active)
            && (forall q: nat :: q < c.tp && t.ranks[q].bytes != s.ranks[q].bytes ==> Storing(s.sh.opener))
  {
    OpenerActivates(c, s, o);
    hide ShapeRank, OpenerStep;
  }

  class Transport {
    const c: Config
    var poison: Poison
    var shared: Shared
    var ranks: seq<Rank>

    ghost function View(): State
      reads this
    {
      State(poison, shared, ranks)
    }

    ghost predicate Valid()
      reads this
    {
      Reachable(c, View()) && Shape(c, View())
    }

    constructor (config: Config)
      requires ValidConfig(config)
      ensures Valid() && c == config && View() == Init(config)
    {
      c := config;
      poison, shared := Healthy, FRESH_SHARED;
      ranks := seq(config.tp, _ => FRESH_RANK);
      new;
      assert View() == Run(c, Init(c), []);
    }

    /** `join`, `wait`, `close` or `run_producer` is called. With the latch set only `close` gets in;
        whoever gets in has changed no cell, no memory and nobody else's place; a `wait` that gets in
        waits for what its rank joined, and one for anything else claims the latch. */
    method Call(a: Action)
      requires Valid() && (a.CallJoin? || a.CallWait? || a.CallClose? || a.CallProduce?)
      modifies this
      ensures Valid() && View() == Step(c, old(View()), a)
      ensures !old(poison).Healthy? && !a.CallClose? ==> View() == old(View())
      ensures OnlyPlaces(old(View()), View())
      ensures View() != old(View()) <==> Admitted(c, old(View()), a)
      ensures forall q: nat :: q < c.tp && ranks[q] != old(ranks)[q] ==> !a.CallProduce? && a.r == q
      ensures a.CallWait? && a.r < c.tp && ranks[a.r].caller != old(ranks)[a.r].caller ==>
        ranks[a.r].caller == WConsumer(ranks[a.r].join) && a.epoch == ranks[a.r].join > 0
      ensures poison != old(poison) ==> poison == Claimed(Protocol) && NotJoined(a, ranks)
    {
      CallPromise(c, View(), a);
      StaysReachable(c, View(), a);
      ReachableShape(c, Step(c, View(), a));
      hide Reachable, Shape, OnlyPlaces, Admitted;
      var t := Step(c, State(poison, shared, ranks), a);
      poison, shared, ranks := t.poison, t.sh, t.ranks;
    }

    /** A caller's step. The one that ends a `wait` does so with every rank's
        GPU holding what the writer produced for the epoch. */
    method CallerOnce(r: nat, o: Outcome)
      requires Valid() && r < c.tp && !ranks[r].caller.COpening?
      modifies this`poison, this`ranks
      ensures Valid() && View() == Step(c, old(View()), StepCaller(r, o))
      ensures old(ranks[r].caller.WStore?) ==> ranks[r].waitReturned == old(ranks[r].caller.epoch)
      ensures old(ranks[r].caller.WStore?) ==>
        forall q: nat :: q < c.tp ==> Delivered(old(View()), old(ranks[r].caller.epoch), q)
    {
      if ranks[r].caller.WStore? {
        forall q: nat | q < c.tp ensures Delivered(View(), ranks[r].caller.epoch, q) {
          EndToEndDelivery(c, View(), r, q);
        }
        StoreReturns(poison, shared, ranks[r], o);
      }
      hide Delivered;
      StaysReachable(c, View(), StepCaller(r, o));
      ReachableShape(c, Step(c, View(), StepCaller(r, o)));
      hide Reachable, CallerStep;
      var (p, rk) := CallerStep(poison, shared, ranks[r], o);
      poison := p;
      ranks := ranks[r := rk];
    }

    /** A step of rank zero inside `join`, up to activating the epoch. It activates, and it clears a
        byte counter, only when the epoch before is over for every rank and for the producer. */
    method OpenerOnce(o: Outcome)
      requires Valid() && ranks[0].caller.COpening?
      modifies this
      ensures Valid() && View() == Step(c, old(View()), StepCaller(0, o))
      ensures shared.active != old(shared.active) ==>
        shared.active == old(shared.opener.epoch) > old(shared.active) && shared.previous == old(shared.active)
      ensures shared.active != old(shared.active) ==> EveryoneReturned(old(shared), old(ranks))
      ensures (exists q: nat :: q < c.tp && ranks[q].bytes != old(ranks)[q].bytes) ==>
        EveryoneReturned(old(shared), old(ranks))
    {
      if Storing(shared.opener) { AllReturned(c, View()); }
      OpenerPromise(c, View(), o);
      StaysReachable(c, View(), StepCaller(0, o));
      ReachableShape(c, Step(c, View(), StepCaller(0, o)));
      hide Reachable, OpenerStep, OpenerEffect, EveryoneReturned;
      var (p, sh) := OpenerStep(c, State(poison, shared, ranks), o);
      var was, before := shared.opener, ranks;
      ranks := seq(|before|, q requires 0 <= q < |before| && ShapeRank(before[q]) =>
        OpenerEffect(was, sh.opener, q, before[q]));
      poison, shared := p, sh;
    }

    /** A step of the producer; whatever it appends to the log is what the slots
        of all ranks hold. */
    method ProducerOnce(o: Outcome)
      requires Valid()
      modifies this`poison, this`shared
      ensures Valid() && View() == Step(c, old(View()), StepProducer(o))
      ensures LogMoves(c, old(View()), old(shared.log), shared.log)
    {
      LogIsHistory(c, View(), StepProducer(o));
      StaysReachable(c, View(), StepProducer(o));
      ReachableShape(c, Step(c, View(), StepProducer(o)));
      hide Reachable, ProducerStep, LogMoves;
      var (p, sh) := ProducerStep(c, State(poison, shared, ranks), o);
      poison := p;
      shared := sh;
    }

    /** The writer stores one block: it goes into the current expert's slot at its rank and kind, and nowhere
        else; no rank is copying from that slot or has to. */
    method WriteBlock(r: nat, kind: nat, block: Block)
      requires Valid() && r < c.tp && kind < KINDS && shared.producer.PWrite?
      modifies this`ranks
      ensures Valid() && View() == Step(c, old(View()), WriterStores(r, kind, block))
      ensures forall q: nat :: q < c.tp ==> SlotIsFree(shared, old(ranks[q]), shared.producer.expert % SLOTS)
      ensures |ranks| == c.tp && forall q: nat :: q < c.tp && q != r ==> ranks[q] == old(ranks)[q]
      ensures ranks[r].(host := old(ranks)[r].host) == old(ranks)[r]
      ensures Moved(old(ranks)[r].host, ranks[r].host, shared.producer.expert % SLOTS, kind, block)
    {
      StoreLands(c, View(), WriterStores(r, kind, block));
      forall q: nat | q < c.tp ensures SlotIsFree(shared, ranks[q], shared.producer.expert % SLOTS) {
        SlotReuse(c, View(), q);
      }
      hide SlotIsFree;
      StaysReachable(c, View(), WriterStores(r, kind, block));
      ReachableShape(c, Step(c, View(), WriterStores(r, kind, block)));
      hide Reachable;
      ranks := ranks[r := Written(ranks[r], shared.producer.expert % SLOTS, kind, block)];
    }

    /** A step of a rank's consumer; what it has consumed stays a prefix of what
        was published. */
    method ConsumerOnce(r: nat, o: Outcome)
      requires Valid() && r < c.tp
      modifies this`poison, this`ranks
      ensures Valid() && View() == Step(c, old(View()), StepConsumer(r, o))
      ensures ranks[r].consumed <= shared.publications
    {
      StaysReachable(c, View(), StepConsumer(r, o));
      ReachableShape(c, Step(c, View(), StepConsumer(r, o)));
      ConsumedInOrder(c, Step(c, View(), StepConsumer(r, o)), r);
      hide Reachable, ConsumerStep;
      var (p, rk) := ConsumerStep(c, poison, shared, ranks[r], r, o);
      poison := p;
      ranks := ranks[r := rk];
    }

    /** The oldest copy of a rank's stream is carried out: it brings onto the GPU what the writer
        produced for that rank, expert and kind, in any run, and moves nothing else. */
    method CopyOnce(r: nat)
      requires Valid() && r < c.tp
      modifies this`ranks
      ensures Valid() && View() == Step(c, old(View()), DeviceCopies(r))
      ensures old(ranks)[r].dma == [] ==> ranks == old(ranks)
      ensures old(ranks)[r].dma != [] ==>
        var cp, log := old(ranks)[r].dma[0], shared.log;
        && ranks[r].dma == old(ranks)[r].dma[1..]
        && cp.expert < |log.produced| && r < |log.produced[cp.expert]| && cp.kind < |log.produced[cp.expert][r]|
        && ranks[r].gpu == old(ranks)[r].gpu[(cp.expert, cp.kind) := log.produced[cp.expert][r][cp.kind]]
    {
      if ranks[r].dma != [] { CopiesIntact(c, View(), r, 0); }
      StaysReachable(c, View(), DeviceCopies(r));
      ReachableShape(c, Step(c, View(), DeviceCopies(r)));
      hide Reachable;
      ranks := ranks[r := DeviceStep(ranks[r])];
      assert old(ranks)[r].dma == [] ==> ranks == old(ranks);
    }

    /** The winner of the poison claim releases its record. */
    method ReleasePoison()
      requires Valid() && poison.Claimed?
      modifies this`poison
      ensures Valid() && View() == Step(c, old(View()), FinishPoison)
      ensures poison == Poisoned(old(poison.code))
    {
      StaysReachable(c, View(), FinishPoison);
      ReachableShape(c, Step(c, View(), FinishPoison));
      hide Reachable;
      poison := Poisoned(poison.code);
    }
  }

  lemma StoreReturns(p: Poison, sh: Shared, rk: Rank, o: Outcome)
    requires ShapeRank(rk) && rk.caller.WStore?
    ensures CallerStep(p, sh, rk, o).1.waitReturned == rk.caller.epoch
  {
    hide ShapeRank;
  }
}
