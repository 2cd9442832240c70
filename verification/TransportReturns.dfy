/** A `wait` that finds its epoch ended comes back, and with everybody back rank zero opens the next. */
module TransportReturns {
  import opened TransportModel
  import opened TransportInvariant
  import opened TransportSafety
  import opened TransportTheorems
  import opened TransportDiscipline
  import opened TransportClean
  import opened TransportLeaving
  import opened TransportEnding
  import opened TransportScript
  import opened TransportPhases

  /** The rank is in `wait(e)` and all that it waits for is there. */
  predicate Leaving(s: State, r: nat, e: nat) {
    && r < |s.ranks| && Waiting(s.ranks[r].caller) && s.ranks[r].caller.epoch == e
    && s.ranks[r].consumerDone >= e && s.sh.producerDone >= e
  }

  /** It is back from it. */
  predicate Back(s: State, r: nat, e: nat) {
    r < |s.ranks| && s.ranks[r].caller.CIdle? && s.ranks[r].waitReturned == e
  }

  function WaitWay(k: Caller): nat {
    match k
    case WConsumer(_) => 6
    case WProducer(_) => 5
    case WGate(_) => 4
    case WLayer(_) => 3
    case WCount(_, _) => 2
    case WBytes(_, _, _) => 1
    case _ => 0
  }

  lemma WaitTakes(sh: Shared, rk: Rank, e: nat)
    requires ShapeRank(rk) && Waiting(rk.caller) && rk.caller.epoch == e
    requires e <= rk.consumerDone && e <= sh.producerDone
    ensures var (p, t) := CallerStep(Healthy, sh, rk, Go);
            || (t.caller.CIdle? && t.waitReturned == e)
            || (Waiting(t.caller) && t.caller.epoch == e && WaitWay(t.caller) < WaitWay(rk.caller))
  {
    hide JoinStep, CloseStep, ShapeRank;
  }

  lemma OwnLeaving(c: Config, s: State, a: Action, r: nat, e: nat)
    requires Shape(c, s) && s.poison.Healthy? && r < c.tp
    requires OwnStep(a, CallerOf(r)) && CleanAction(a) && Leaving(s, r, e)
    ensures Shape(c, Step(c, s, a))
    ensures var t := Step(c, s, a);
            || Back(t, r, e)
            || (&& Waiting(t.ranks[r].caller) && t.ranks[r].caller.epoch == e
                && WaitWay(t.ranks[r].caller) < WaitWay(s.ranks[r].caller))
  {
    ShapeKept(c, s, a);
    hide CallerStep, ShapeRank, WaitWay;
    WaitTakes(s.sh, s.ranks[r], e);
  }

  /** What has ended stays ended. */
  lemma EndsStay(c: Config, script: seq<Job>, s: State, a: Action, r: nat)
    requires Fine(c, script, s) && r < c.tp
    ensures Shape(c, Step(c, s, a))
    ensures s.ranks[r].consumerDone <= Step(c, s, a).ranks[r].consumerDone
    ensures s.sh.producerDone <= Step(c, s, a).sh.producerDone
  {
    FineHealthy(c, script, s);
    CellsGrow(c, s, r, a);
    LockstepAt(c, s, r);
    OnlyDoneEnds(c, s, a);
    hide Fine, Inv, Step, ShapeRank;
    if s.sh.producer.PDone? { AnnouncesActive(c, s); }
  }

  lemma LeavingAdvances(c: Config, script: seq<Job>, s: State, a: Action, r: nat, e: nat)
    requires Fine(c, script, s) && Proper(c, script, s, a) && r < c.tp && Leaving(s, r, e)
    ensures var t := Step(c, s, a);
            || Back(t, r, e)
            || (&& Leaving(t, r, e) && WaitWay(t.ranks[r].caller) <= WaitWay(s.ranks[r].caller)
                && (OwnStep(a, CallerOf(r)) ==> WaitWay(t.ranks[r].caller) < WaitWay(s.ranks[r].caller)))
  {
    FineHealthy(c, script, s);
    EndsStay(c, script, s, a, r);
    hide Fine, Inv, Step, ShapeRank, WaitWay, Disciplined, Patient;
    if OwnStep(a, CallerOf(r)) { OwnLeaving(c, s, a, r, e); } else { OthersKeep(c, s, CallerOf(r), a); }
  }

  function IsLeaving(r: nat, e: nat): State -> bool { (s: State) => Leaving(s, r, e) }

  function IsBack(r: nat, e: nat): State -> bool { (s: State) => Back(s, r, e) }

  function WaitLength(r: nat): State -> nat {
    (s: State) => if r < |s.ranks| then WaitWay(s.ranks[r].caller) else 0
  }

  lemma LeavingAdvancesAt(c: Config, script: seq<Job>, sigma: nat -> State, sched: nat -> Action,
                          e: nat, r: nat, j: nat)
    requires Whole(c, script, sigma, sched) && r < c.tp
    ensures Advances(sigma, sched, CallerOf(r), IsLeaving(r, e), IsBack(r, e), WaitLength(r), j)
  {
    hide Whole, Fine, Step, Shape, WaitWay, Leaving, Back, Proper;
    StaysFine(c, script, sigma, sched, j);
    if Leaving(sigma(j), r, e) {
      LeavingAdvances(c, script, sigma(j), sched(j), r, e);
      LeavingInRange(sigma(j), sigma(j + 1), r, e);
    }
  }

  lemma LeavingInRange(s: State, t: State, r: nat, e: nat)
    requires Leaving(s, r, e)
    ensures r < |s.ranks| && (Leaving(t, r, e) || Back(t, r, e) ==> r < |t.ranks|)
  {
  }

  /** A `wait` whose epoch has ended comes back. */
  lemma LeavingLeads(c: Config, script: seq<Job>, sigma: nat -> State, sched: nat -> Action, e: nat, r: nat, i: nat)
    returns (n: nat)
    requires Whole(c, script, sigma, sched) && r < c.tp && Leaving(sigma(i), r, e)
    ensures i <= n && Back(sigma(n), r, e)
  {
    hide Whole, Advances, WaitWay, Leaving, Back;
    TurnsFor(c, script, sigma, sched, r);
    forall j: nat | i <= j
      ensures Advances(sigma, sched, CallerOf(r), IsLeaving(r, e), IsBack(r, e), WaitLength(r), j)
    {
      LeavingAdvancesAt(c, script, sigma, sched, e, r, j);
    }
    n := LeadsTo(sigma, sched, CallerOf(r), IsLeaving(r, e), IsBack(r, e), WaitLength(r), i);
  }

  // ------------------------------------------------------------ where a caller stands

  predicate InJoin(k: Caller) { k.JWait? || Joining(k) }

  /** A `wait` is for what the rank joined; for an epoch returned from before, it has all it waits for. */
  lemma WaitsForJoined(c: Config, s: State, r: nat)
    requires Inv(c, s) && r < c.tp && Waiting(s.ranks[r].caller)
    ensures s.ranks[r].caller.epoch == s.ranks[r].join > 0
    ensures s.ranks[r].waitReturned == s.ranks[r].join ==> Leaving(s, r, s.ranks[r].join)
  {
    LockstepAt(c, s, r);
    assert RankInv(c, s.poison, s.sh, r, s.ranks[r]);
    hide SharedInv, Acked, Lockstep, Arguments, BytesAt, SeekAt, EpochAt, GenerationAt, SeenByOpener, CloseAt, JoinAt;
    hide LocalBytesAt, AckCounts, AckCells, SeenByProducer, Stream, Memory, History, SeenByScan, ShapeRank;
  }

  /** A caller is between two calls, in `wait`, or in `join` with everything before returned from. */
  lemma CallerPlace(c: Config, script: seq<Job>, s: State, r: nat)
    requires Fine(c, script, s) && r < c.tp
    ensures var rk := s.ranks[r];
            || rk.caller.CIdle? || Waiting(rk.caller)
            || ((InJoin(rk.caller) || (rk.caller.COpening? && r == 0)) && rk.waitReturned == rk.join)
  {
    FineHealthy(c, script, s);
    if s.ranks[r].caller.COpening? { OnlyZeroOpens(c, s, r); }
    hide Fine, Inv, ShapeRank;
    assert CleanRank(s.ranks[r]) && PatientRank(s.ranks[r]);
  }

  // ------------------------------------------------------------ the next epoch

  /** Rank zero, everybody through: it is idle, opening, or back from a `wait` before long. */
  lemma ThroughPlace(c: Config, script: seq<Job>, s: State, p: nat)
    requires Fine(c, script, s) && Through(s, p)
    ensures s.ranks != [] && s.ranks[0].join == s.ranks[0].waitReturned == p
    ensures s.ranks[0].caller.CIdle? || s.ranks[0].caller.COpening? || Leaving(s, 0, p)
  {
    FineHealthy(c, script, s);
    ThroughCells(c, s, p, 0);
    CallerPlace(c, script, s, 0);
    if Waiting(s.ranks[0].caller) { WaitsForJoined(c, s, 0); }
    if InJoin(s.ranks[0].caller) { StoringIsNew(c, script, s); }
  }

  lemma StoringIsNew(c: Config, script: seq<Job>, s: State)
    requires Fine(c, script, s) && |s.ranks| > 0 && InJoin(s.ranks[0].caller)
    ensures s.ranks[0].join != s.sh.active
  {
  }

  /** Everybody through with p: the next job becomes active. */
  lemma Opens(c: Config, script: seq<Job>, sigma: nat -> State, sched: nat -> Action, p: nat, job: Job, i: nat)
    returns (n: nat)
    requires Whole(c, script, sigma, sched) && Through(sigma(i), p) && After(script, p, job)
    ensures i <= n && sigma(n).sh.active == job.epoch > 0 && sigma(n).sh.previous == p
  {
    hide Whole, Fine, Step, Shape, Inv, After, Leaving, Through;
    StaysFine(c, script, sigma, sched, i);
    ThroughPlace(c, script, sigma(i), p);
    var back := i;
    TurnsFor(c, script, sigma, sched, 0);
    if Leaving(sigma(i), 0, p) { back := LeavingLeads(c, script, sigma, sched, p, 0, i); }
    var moved, k := ThroughUntil(c, script, sigma, sched, p, i, back);
    if !moved { k := OpensFrom(c, script, sigma, sched, p, job, back); }
    n := Moved(c, script, sigma, sched, p, job, i, k);
  }

  lemma OpensFrom(c: Config, script: seq<Job>, sigma: nat -> State, sched: nat -> Action, p: nat, job: Job, i: nat)
    returns (n: nat)
    requires Whole(c, script, sigma, sched) && Through(sigma(i), p) && After(script, p, job)
    requires |sigma(i).ranks| > 0 && (sigma(i).ranks[0].caller.CIdle? || sigma(i).ranks[0].caller.COpening?)
    ensures i <= n && sigma(n).sh.active != p
  {
    hide Whole, Fine, Step, Shape, Inv, After;
    if sigma(i).ranks[0].caller.COpening? {
      n := OpeningLeads(c, script, sigma, sched, p, i);
      return;
    }
    StaysFine(c, script, sigma, sched, i);
    ThroughPlace(c, script, sigma(i), p);
    TurnsFor(c, script, sigma, sched, 0);
    var j := NextJoin(c, script, sigma, sched, 0, job, i);
    var moved, k := ThroughUntil(c, script, sigma, sched, p, i, j);
    if moved { return k; }
    StaysFine(c, script, sigma, sched, j);
    ThroughPlace(c, script, sigma(j), p);
    JoinOpens(c, script, sigma(j), job);
    n := OpeningLeads(c, script, sigma, sched, p, j + 1);
  }
}
