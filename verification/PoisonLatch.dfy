/** The poison latch: any number of publishers race to claim it, the winner
    fills in the diagnostics cell by cell, and any number of readers look on.
    Every store and every load is a step of its own. */
module PoisonLatch {
  import opened Segments

  const TEXT_BYTES: nat := 256
  const NUL: char := '\0'

  datatype Record = Record(code: nat, rank: int, text: string)

  datatype Cell = Healthy | Claimed | Poisoned

  /** A thread inside `publish_poison`. */
  datatype Publisher =
    | Out
    | Trying(r: Record)
    | StoringCode(r: Record)
    | StoringRank(r: Record)
    | StoringText(r: Record, k: nat)   // next character
    | Releasing(r: Record)
    | Gone

  datatype Report = Incomplete | Complete(r: Record)

  /** A thread inside `poison_message`. */
  datatype Reader =
    | Away
    | Spinning
    | SecondLook
    | LoadingCode
    | LoadingRank(code: nat)
    | LoadingText(code: nat, rank: int, got: string)
    | Said(report: Report)

  datatype State = State(
    cell: Cell,
    code: nat,
    rank: int,
    text: seq<char>,
    publishers: seq<Publisher>,
    readers: seq<Reader>,
    winner: Option<nat>,       // who claimed, and what it was asked to record
    record: Record)

  // ----- C strings -----

  /** The characters up to the first NUL. */
  function CString(s: seq<char>): (t: string)
    ensures |t| <= |s| && t == s[..|t|] && NUL !in t
    ensures |t| < |s| ==> s[|t|] == NUL
  {
    if |s| == 0 || s[0] == NUL then "" else [s[0]] + CString(s[1..])
  }

  /** What `snprintf` leaves of a message in a 256-byte cell. */
  function Stored(message: string): (t: string)
    ensures |t| < TEXT_BYTES && NUL !in t
  {
    var t := CString(message);
    if |t| < TEXT_BYTES then t else t[..TEXT_BYTES - 1]
  }

  /** As much of the message as comes before a NUL and fits. */
  lemma StoredIsStart(message: string)
    ensures var t := Stored(message);
      t <= message && |t| <= 255 && NUL !in t && (|t| == |message| || message[|t|] == NUL || |t| == 255)
  {}

  function Kept(r: Record): Record { r.(text := Stored(r.text)) }

  /** The text cell after `k` characters of `t`. */
  function Filled(t: string, k: nat): (cell: seq<char>)
    requires k <= |t| < TEXT_BYTES
    ensures |cell| == TEXT_BYTES
  {
    t[..k] + Repeat(NUL, TEXT_BYTES - k)
  }

  function Init(publishers: nat, readers: nat): State {
    State(Healthy, 0, -1, Repeat(NUL, TEXT_BYTES), Repeat(Out, publishers), Repeat(Away, readers), None,
          Record(0, -1, ""))
  }

  datatype Action =
    | Begin(i: nat, r: Record)
    | Publish(i: nat)
    | Look(j: nat)
    | Read(j: nat, expired: bool)

  function PublishStep(s: State, i: nat): State
    requires i < |s.publishers|
  {
    match s.publishers[i]
    case Out => s
    case Trying(r) =>
      if s.cell == Healthy then
        s.(cell := Claimed, winner := Some(i), record := r, publishers := s.publishers[i := StoringCode(r)])
      else s.(publishers := s.publishers[i := Gone])
    case StoringCode(r) => s.(code := r.code, publishers := s.publishers[i := StoringRank(r)])
    case StoringRank(r) => s.(rank := r.rank, publishers := s.publishers[i := StoringText(r, 0)])
    case StoringText(r, k) =>
      if k < |Stored(r.text)| then
        if k < |s.text| then
          s.(text := s.text[k := Stored(r.text)[k]], publishers := s.publishers[i := StoringText(r, k + 1)])
        else s
      else if k < |s.text| then
        s.(text := s.text[k := NUL], publishers := s.publishers[i := Releasing(r)])
      else s
    case Releasing(_) => s.(cell := Poisoned, publishers := s.publishers[i := Gone])
    case Gone => s
  }

  function ReadStep(s: State, j: nat, expired: bool): State
    requires j < |s.readers|
  {
    match s.readers[j]
    case Away => s
    case Spinning =>
      if s.cell == Claimed && !expired then s else s.(readers := s.readers[j := SecondLook])
    case SecondLook =>
      s.(readers := s.readers[j := if s.cell == Claimed then Said(Incomplete) else LoadingCode])
    case LoadingCode => s.(readers := s.readers[j := LoadingRank(s.code)])
    case LoadingRank(code) => s.(readers := s.readers[j := LoadingText(code, s.rank, "")])
    case LoadingText(code, rank, got) =>
      if |got| < |s.text| && s.text[|got|] != NUL then
        s.(readers := s.readers[j := LoadingText(code, rank, got + [s.text[|got|]])])
      else s.(readers := s.readers[j := Said(Complete(Record(code, rank, got)))])
    case Said(_) => s
  }

  function Next(s: State, a: Action): State {
    match a
    case Begin(i, r) =>
      // every call site passes one of the codes 1 to 6, never kErrorNone
      if i < |s.publishers| && s.publishers[i] == Out && r.code != 0
      then s.(publishers := s.publishers[i := Trying(r)]) else s
    case Publish(i) => if i < |s.publishers| then PublishStep(s, i) else s
    case Look(j) =>
      // throw_if_poisoned: only a non-zero cell leads to poison_message
      if j < |s.readers| && s.readers[j] == Away && s.cell != Healthy
      then s.(readers := s.readers[j := Spinning]) else s
    case Read(j, expired) => if j < |s.readers| then ReadStep(s, j, expired) else s
  }

  function Run(s: State, schedule: seq<Action>): State {
    if |schedule| == 0 then s else Next(Run(s, schedule[..|schedule| - 1]), schedule[|schedule| - 1])
  }

  // ----- the invariant -----

  predicate Writing(p: Publisher) {
    p.StoringCode? || p.StoringRank? || p.StoringText? || p.Releasing?
  }

  /** How far the winner has got decides what the cells hold. */
  ghost predicate Progress(p: Publisher, code: nat, rank: int, text: seq<char>, r: Record) {
    match p
    case StoringCode(q) => q == r && code == 0 && rank == -1 && text == Filled(Stored(r.text), 0)
    case StoringRank(q) => q == r && code == r.code && rank == -1 && text == Filled(Stored(r.text), 0)
    case StoringText(q, k) =>
      q == r && code == r.code && rank == r.rank && k <= |Stored(r.text)| && text == Filled(Stored(r.text), k)
    case Releasing(q) => q == r && Holds(code, rank, text, r)
    case _ => false
  }

  /** The cells hold the whole record. */
  ghost predicate Holds(code: nat, rank: int, text: seq<char>, r: Record) {
    code == r.code && rank == r.rank && text == Filled(Stored(r.text), |Stored(r.text)|)
  }

  ghost predicate PublisherOk(cell: Cell, winner: Option<nat>, i: nat, p: Publisher) {
    && (Writing(p) ==> cell == Claimed && winner == Some(i))
    && (p.Trying? ==> p.r.code != 0)
    && (p == Gone ==> cell != Healthy)
  }

  ghost predicate LatchOk(s: State) {
    && (s.winner.None? <==> s.cell == Healthy)
    && (s.cell != Healthy ==> s.record.code != 0)
    && (forall i :: 0 <= i < |s.publishers| ==> PublisherOk(s.cell, s.winner, i, s.publishers[i]))
    && match s.cell
       case Healthy => s.code == 0 && s.rank == -1 && s.text == Repeat(NUL, TEXT_BYTES)
       case Claimed =>
         s.winner.value < |s.publishers| && Progress(s.publishers[s.winner.value], s.code, s.rank, s.text, s.record)
       case Poisoned => Holds(s.code, s.rank, s.text, s.record)
  }

  ghost predicate ReaderOk(cell: Cell, r: Record, reader: Reader) {
    match reader
    case Away => true
    case Spinning => cell != Healthy
    case SecondLook => cell != Healthy
    case LoadingCode => cell == Poisoned
    case LoadingRank(code) => cell == Poisoned && code == r.code
    case LoadingText(code, rank, got) =>
      && cell == Poisoned && code == r.code && rank == r.rank
      && |got| <= |Stored(r.text)| && got == Stored(r.text)[..|got|]
    case Said(Incomplete) => cell != Healthy
    case Said(Complete(q)) => cell == Poisoned && q == Kept(r)
  }

  ghost predicate Inv(s: State) {
    LatchOk(s) && forall j :: 0 <= j < |s.readers| ==> ReaderOk(s.cell, s.record, s.readers[j])
  }

  lemma InitOk(publishers: nat, readers: nat)
    ensures Inv(Init(publishers, readers))
  {}

  lemma FilledStep(t: string, k: nat)
    requires k < |t| < TEXT_BYTES
    ensures Filled(t, k)[k := t[k]] == Filled(t, k + 1)
  {}

  lemma FilledEnd(t: string)
    requires |t| < TEXT_BYTES
    ensures Filled(t, |t|)[|t| := NUL] == Filled(t, |t|)
    ensures forall k :: 0 <= k < |t| ==> Filled(t, |t|)[k] == t[k]
    ensures Filled(t, |t|)[|t|] == NUL
  {}

  /** The winner's own stores. */
  lemma StoreKept(s: State, i: nat)
    requires LatchOk(s) && i < |s.publishers| && Writing(s.publishers[i])
    ensures LatchOk(PublishStep(s, i))
  {
    assert PublisherOk(s.cell, s.winner, i, s.publishers[i]);
    if s.publishers[i].StoringText? {
      TextKept(s.text, s.record.text, s.publishers[i].k);
    }
    hide Filled, Stored;
  }

  lemma TextKept(text: seq<char>, message: string, k: nat)
    requires k <= |Stored(message)| && text == Filled(Stored(message), k)
    ensures |text| == TEXT_BYTES
    ensures k < |Stored(message)| ==> text[k := Stored(message)[k]] == Filled(Stored(message), k + 1)
    ensures k == |Stored(message)| ==> text[k := NUL] == Filled(Stored(message), |Stored(message)|)
  {
    if k < |Stored(message)| { FilledStep(Stored(message), k); } else { FilledEnd(Stored(message)); }
  }

  lemma RaceKept(s: State, i: nat)
    requires LatchOk(s) && i < |s.publishers| && !Writing(s.publishers[i])
    ensures LatchOk(PublishStep(s, i))
  {
    assert PublisherOk(s.cell, s.winner, i, s.publishers[i]);
    if s.publishers[i].Trying? { EmptyText(s.publishers[i].r.text); }
    hide Filled, Stored;
  }

  lemma EmptyText(message: string)
    ensures Filled(Stored(message), 0) == Repeat(NUL, TEXT_BYTES)
  {}

  lemma ReadersKept(s: State, i: nat)
    requires Inv(s) && i < |s.publishers|
    ensures var t := PublishStep(s, i);
      forall j :: 0 <= j < |t.readers| ==> ReaderOk(t.cell, t.record, t.readers[j])
  {
    assert PublisherOk(s.cell, s.winner, i, s.publishers[i]);
    hide Filled, Stored, Holds, Progress;
    forall j | 0 <= j < |s.readers| ensures ReaderOk(PublishStep(s, i).cell, PublishStep(s, i).record, s.readers[j]) {
      assert ReaderOk(s.cell, s.record, s.readers[j]);
    }
  }

  lemma PublishKept(s: State, i: nat)
    requires Inv(s) && i < |s.publishers|
    ensures Inv(PublishStep(s, i))
  {
    ReadersKept(s, i);
    if Writing(s.publishers[i]) { StoreKept(s, i); } else { RaceKept(s, i); }
    hide LatchOk, ReaderOk;
  }

  /** The next character a reader of complete diagnostics meets. */
  lemma NextCharacter(text: seq<char>, message: string, n: nat)
    requires n <= |Stored(message)| && text == Filled(Stored(message), |Stored(message)|)
    ensures |text| == TEXT_BYTES
    ensures n < |Stored(message)| ==> text[n] == Stored(message)[n] != NUL
    ensures n == |Stored(message)| ==> text[n] == NUL
  {
    FilledEnd(Stored(message));
    NoNulInside(Stored(message), n);
  }

  lemma TextLoadKept(s: State, j: nat, expired: bool)
    requires Inv(s) && j < |s.readers| && s.readers[j].LoadingText?
    ensures ReaderOk(s.cell, s.record, ReadStep(s, j, expired).readers[j])
  {
    assert ReaderOk(s.cell, s.record, s.readers[j]);
    NextCharacter(s.text, s.record.text, |s.readers[j].got|);
    hide Filled, Stored;
  }

  lemma ReadKept(s: State, j: nat, expired: bool)
    requires Inv(s) && j < |s.readers|
    ensures Inv(ReadStep(s, j, expired))
  {
    assert ReaderOk(s.cell, s.record, s.readers[j]);
    if s.readers[j].LoadingText? { TextLoadKept(s, j, expired); }
    hide Filled, Stored;
  }

  lemma NoNulInside(t: string, k: nat)
    requires NUL !in t
    ensures k < |t| ==> t[k] != NUL
  {}

  lemma StepKept(s: State, a: Action)
    requires Inv(s)
    ensures Inv(Next(s, a))
  {
    match a
    case Begin(_, _) =>
    case Publish(i) => if i < |s.publishers| { PublishKept(s, i); }
    case Look(_) =>
    case Read(j, expired) => if j < |s.readers| { ReadKept(s, j, expired); }
  }

  lemma {:induction false} RunInv(publishers: nat, readers: nat, schedule: seq<Action>)
    ensures Inv(Run(Init(publishers, readers), schedule))
  {
    hide Inv, Next;
    if |schedule| == 0 {
      InitOk(publishers, readers);
    } else {
      RunInv(publishers, readers, schedule[..|schedule| - 1]);
      StepKept(Run(Init(publishers, readers), schedule[..|schedule| - 1]), schedule[|schedule| - 1]);
    }
  }

  // ----- what the latch promises -----

  function Level(c: Cell): nat { match c case Healthy => 0 case Claimed => 1 case Poisoned => 2 }

  /** One step moves the cell forward by at most one place; the winner and its
      record never change once claimed; and only the winner's steps touch the
      diagnostics, which are frozen once the cell says poisoned. */
  lemma LatchMoves(publishers: nat, readers: nat, schedule: seq<Action>, a: Action)
    ensures var s := Run(Init(publishers, readers), schedule); var t := Next(s, a);
      && Level(s.cell) <= Level(t.cell) <= Level(s.cell) + 1
      && (s.cell != Healthy ==> s.winner.Some? && t.winner == s.winner && t.record == s.record)
      && ((t.code, t.rank, t.text) != (s.code, s.rank, s.text) ==>
            s.cell == Claimed && s.winner.Some? && a == Publish(s.winner.value))
  {
    RunInv(publishers, readers, schedule);
    LatchStep(Run(Init(publishers, readers), schedule), a);
  }

  lemma LatchStep(s: State, a: Action)
    requires LatchOk(s)
    ensures var t := Next(s, a);
      && Level(s.cell) <= Level(t.cell) <= Level(s.cell) + 1
      && (s.cell != Healthy ==> s.winner.Some? && t.winner == s.winner && t.record == s.record)
      && ((t.code, t.rank, t.text) != (s.code, s.rank, s.text) ==>
            s.cell == Claimed && s.winner.Some? && a == Publish(s.winner.value))
  {
    hide Stored, Filled, Progress, Holds;
    if a.Publish? && a.i < |s.publishers| {
      assert PublisherOk(s.cell, s.winner, a.i, s.publishers[a.i]);
    }
  }

  /** A reader of `poison_message` reports the winner's whole record, or says
      that publication did not complete. It never reports a mix. */
  lemma NeverMixed(publishers: nat, readers: nat, schedule: seq<Action>, j: nat)
    ensures var s := Run(Init(publishers, readers), schedule);
      j < |s.readers| && s.readers[j].Said? ==>
        && s.winner.Some?
        && (s.readers[j].report == Incomplete || s.readers[j].report == Complete(Kept(s.record)))
  {
    RunInv(publishers, readers, schedule);
    var s := Run(Init(publishers, readers), schedule);
    assert j < |s.readers| ==> ReaderOk(s.cell, s.record, s.readers[j]);
  }

  /** What is on record is what the winner was asked to record. */
  lemma {:induction false} WinnerAsked(publishers: nat, readers: nat, schedule: seq<Action>)
    ensures var s := Run(Init(publishers, readers), schedule);
      && (s.winner.Some? ==> Begin(s.winner.value, s.record) in schedule)
      && forall i :: 0 <= i < |s.publishers| && s.publishers[i].Trying? ==> Begin(i, s.publishers[i].r) in schedule
  {
    if |schedule| > 0 {
      var n := |schedule| - 1;
      assert schedule == schedule[..n] + [schedule[n]];
      WinnerAsked(publishers, readers, schedule[..n]);
      AskedStep(Run(Init(publishers, readers), schedule[..n]), schedule[..n], schedule[n]);
    }
  }

  lemma AskedStep(s: State, asked: seq<Action>, a: Action)
    requires s.winner.Some? ==> Begin(s.winner.value, s.record) in asked
    requires forall i :: 0 <= i < |s.publishers| && s.publishers[i].Trying? ==> Begin(i, s.publishers[i].r) in asked
    ensures var t := Next(s, a);
      && (t.winner.Some? ==> Begin(t.winner.value, t.record) in asked + [a])
      && forall i :: 0 <= i < |t.publishers| && t.publishers[i].Trying? ==> Begin(i, t.publishers[i].r) in asked + [a]
  {
    hide Stored, Filled;
  }

  /** Own steps left in `publish_poison`. */
  function PublishWay(p: Publisher): nat {
    match p
    case Out => 0
    case Trying(_) => TEXT_BYTES + 4
    case StoringCode(_) => TEXT_BYTES + 3
    case StoringRank(_) => TEXT_BYTES + 2
    case StoringText(r, k) => if k <= |Stored(r.text)| then |Stored(r.text)| - k + 2 else 2
    case Releasing(_) => 1
    case Gone => 0
  }

  /** Nothing holds a publisher up: each own step brings it nearer to its end, when the latch is no longer healthy. */
  lemma PublisherEnds(publishers: nat, readers: nat, schedule: seq<Action>, i: nat)
    ensures var s := Run(Init(publishers, readers), schedule); var t := Next(s, Publish(i));
      && (i < |s.publishers| && s.publishers[i] != Out && s.publishers[i] != Gone ==>
            && i < |t.publishers| && PublishWay(t.publishers[i]) < PublishWay(s.publishers[i])
            && t.publishers[i] != Out)
      && (i < |s.publishers| && s.publishers[i] == Gone ==> s.cell != Healthy)
  {
    RunInv(publishers, readers, schedule);
    var s := Run(Init(publishers, readers), schedule);
    hide Run, LatchOk, PublishStep, PublishWay;
    if i < |s.publishers| && s.publishers[i] != Out { PublishNearer(s, i); }
  }

  lemma PublishNearer(s: State, i: nat)
    requires LatchOk(s) && i < |s.publishers| && s.publishers[i] != Out
    ensures var t := PublishStep(s, i);
      s.publishers[i] == Gone ||
      (i < |t.publishers| && PublishWay(t.publishers[i]) < PublishWay(s.publishers[i]) && t.publishers[i] != Out)
    ensures s.publishers[i] == Gone ==> s.cell != Healthy
  {
    assert PublisherOk(s.cell, s.winner, i, s.publishers[i]);
    if s.publishers[i].StoringText? { TextKept(s.text, s.record.text, s.publishers[i].k); }
    hide Filled, Stored;
  }

  /** A reader that finds the latch no longer healthy begins to read, and then says something: at once when the cell
      is set, and it is the record then; else when its own wait expires. */
  lemma ReaderEnds(publishers: nat, readers: nat, schedule: seq<Action>, j: nat, expired: bool)
    ensures var s := Run(Init(publishers, readers), schedule); j < |s.readers| ==> ReaderGoesOn(s, j, expired)
  {
    RunInv(publishers, readers, schedule);
    var s := Run(Init(publishers, readers), schedule);
    hide Run, LatchOk, ReaderOk, ReaderGoesOn;
    if j < |s.readers| { ReadNearer(s, j, expired); }
  }

  ghost predicate ReaderGoesOn(s: State, j: nat, expired: bool)
    requires j < |s.readers|
  {
    var t := Next(s, Read(j, expired));
    && |t.readers| == |s.readers| == |Next(s, Look(j)).readers|
    && (s.readers[j] == Away && s.cell != Healthy ==> Next(s, Look(j)).readers[j] == Spinning)
    && (s.readers[j] != Away && !s.readers[j].Said? && (expired || s.cell == Poisoned) ==>
          ReadWay(t.readers[j]) < ReadWay(s.readers[j]) && t.readers[j] != Away)
    && (s.cell == Poisoned && t.readers[j] == Said(Incomplete) ==> s.readers[j] == Said(Incomplete))
  }

  lemma ReadNearer(s: State, j: nat, expired: bool)
    requires Inv(s) && j < |s.readers|
    ensures ReaderGoesOn(s, j, expired)
  {
    assert ReaderOk(s.cell, s.record, s.readers[j]);
    if s.readers[j].LoadingText? { NextCharacter(s.text, s.record.text, |s.readers[j].got|); }
    hide LatchOk, Stored, Filled;
  }

  function ReadWay(r: Reader): nat {
    match r
    case Away => 0
    case Spinning => TEXT_BYTES + 5
    case SecondLook => TEXT_BYTES + 4
    case LoadingCode => TEXT_BYTES + 3
    case LoadingRank(_) => TEXT_BYTES + 2
    case LoadingText(_, _, got) => if |got| <= TEXT_BYTES then TEXT_BYTES - |got| + 1 else 1
    case Said(_) => 0
  }

  // ----- the diagnostics in a wait's statistics -----

  /** `wait` copies the poison flag and the diagnostics into its statistics
      without going through `poison_message`. */
  datatype Stats = Stats(poisoned: bool, r: Record)

  /** The text cell read character by character, with steps of others in between. */
  function TextRead(s: State, k: nat, gaps: seq<seq<Action>>): (t: string)
    decreases |s.text| - k
  {
    if k >= |s.text| || s.text[k] == NUL then ""
    else
      var rest := if |gaps| == 0 then s else Run(s, gaps[0]);
      if |rest.text| != |s.text| then [s.text[k]]
      else [s.text[k]] + TextRead(rest, k + 1, if |gaps| == 0 then [] else gaps[1..])
  }

  /** Flag, code, rank and text, with any steps of other threads between the loads. */
  function ReadStats(s: State, g1: seq<Action>, g2: seq<Action>, g3: seq<Action>, gaps: seq<seq<Action>>): (st: Stats) {
    var s1 := Run(s, g1);
    var s2 := Run(s1, g2);
    var s3 := Run(s2, g3);
    Stats(s.cell != Healthy, Record(s1.code, s2.rank, TextRead(s3, 0, gaps)))
  }

  /** The statistics of a healthy region, or of a region poisoned with `r`. */
  ghost predicate Whole(st: Stats, r: Record) {
    st == Stats(false, Record(0, -1, "")) || st == Stats(true, Kept(r))
  }

  /** The loads can be torn apart: flag still clear, code already there. */
  lemma TornStats(r: Record)
    requires r.code != 0
    ensures ReadStats(Init(1, 0), [Begin(0, r), Publish(0), Publish(0)], [], [], [])
         == Stats(false, Record(r.code, -1, ""))
    ensures !Whole(ReadStats(Init(1, 0), [Begin(0, r), Publish(0), Publish(0)], [], [], []), r)
  {
    HealthyTorn(Init(1, 0), [Begin(0, r), Publish(0), Publish(0)], r);
  }

  lemma HealthyTorn(s: State, g: seq<Action>, r: Record)
    requires LatchOk(s) && s.cell == Healthy && |s.publishers| > 0 && r.code != 0
    requires (s.publishers[0] == Out && g == [Begin(0, r), Publish(0), Publish(0)])
          || (s.publishers[0] == Trying(r) && g == [Publish(0), Publish(0)])
    ensures ReadStats(s, g, [], [], []) == Stats(false, Record(r.code, -1, ""))
    ensures Run(s, g).record == r && Run(s, g).cell == Claimed
  {
    var mid := s.(publishers := s.publishers[0 := Trying(r)]);
    if s.publishers[0] == Out {
      assert g[..2] == [Begin(0, r), Publish(0)] && g[..2][..1] == [Begin(0, r)] && g[..2][..1][..0] == [];
      assert Run(s, [Begin(0, r)]) == Next(Run(s, []), Begin(0, r));
      assert Run(s, [Begin(0, r)]) == mid;
      assert Run(s, g[..2]) == Next(mid, Publish(0));
      assert Run(s, g) == Next(Next(mid, Publish(0)), Publish(0));
    } else {
      assert s.publishers[0 := Trying(r)] == s.publishers;
      assert g[..1] == [Publish(0)] && g[..1][..0] == [];
      assert Run(s, g[..1]) == Next(s, Publish(0));
      assert Run(s, g) == Next(Next(s, Publish(0)), Publish(0));
    }
  }

  /** Complete diagnostics stay as they are, even before they are released. */
  lemma HoldsStays(s: State, a: Action)
    requires LatchOk(s) && s.cell != Healthy && Holds(s.code, s.rank, s.text, s.record)
    ensures var t := Next(s, a);
      LatchOk(t) && t.cell != Healthy && t.record == s.record && Holds(t.code, t.rank, t.text, t.record)
  {
    hide Filled, Stored;
    match a
    case Publish(i) =>
      if i < |s.publishers| {
        assert PublisherOk(s.cell, s.winner, i, s.publishers[i]);
        if Writing(s.publishers[i]) {
          StoreKept(s, i);
          if s.publishers[i].StoringText? { HeldText(s.text, s.record.text, s.publishers[i].k); }
        } else {
          RaceKept(s, i);
        }
      }
    case _ =>
  }

  lemma HeldText(text: seq<char>, message: string, k: nat)
    requires k <= |Stored(message)| && text == Filled(Stored(message), |Stored(message)|)
    ensures |text| == TEXT_BYTES
    ensures k < |Stored(message)| ==> text[k := Stored(message)[k]] == text
    ensures k == |Stored(message)| ==> text[k := NUL] == text
  {
    FilledEnd(Stored(message));
  }

  lemma {:induction false} HoldsStaysRun(s: State, g: seq<Action>)
    requires LatchOk(s) && s.cell != Healthy && Holds(s.code, s.rank, s.text, s.record)
    ensures var t := Run(s, g);
      LatchOk(t) && t.cell != Healthy && t.record == s.record && Holds(t.code, t.rank, t.text, t.record)
  {
    hide LatchOk, Holds, Next;
    if |g| > 0 {
      HoldsStaysRun(s, g[..|g| - 1]);
      HoldsStays(Run(s, g[..|g| - 1]), g[|g| - 1]);
    }
  }

  lemma {:induction false} TextReadHeld(s: State, k: nat, gaps: seq<seq<Action>>)
    requires LatchOk(s) && s.cell != Healthy && Holds(s.code, s.rank, s.text, s.record)
    requires k <= |Stored(s.record.text)|
    ensures TextRead(s, k, gaps) == Stored(s.record.text)[k..]
    decreases |Stored(s.record.text)| - k
  {
    hide LatchOk, Run, Stored, Filled;
    NextCharacter(s.text, s.record.text, k);
    if k < |Stored(s.record.text)| {
      if |gaps| > 0 {
        HoldsStaysRun(s, gaps[0]);
        NextCharacter(Run(s, gaps[0]).text, s.record.text, k);
        TextReadHeld(Run(s, gaps[0]), k + 1, gaps[1..]);
      } else {
        TextReadHeld(s, k + 1, []);
      }
    }
  }

  lemma {:induction false} TextReadPartial(s: State, k: nat, n: nat, t: string)
    requires k <= n <= |t| < TEXT_BYTES && NUL !in t && s.text == Filled(t, n)
    ensures TextRead(s, k, []) == t[k..n]
    decreases n - k
  {
    if k < n {
      assert s.text[k] == t[k];
      TextReadPartial(s, k + 1, n, t);
    } else {
      assert s.text[n] == NUL;
    }
  }

  /** Read at a standstill while the winner is still writing, they are torn. */
  lemma ClaimedTorn(s: State)
    requires LatchOk(s) && s.cell == Claimed && !Holds(s.code, s.rank, s.text, s.record)
    ensures !Whole(ReadStats(s, [], [], [], []), s.record)
  {
    var t := Stored(s.record.text);
    var n := match s.publishers[s.winner.value] case StoringText(_, k) => k case _ => 0;
    TextReadPartial(s, 0, n, t);
    hide Stored, Filled;
    assert n == |t| ==> t[0..n] == t;
  }

  ghost predicate AlwaysWhole(s: State) {
    forall g1, g2, g3, gaps ::
      Whole(ReadStats(s, g1, g2, g3, gaps), Run(Run(Run(s, g1), g2), g3).record)
  }

  /** The statistics are whole under every interleaving exactly when, at the load
      of the flag, the winner's record is already complete in the cells (as it
      always is once the cell says poisoned). */
  lemma StatsWholeIff(publishers: nat, readers: nat, schedule: seq<Action>)
    requires publishers > 0
    ensures var s := Run(Init(publishers, readers), schedule);
      && (AlwaysWhole(s) <==> s.cell != Healthy && Holds(s.code, s.rank, s.text, s.record))
      && (s.cell == Poisoned ==> AlwaysWhole(s))
  {
    RunInv(publishers, readers, schedule);
    PublishersStay(publishers, readers, schedule);
    var s := Run(Init(publishers, readers), schedule);
    if s.cell == Healthy {
      SomeTorn(s);
    } else if Holds(s.code, s.rank, s.text, s.record) {
      HeldWhole(s);
    } else {
      ClaimedTorn(s);
      assert !Whole(ReadStats(s, [], [], [], []), Run(Run(Run(s, []), []), []).record);
    }
  }

  lemma {:induction false} PublishersStay(publishers: nat, readers: nat, schedule: seq<Action>)
    ensures |Run(Init(publishers, readers), schedule).publishers| == publishers
  {
    if |schedule| > 0 { PublishersStay(publishers, readers, schedule[..|schedule| - 1]); }
  }

  lemma SomeTorn(s: State)
    requires LatchOk(s) && s.cell == Healthy && |s.publishers| > 0
    ensures !AlwaysWhole(s)
  {
    assert PublisherOk(s.cell, s.winner, 0, s.publishers[0]);
    var r, g;
    if s.publishers[0].Trying? {
      r, g := s.publishers[0].r, [Publish(0), Publish(0)];
    } else {
      r, g := Record(5, 0, ""), [Begin(0, Record(5, 0, "")), Publish(0), Publish(0)];
    }
    HealthyTorn(s, g, r);
    assert !Whole(ReadStats(s, g, [], [], []), Run(Run(Run(s, g), []), []).record);
  }

  lemma HeldWhole(s: State)
    requires LatchOk(s) && s.cell != Healthy && Holds(s.code, s.rank, s.text, s.record)
    ensures AlwaysWhole(s)
  {
    hide LatchOk, Run, Stored, Filled, TextRead;
    forall g1, g2, g3, gaps
      ensures Whole(ReadStats(s, g1, g2, g3, gaps), Run(Run(Run(s, g1), g2), g3).record)
    {
      HoldsStaysRun(s, g1);
      HoldsStaysRun(Run(s, g1), g2);
      HoldsStaysRun(Run(Run(s, g1), g2), g3);
      TextReadHeld(Run(Run(Run(s, g1), g2), g3), 0, gaps);
    }
  }

  // ----- the cells as an object -----

  /** The diagnostic cells, and the two routines run without interruption. */
  class Diagnostics {
    var cell: Cell
    var code: nat
    var rank: int
    const text: array<char>

    constructor ()
      ensures cell == Healthy && code == 0 && rank == -1 && fresh(text)
      ensures text.Length == TEXT_BYTES && text[..] == Repeat(NUL, TEXT_BYTES)
    {
      cell, code, rank := Healthy, 0, -1;
      text := new char[TEXT_BYTES](_ => NUL);
      new;
      assert text[..] == Repeat(NUL, TEXT_BYTES);
    }

    /** `publish_poison`: the first publisher leaves its whole record, every
        later one leaves everything alone. */
    method PublishPoison(newCode: nat, newRank: int, message: string)
      requires text.Length == TEXT_BYTES
      requires cell == Healthy ==> text[..] == Repeat(NUL, TEXT_BYTES)
      modifies this, text
      ensures old(cell) == Healthy ==>
        cell == Poisoned && Holds(code, rank, text[..], Record(newCode, newRank, message))
      ensures old(cell) != Healthy ==> cell == old(cell) && code == old(code) && rank == old(rank)
      ensures old(cell) != Healthy ==> text[..] == old(text[..])
    {
      if cell != Healthy { return; }
      cell := Claimed;
      code := newCode;
      rank := newRank;
      EmptyText(message);
      StoreText(Stored(message));
      cell := Poisoned;
    }

    /** The copy of the text, a character at a time, and its NUL. */
    method StoreText(t: string)
      requires text.Length == TEXT_BYTES && |t| < TEXT_BYTES && text[..] == Filled(t, 0)
      modifies text
      ensures text[..] == Filled(t, |t|)
    {
      hide Filled;
      for k := 0 to |t|
        invariant text[..] == Filled(t, k)
        modifies text
      {
        FilledStep(t, k);
        ghost var next := text[..][k := t[k]];
        text[k] := t[k];
        assert text[..] == next;
      }
      FilledEnd(t);
      ghost var whole := text[..][|t| := NUL];
      text[|t|] := NUL;
      assert text[..] == whole;
    }

    /** `poison_message`; `expired` tells whether the wait for a claimed cell gave up. */
    method PoisonMessage(ghost r: Record) returns (report: Report)
      requires text.Length == TEXT_BYTES
      requires cell == Poisoned ==> Holds(code, rank, text[..], r)
      requires cell != Healthy
      ensures report == if cell == Claimed then Incomplete else Complete(Kept(r))
    {
      if cell == Claimed { return Incomplete; }
      ghost var t := Stored(r.text);
      FilledEnd(t);
      var got := "";
      while |got| < text.Length && text[|got|] != NUL
        invariant |got| <= |t| && got == t[..|got|]
      {
        assert text[..][|got|] == text[|got|];
        got := got + [text[|got|]];
      }
      assert text[..][|got|] == text[|got|];
      NoNulInside(t, |got|);
      report := Complete(Record(code, rank, got));
    }
  }
}
