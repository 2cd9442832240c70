/** Expert-parallel dispatch: the experts are spread over ranks, rows travel to
    the owners of their experts and back through two all-to-all exchanges. */
module ExpertParallel {
  import opened Segments
  import opened MoeDispatch

  /** How the call ends on one rank. */
  datatype Outcome<+Row> =
    | Returned(rows: seq<Row>)
    | ShapeError
    | WaitsForever  // the exchange never completes, because another rank raised before entering it

  // ----- views and exchanges -----

  ghost predicate AllOfLength<T>(blocks: seq<seq<T>>, n: nat) {
    forall i :: 0 <= i < |blocks| ==> |blocks[i]| == n
  }

  function Block<T>(flat: seq<T>, rows: nat, width: nat, i: nat): (block: seq<T>)
    requires |flat| == rows * width && i < rows
    ensures |block| == width
  {
    SlotRange(i, rows, width);
    flat[i * width..(i + 1) * width]
  }

  /** `flat.view(rows, -1)` */
  function View<T>(flat: seq<T>, rows: nat, width: nat): (blocks: seq<seq<T>>)
    requires |flat| == rows * width
    ensures |blocks| == rows && AllOfLength(blocks, width)
  {
    seq(rows, i requires 0 <= i < rows => Block(flat, rows, width, i))
  }

  /** A block transpose: what rank `d` receives from rank `s` is what `s` holds for `d`. */
  function Exchange<T>(send: seq<seq<T>>): (received: seq<seq<T>>)
    requires AllOfLength(send, |send|)
    ensures AllOfLength(received, |send|) && |received| == |send|
  {
    seq(|send|, d requires 0 <= d < |send| => seq(|send|, s requires 0 <= s < |send| => send[s][d]))
  }

  function Sums(blocks: seq<seq<nat>>): (r: seq<nat>)
    ensures |r| == |blocks| && forall i :: 0 <= i < |r| ==> r[i] == Sum(blocks[i])
  {
    seq(|blocks|, i requires 0 <= i < |blocks| => Sum(blocks[i]))
  }

  /** `group.view(ep_size, experts_per_rank).sum(dim=0)[g]` */
  function ColumnSum(blocks: seq<seq<nat>>, g: nat): nat
    requires forall i :: 0 <= i < |blocks| ==> g < |blocks[i]|
  {
    if |blocks| == 0 then 0 else ColumnSum(blocks[..|blocks| - 1], g) + blocks[|blocks| - 1][g]
  }

  lemma {:induction false} ConcatOfLength<T>(blocks: seq<seq<T>>, width: nat)
    requires AllOfLength(blocks, width)
    ensures |Concat(blocks)| == |blocks| * width
  {
    if |blocks| > 0 {
      ConcatOfLength(blocks[..|blocks| - 1], width);
      assert |blocks| * width == (|blocks| - 1) * width + width;
    }
  }

  lemma {:induction false} ConcatBlock<T>(blocks: seq<seq<T>>, width: nat, i: nat)
    requires AllOfLength(blocks, width) && i < |blocks|
    ensures 0 <= i * width <= (i + 1) * width <= |Concat(blocks)|
    ensures Concat(blocks)[i * width..(i + 1) * width] == blocks[i]
  {
    var n := |blocks| - 1;
    ConcatOfLength(blocks, width);
    ConcatOfLength(blocks[..n], width);
    SlotRange(i, |blocks|, width);
    if i < n {
      ConcatBlock(blocks[..n], width, i);
    }
  }

  lemma ViewConcat<T>(blocks: seq<seq<T>>, width: nat)
    requires AllOfLength(blocks, width)
    ensures |Concat(blocks)| == |blocks| * width
    ensures View(Concat(blocks), |blocks|, width) == blocks
  {
    ConcatOfLength(blocks, width);
    forall i | 0 <= i < |blocks| ensures View(Concat(blocks), |blocks|, width)[i] == blocks[i] {
      ConcatBlock(blocks, width, i);
    }
  }

  lemma {:induction false} ConcatView<T>(flat: seq<T>, rows: nat, width: nat)
    requires |flat| == rows * width
    ensures Concat(View(flat, rows, width)) == flat
  {
    if rows > 0 {
      SlotRange(rows - 1, rows, width);
      var cut := (rows - 1) * width;
      ConcatView(flat[..cut], rows - 1, width);
      ViewPrefix(flat, rows, width);
      assert flat == flat[..cut] + flat[cut..];
    } else {
      assert rows * width == 0;
    }
  }

  lemma ViewPrefix<T>(flat: seq<T>, rows: nat, width: nat)
    requires |flat| == rows * width && rows > 0
    ensures 0 <= (rows - 1) * width <= |flat|
    ensures View(flat, rows, width)[..rows - 1] == View(flat[..(rows - 1) * width], rows - 1, width)
  {
    SlotRange(rows - 1, rows, width);
    forall i | 0 <= i < rows - 1
      ensures View(flat, rows, width)[i] == View(flat[..(rows - 1) * width], rows - 1, width)[i]
    {
      SlotRange(i, rows - 1, width);
    }
  }

  // ----- expert numbers block by block -----

  function Shift(base: nat, keys: seq<nat>): (r: seq<nat>) {
    seq(|keys|, i requires 0 <= i < |keys| => base + keys[i])
  }

  function Locals(keys: seq<nat>, width: nat): (r: seq<nat>)
    requires width > 0
  {
    seq(|keys|, i requires 0 <= i < |keys| => keys[i] % width)
  }

  function ExpandEach(blocks: seq<seq<nat>>): (r: seq<seq<nat>>)
    ensures |r| == |blocks| && forall i :: 0 <= i < |r| ==> r[i] == Expand(blocks[i])
  {
    seq(|blocks|, i requires 0 <= i < |blocks| => Expand(blocks[i]))
  }

  lemma {:induction false} ExpandAppend(a: seq<nat>, b: seq<nat>)
    ensures Expand(a + b) == Expand(a) + Shift(|a|, Expand(b))
  {
    if |b| == 0 {
      assert a + b == a;
    } else {
      var n := |b| - 1;
      ExpandAppend(a, b[..n]);
      assert (a + b)[..|a + b| - 1] == a + b[..n];
      assert Shift(|a|, Expand(b)) == Shift(|a|, Expand(b[..n])) + Repeat(|a| + n, b[n]);
    }
  }

  /** Remainders of the expert numbers received are the senders' local segments, end to end. */
  lemma {:induction false} LocalKeys(blocks: seq<seq<nat>>, width: nat)
    requires width > 0 && AllOfLength(blocks, width)
    ensures Locals(Expand(Concat(blocks)), width) == Concat(ExpandEach(blocks))
  {
    if |blocks| > 0 {
      var n := |blocks| - 1;
      LocalKeys(blocks[..n], width);
      ConcatOfLength(blocks[..n], width);
      ExpandAppend(Concat(blocks[..n]), blocks[n]);
      ExpandSorted(blocks[n]);
      assert ExpandEach(blocks)[..n] == ExpandEach(blocks[..n]);
      LocalsAppend(Expand(Concat(blocks[..n])), Shift(n * width, Expand(blocks[n])), width);
      LocalsUnshift(n, width, Expand(blocks[n]));
    }
  }

  lemma LocalsAppend(a: seq<nat>, b: seq<nat>, width: nat)
    requires width > 0
    ensures Locals(a + b, width) == Locals(a, width) + Locals(b, width)
  {}

  lemma LocalsUnshift(n: nat, width: nat, keys: seq<nat>)
    requires width > 0 && InRange(keys, width)
    ensures 0 <= n * width
    ensures Locals(Shift(n * width, keys), width) == keys
  {
    forall i | 0 <= i < |keys| ensures (n * width + keys[i]) % width == keys[i] {
      Remainder(n, width, keys[i]);
    }
  }

  lemma Remainder(n: nat, width: nat, g: nat)
    requires g < width
    ensures (n * width + g) % width == g
  {
    TokenOf(n, g, width);
  }

  lemma {:induction false} LocalFrequency(blocks: seq<seq<nat>>, width: nat, g: nat)
    requires AllOfLength(blocks, width) && g < width
    ensures Occurrences(Concat(ExpandEach(blocks)), g) == ColumnSum(blocks, g)
  {
    if |blocks| > 0 {
      var n := |blocks| - 1;
      LocalFrequency(blocks[..n], width, g);
      ExpandCounts(blocks[n], g);
      assert ExpandEach(blocks)[..n] == ExpandEach(blocks[..n]);
      OccurrencesAppend(Concat(ExpandEach(blocks[..n])), Expand(blocks[n]), g);
    }
  }

  lemma OccurrencesAppend(a: seq<nat>, b: seq<nat>, g: nat)
    ensures Occurrences(a + b, g) == Occurrences(a, g) + Occurrences(b, g)
  {}

  lemma {:induction false} LocalsInRange(blocks: seq<seq<nat>>, width: nat)
    requires AllOfLength(blocks, width)
    ensures InRange(Concat(ExpandEach(blocks)), width)
  {
    if |blocks| > 0 {
      var n := |blocks| - 1;
      LocalsInRange(blocks[..n], width);
      ExpandSorted(blocks[n]);
      assert ExpandEach(blocks)[..n] == ExpandEach(blocks[..n]);
    }
  }

  // ----- applying experts block by block -----

  ghost predicate SameShape<S, T>(a: seq<seq<S>>, b: seq<seq<T>>) {
    |a| == |b| && forall i :: 0 <= i < |a| ==> |a[i]| == |b[i]|
  }

  lemma {:induction false} SameShapeConcat<S, T>(a: seq<seq<S>>, b: seq<seq<T>>)
    requires SameShape(a, b)
    ensures |Concat(a)| == |Concat(b)|
  {
    if |a| > 0 { SameShapeConcat(a[..|a| - 1], b[..|b| - 1]); }
  }

  /** Each block of rows through the experts its own block of keys names. */
  ghost function ApplyEach<Row, W>(layer: Layer<Row, W>, first: nat, step: nat,
                                   keys: seq<seq<nat>>, rows: seq<seq<Row>>): (r: seq<seq<Row>>)
    requires SameShape(keys, rows)
    ensures SameShape(r, rows)
    ensures forall i :: 0 <= i < |r| ==> r[i] == Apply(layer, first + i * step, keys[i], rows[i])
  {
    seq(|rows|, i requires 0 <= i < |rows| => Apply(layer, first + i * step, keys[i], rows[i]))
  }

  lemma ApplyAppend<Row, W>(layer: Layer<Row, W>, first: nat, k1: seq<nat>, r1: seq<Row>, k2: seq<nat>, r2: seq<Row>)
    requires |k1| == |r1| && |k2| == |r2|
    ensures Apply(layer, first, k1 + k2, r1 + r2) == Apply(layer, first, k1, r1) + Apply(layer, first, k2, r2)
  {}

  lemma ApplyShift<Row, W>(layer: Layer<Row, W>, base: nat, keys: seq<nat>, rows: seq<Row>)
    requires |keys| == |rows|
    ensures Apply(layer, 0, Shift(base, keys), rows) == Apply(layer, base, keys, rows)
  {}

  /** The last block of keys and rows, and the ones before it. */
  lemma ApplyEachLast<Row, W>(layer: Layer<Row, W>, first: nat, step: nat, keys: seq<seq<nat>>, rows: seq<seq<Row>>)
    requires SameShape(keys, rows) && |keys| > 0
    ensures var n := |keys| - 1;
      && SameShape(keys[..n], rows[..n])
      && Concat(ApplyEach(layer, first, step, keys, rows))
         == Concat(ApplyEach(layer, first, step, keys[..n], rows[..n]))
            + Apply(layer, first + n * step, keys[n], rows[n])
  {
    var n := |keys| - 1;
    assert ApplyEach(layer, first, step, keys, rows)[..n] == ApplyEach(layer, first, step, keys[..n], rows[..n]);
  }

  /** The rows one owner receives, taken block by block. */
  lemma {:induction false} OwnerBlocks<Row, W>(layer: Layer<Row, W>, first: nat,
                                               keys: seq<seq<nat>>, rows: seq<seq<Row>>)
    requires SameShape(keys, rows)
    ensures |Concat(keys)| == |Concat(rows)|
    ensures Apply(layer, first, Concat(keys), Concat(rows)) == Concat(ApplyEach(layer, first, 0, keys, rows))
  {
    SameShapeConcat(keys, rows);
    if |keys| > 0 {
      var n := |keys| - 1;
      OwnerBlocks(layer, first, keys[..n], rows[..n]);
      ApplyAppend(layer, first, Concat(keys[..n]), Concat(rows[..n]), keys[n], rows[n]);
      ApplyEachLast(layer, first, 0, keys, rows);
    }
  }

  /** The rows one sender gets back, taken owner by owner: local numbers become global ones. */
  lemma {:induction false} SenderBlocks<Row, W>(layer: Layer<Row, W>, width: nat,
                                                counts: seq<seq<nat>>, rows: seq<seq<Row>>)
    requires AllOfLength(counts, width) && SameShape(ExpandEach(counts), rows)
    ensures |Expand(Concat(counts))| == |Concat(rows)|
    ensures Apply(layer, 0, Expand(Concat(counts)), Concat(rows))
         == Concat(ApplyEach(layer, 0, width, ExpandEach(counts), rows))
  {
    if |counts| > 0 {
      var n := |counts| - 1;
      assert ExpandEach(counts)[..n] == ExpandEach(counts[..n]);
      ApplyEachLast(layer, 0, width, ExpandEach(counts), rows);
      SenderBlocks(layer, width, counts[..n], rows[..n]);
      GlobalNumbers(counts, width);
      hide Apply, Expand, Shift;
      ApplyAppend(layer, 0, Expand(Concat(counts[..n])), Concat(rows[..n]),
                  Shift(n * width, Expand(counts[n])), rows[n]);
      ApplyShift(layer, n * width, Expand(counts[n]), rows[n]);
    }
  }

  /** The last owner's experts are numbered after all the others'. */
  lemma GlobalNumbers(counts: seq<seq<nat>>, width: nat)
    requires AllOfLength(counts, width) && |counts| > 0
    ensures var n := |counts| - 1;
      0 <= n * width && |Shift(n * width, Expand(counts[n]))| == |Expand(counts[n])|
      && Expand(Concat(counts)) == Expand(Concat(counts[..n])) + Shift(n * width, Expand(counts[n]))
  {
    var n := |counts| - 1;
    ConcatOfLength(counts[..n], width);
    ExpandAppend(Concat(counts[..n]), counts[n]);
  }

  // ----- one rank's share of the work -----

  /** The loop that labels every received row with its local expert number. */
  method LabelReceived(group: seq<nat>, width: nat) returns (keys: seq<nat>)
    requires width > 0
    ensures keys == Locals(Expand(group), width)
  {
    ExpandLength(group);
    var labels := new nat[Sum(group)];
    var s := 0;
    for i := 0 to |group|
      invariant s == Sum(group[..i]) == |Expand(group[..i])| <= labels.Length
      invariant labels[..s] == Locals(Expand(group[..i]), width)
    {
      assert group[..i + 1][..i] == group[..i];
      SumPrefix(group, i + 1);
      var k := group[i];
      ghost var before := labels[..s];
      for j := 0 to k
        invariant s + k <= labels.Length
        invariant labels[..s + j] == before + Repeat(i % width, j)
      {
        labels[s + j] := i % width;
        assert Repeat(i % width, j + 1) == Repeat(i % width, j) + [i % width];
        assert labels[..s + j + 1] == labels[..s + j] + [i % width];
      }
      s := s + k;
    }
    assert group[..|group|] == group;
    keys := labels[..];
  }

  /** Any sorting permutation on any rank, in particular an unstable one. */
  ghost predicate Sorts(argsort: (nat, seq<nat>) -> seq<nat>) {
    forall rank, keys :: IsArgsort(keys, argsort(rank, keys))
  }

  /** Label, sort, run the local experts, and put the outputs back in the
      order the rows were received. */
  method RunLocalExperts<Row(0), W>(layer: Layer<Row, W>, first: nat, width: nat,
                                    blocks: seq<seq<nat>>, gathered: seq<Row>,
                                    rank: nat, argsort: (nat, seq<nat>) -> seq<nat>) returns (newX: seq<Row>)
    requires width > 0 && AllOfLength(blocks, width)
    requires |gathered| == Sum(Concat(blocks))
    requires Sorts(argsort)
    ensures |Concat(ExpandEach(blocks))| == |gathered|
    ensures newX == Apply(layer, first, Concat(ExpandEach(blocks)), gathered)
  {
    ExpandLength(Concat(blocks));
    LocalKeys(blocks, width);
    var keys := LabelReceived(Concat(blocks), width);
    var idxs := argsort(rank, keys);
    assert IsArgsort(keys, idxs);
    var counts := ColumnSums(blocks, width);
    ColumnSumsAreFrequencies(blocks, width);
    SegmentsOf(keys, width, idxs);
    var sortedRows := Gather(gathered, idxs);
    ExpandLength(counts);
    assert sortedRows[..Sum(counts)] == sortedRows;
    var outs := RunSegments(layer, first, counts, sortedRows);
    newX := Scatter(idxs, outs);
    ScatterUndoesSort(layer, first, keys, gathered, idxs, newX);
  }

  function ColumnSums(blocks: seq<seq<nat>>, width: nat): (counts: seq<nat>)
    requires AllOfLength(blocks, width)
  {
    seq(width, g requires 0 <= g < width => ColumnSum(blocks, g))
  }

  lemma ColumnSumsAreFrequencies(blocks: seq<seq<nat>>, width: nat)
    requires AllOfLength(blocks, width)
    ensures InRange(Concat(ExpandEach(blocks)), width)
    ensures ColumnSums(blocks, width) == Frequencies(Concat(ExpandEach(blocks)), width)
  {
    LocalsInRange(blocks, width);
    var keys := Concat(ExpandEach(blocks));
    forall g: nat | g < width ensures ColumnSums(blocks, width)[g] == Frequencies(keys, width)[g] {
      LocalFrequency(blocks, width, g);
    }
  }

  // ----- all ranks together -----

  lemma {:induction false} SumConcat(blocks: seq<seq<nat>>)
    ensures Sum(Concat(blocks)) == Sum(Sums(blocks))
  {
    if |blocks| > 0 {
      var n := |blocks| - 1;
      SumConcat(blocks[..n]);
      assert Sums(blocks)[..n] == Sums(blocks[..n]);
      SumAppend(Concat(blocks[..n]), blocks[n]);
    }
  }

  lemma {:induction false} SumAppend(a: seq<nat>, b: seq<nat>)
    ensures Sum(a + b) == Sum(a) + Sum(b)
  {
    if |b| == 0 {
      assert a + b == a;
    } else {
      SumAppend(a, b[..|b| - 1]);
      assert (a + b)[..|a + b| - 1] == a + b[..|b| - 1];
    }
  }

  /** The sizes one rank announces are the sizes of the blocks it sends. */
  lemma BlocksSent<T>(rows: seq<T>, counts: seq<seq<nat>>)
    requires Sum(Concat(counts)) == |rows|
    ensures Sum(Sums(counts)) == |rows|
    ensures SameShape(ExpandEach(counts), Split(rows, Sums(counts)))
    ensures Concat(Split(rows, Sums(counts))) == rows
  {
    SumConcat(counts);
    SplitLengths(rows, Sums(counts));
    forall d | 0 <= d < |counts| ensures |Expand(counts[d])| == |Split(rows, Sums(counts))[d]| {
      ExpandLength(counts[d]);
      assert Lengths(Split(rows, Sums(counts)))[d] == Sums(counts)[d];
    }
  }

  /** What one owner returns, block by block. */
  lemma OwnerReturns<Row, W>(layer: Layer<Row, W>, first: nat, group: seq<seq<nat>>, received: seq<seq<Row>>)
    requires SameShape(ExpandEach(group), received)
    ensures |Concat(ExpandEach(group))| == |Concat(received)| == Sum(Sums(group)) == Sum(Concat(group))
    ensures Split(Apply(layer, first, Concat(ExpandEach(group)), Concat(received)), Sums(group))
         == ApplyEach(layer, first, 0, ExpandEach(group), received)
  {
    OwnerBlocks(layer, first, ExpandEach(group), received);
    var blocks := ApplyEach(layer, first, 0, ExpandEach(group), received);
    SplitConcat(blocks);
    SumConcat(group);
    forall s | 0 <= s < |group| ensures Lengths(blocks)[s] == Sums(group)[s] {
      ExpandLength(group[s]);
    }
    assert Lengths(blocks) == Sums(group);
  }

  /** Sorted rows cut into one block per owner, or nothing when `split` is
      given sizes that do not add up. */
  function Outgoing<Row>(sortedRows: seq<Row>, sizes: seq<nat>): (r: Option<seq<seq<Row>>>)
    ensures r.Some? <==> Sum(sizes) == |sortedRows|
    ensures r.Some? ==> |r.value| == |sizes|
  {
    if Sum(sizes) != |sortedRows| then None else Some(Split(sortedRows, sizes))
  }

  /** Counts viewed as one block of local experts per owner. */
  function CountBlocks<Row, W>(b: Batch<Row, W>, ranks: nat, width: nat): (blocks: seq<seq<nat>>)
    ensures |blocks| == ranks && AllOfLength(blocks, width)
  {
    View(TokensPerExpert(b.ids, ranks * width), ranks, width)
  }

  lemma RankPrepared<Row, W>(b: Batch<Row, W>, ranks: nat, width: nat, idxs: seq<nat>)
    requires Routed(b, ranks * width) && IsArgsort(Flat(b.ids), idxs)
    ensures |Flat(b.ids)| == |b.tokens| * b.k
    ensures Sum(Sums(CountBlocks(b, ranks, width))) == |Flat(b.ids)| <==> DistinctExperts(b.ids)
    ensures DistinctExperts(b.ids) ==>
      Expand(Concat(CountBlocks(b, ranks, width))) == Gather(Flat(b.ids), idxs)
  {
    var blocks := CountBlocks(b, ranks, width);
    FlatLength(b.ids, b.k);
    FlatInRange(b.ids, ranks * width);
    ConcatView(TokensPerExpert(b.ids, ranks * width), ranks, width);
    SumConcat(blocks);
    CountsComplete(b.ids, ranks * width);
    if DistinctExperts(b.ids) { SortedKeys(b.ids, ranks * width, idxs); }
  }

  ghost predicate AllDistinct<Row, W>(batches: seq<Batch<Row, W>>) {
    forall r :: 0 <= r < |batches| ==> DistinctExperts(batches[r].ids)
  }

  /** What the call does on one rank, told without any exchange: a rank that
      repeats an expert in a token raises and strands the others; otherwise
      every rank with slots gets the direct form of its own batch. */
  ghost function Expected<Row, W>(layer: Layer<Row, W>, batches: seq<Batch<Row, W>>, rank: nat,
                                  experts: nat): (r: Outcome<Row>)
    requires rank < |batches| && Routed(batches[rank], experts)
  {
    var b := batches[rank];
    if !AllDistinct(batches) then
      if DistinctExperts(b.ids) then WaitsForever else ShapeError
    else if |b.tokens| * b.k == 0 then ShapeError
    else Returned(Direct(layer, b))
  }

  /** The blocks every rank gets back are its own rows through their global experts. */
  ghost predicate BroughtHome<Row, W>(layer: Layer<Row, W>, width: nat, counts: seq<seq<seq<nat>>>,
                                      rows: seq<seq<seq<Row>>>, back: seq<seq<seq<Row>>>)
  {
    |back| == |rows| == |counts| &&
    forall r :: 0 <= r < |back| ==>
      SameShape(ExpandEach(counts[r]), rows[r]) && back[r] == ApplyEach(layer, 0, width, ExpandEach(counts[r]), rows[r])
  }

  /** One owner's turn: run what was received and cut it for the way back. */
  method RunOwner<Row(0), W>(layer: Layer<Row, W>, d: nat, width: nat, group: seq<seq<nat>>,
                             received: seq<seq<Row>>, argsort: (nat, seq<nat>) -> seq<nat>)
    returns (blocks: seq<seq<Row>>)
    requires width > 0 && Sorts(argsort)
    requires AllOfLength(group, width) && SameShape(ExpandEach(group), received)
    ensures blocks == ApplyEach(layer, d * width, 0, ExpandEach(group), received)
  {
    OwnerReturns(layer, d * width, group, received);
    var newX := RunLocalExperts(layer, d * width, width, group, Concat(received), d, argsort);
    blocks := Split(newX, Sums(group));
  }

  ghost predicate OwnersDone<Row, W>(layer: Layer<Row, W>, width: nat, groups: seq<seq<seq<nat>>>,
                                     received: seq<seq<seq<Row>>>, returned: seq<seq<seq<Row>>>)
  {
    |returned| <= |groups| == |received| &&
    forall d :: 0 <= d < |returned| ==>
      SameShape(ExpandEach(groups[d]), received[d]) &&
      returned[d] == ApplyEach(layer, d * width, 0, ExpandEach(groups[d]), received[d])
  }

  ghost predicate Matching<Row>(counts: seq<seq<seq<nat>>>, rows: seq<seq<seq<Row>>>, width: nat) {
    && |rows| == |counts|
    && AllOfLength(rows, |rows|) && AllOfLength(counts, |rows|)
    && (forall r :: 0 <= r < |rows| ==> AllOfLength(counts[r], width) && SameShape(ExpandEach(counts[r]), rows[r]))
  }

  /** An exchange of sizes and an exchange of rows agree at the receiver. */
  lemma SizesAgree<Row>(counts: seq<seq<seq<nat>>>, rows: seq<seq<seq<Row>>>, width: nat)
    requires Matching(counts, rows, width)
    ensures Matching(Exchange(counts), Exchange(rows), width)
  {
    var groups, received := Exchange(counts), Exchange(rows);
    forall d, s | 0 <= d < |rows| && 0 <= s < |rows|
      ensures |groups[d][s]| == width && |ExpandEach(groups[d])[s]| == |received[d][s]|
    {
      assert groups[d][s] == counts[s][d] && received[d][s] == rows[s][d];
      assert ExpandEach(counts[s])[d] == Expand(counts[s][d]);
    }
  }

  lemma ExchangedBack<Row, W>(layer: Layer<Row, W>, width: nat, counts: seq<seq<seq<nat>>>,
                              rows: seq<seq<seq<Row>>>, returned: seq<seq<seq<Row>>>)
    requires Matching(counts, rows, width) && |returned| == |rows|
    requires OwnersDone(layer, width, Exchange(counts), Exchange(rows), returned)
    ensures AllOfLength(returned, |returned|)
    ensures BroughtHome(layer, width, counts, rows, Exchange(returned))
  {
    forall r | 0 <= r < |rows|
      ensures Exchange(returned)[r] == ApplyEach(layer, 0, width, ExpandEach(counts[r]), rows[r])
    {
      forall d | 0 <= d < |rows|
        ensures Exchange(returned)[r][d] == ApplyEach(layer, 0, width, ExpandEach(counts[r]), rows[r])[d]
      {
        assert Exchange(returned)[r][d] == returned[d][r];
        assert Exchange(counts)[d][r] == counts[r][d] && Exchange(rows)[d][r] == rows[r][d];
      }
    }
  }

  /** Exchange, the owners' work, exchange back. */
  method ExchangeAndRun<Row(0), W>(layer: Layer<Row, W>, width: nat, counts: seq<seq<seq<nat>>>,
                                   rows: seq<seq<seq<Row>>>, argsort: (nat, seq<nat>) -> seq<nat>)
    returns (back: seq<seq<seq<Row>>>)
    requires width > 0 && Sorts(argsort)
    requires Matching(counts, rows, width)
    ensures BroughtHome(layer, width, counts, rows, back)
  {
    SizesAgree(counts, rows, width);
    var groups := Exchange(counts);
    var received := Exchange(rows);
    var returned: seq<seq<seq<Row>>> := [];
    for d := 0 to |rows|
      invariant |returned| == d && OwnersDone(layer, width, groups, received, returned)
    {
      // the counts arrive end to end and are viewed as one row per sender
      ViewConcat(groups[d], width);
      var group := View(Concat(groups[d]), |rows|, width);
      var blocks := RunOwner(layer, d, width, group, received[d], argsort);
      returned := returned + [blocks];
    }
    ExchangedBack(layer, width, counts, rows, returned);
    back := Exchange(returned);
  }

  /** Everything a rank does before the rows travel. */
  method Prepare<Row, W>(b: Batch<Row, W>, ranks: nat, width: nat, rank: nat, argsort: (nat, seq<nat>) -> seq<nat>)
    returns (blocks: seq<seq<nat>>, idxs: seq<nat>, rows: Option<seq<seq<Row>>>)
    requires Routed(b, ranks * width) && Sorts(argsort)
    ensures |blocks| == ranks && AllOfLength(blocks, width)
    ensures Cut(b, blocks, idxs, rows)
  {
    idxs := argsort(rank, Flat(b.ids));
    assert IsArgsort(Flat(b.ids), idxs);
    RankPrepared(b, ranks, width, idxs);
    blocks := CountBlocks(b, ranks, width);
    CutHere(b, ranks, width, idxs);
    rows := Outgoing(SortedTokens(b, idxs), Sums(blocks));
  }

  /** Everything a rank does once its rows are back. */
  method Conclude<Row(0,!new), W>(layer: Layer<Row, W>, b: Batch<Row, W>, width: nat, experts: nat,
                                  counts: seq<seq<nat>>, idxs: seq<nat>, rows: seq<seq<Row>>, back: seq<seq<Row>>)
    returns (y: Outcome<Row>)
    requires Routed(b, experts) && Cut(b, counts, idxs, Some(rows)) && AllOfLength(counts, width)
    requires back == ApplyEach(layer, 0, width, ExpandEach(counts), rows)
    ensures y == if |b.tokens| * b.k == 0 then ShapeError else Returned(Direct(layer, b))
  {
    Home(layer, b, width, counts, idxs, rows, back);
    var newX := Scatter(idxs, Concat(back));
    ScatterUndoesSort(layer, 0, Flat(b.ids), SlotTokens(b), idxs, newX);
    AppliedSlots(layer, b, experts);
    match Finish(layer, b, newX)
    case None => y := ShapeError;
    case Some(out) => y := Returned(out);
  }

  ghost predicate AllRouted<Row, W>(batches: seq<Batch<Row, W>>, experts: nat) {
    forall r :: 0 <= r < |batches| ==> Routed(batches[r], experts)
  }

  ghost predicate AllCut<Row, W>(batches: seq<Batch<Row, W>>, width: nat, counts: seq<seq<seq<nat>>>,
                                 idxs: seq<seq<nat>>, rows: seq<Option<seq<seq<Row>>>>, n: nat)
  {
    n == |counts| == |idxs| == |rows| <= |batches| &&
    forall r :: 0 <= r < n ==>
      && |counts[r]| == |batches|
      && AllOfLength(counts[r], width)
      && Cut(batches[r], counts[r], idxs[r], rows[r])
  }

  lemma AllMatching<Row, W>(batches: seq<Batch<Row, W>>, width: nat, counts: seq<seq<seq<nat>>>,
                            idxs: seq<seq<nat>>, rows: seq<Option<seq<seq<Row>>>>, sent: seq<seq<seq<Row>>>)
    requires AllCut(batches, width, counts, idxs, rows, |batches|)
    requires |sent| == |rows| && forall r :: 0 <= r < |sent| ==> rows[r] == Some(sent[r])
    ensures Matching(counts, sent, width) && AllDistinct(batches)
  {
    assert forall r :: 0 <= r < |sent| ==> |ExpandEach(counts[r])| == |batches|;
  }

  /** All ranks of one `moe_infer` call, in lock step at the collectives. */
  method MoeInferParallel<Row(0,!new), W>(layer: Layer<Row, W>, width: nat, batches: seq<Batch<Row, W>>,
                                     argsort: (nat, seq<nat>) -> seq<nat>)
    returns (outcomes: seq<Outcome<Row>>)
    requires width > 0 && Sorts(argsort)
    requires AllRouted(batches, |batches| * width)
    ensures |outcomes| == |batches|
    ensures forall r :: 0 <= r < |batches| ==> outcomes[r] == Expected(layer, batches, r, |batches| * width)
    ensures forall r :: 0 <= r < |batches| && outcomes[r].Returned? ==>
      SumsPerToken(layer, batches[r], outcomes[r].rows)
  {
    forall r | 0 <= r < |batches| ensures SumsPerToken(layer, batches[r], Direct(layer, batches[r])) {
      DirectSums(layer, batches[r]);
    }
    var counts, idxs, rows := PrepareAll(batches, width, argsort);
    if exists r :: 0 <= r < |rows| && rows[r].None? {
      outcomes := Stranded(batches, width, counts, idxs, rows);
    } else {
      var sent := seq(|rows|, r requires 0 <= r < |rows| && rows[r].Some? => rows[r].value);
      AllMatching(batches, width, counts, idxs, rows, sent);
      var back := ExchangeAndRun(layer, width, counts, sent, argsort);
      outcomes := ConcludeAll(layer, batches, width, counts, idxs, sent, back);
    }
  }

  method PrepareAll<Row, W>(batches: seq<Batch<Row, W>>, width: nat, argsort: (nat, seq<nat>) -> seq<nat>)
    returns (counts: seq<seq<seq<nat>>>, idxs: seq<seq<nat>>, rows: seq<Option<seq<seq<Row>>>>)
    requires Sorts(argsort) && AllRouted(batches, |batches| * width)
    ensures AllCut(batches, width, counts, idxs, rows, |batches|)
  {
    hide Cut, Routed;
    counts, idxs, rows := [], [], [];
    for r := 0 to |batches|
      invariant AllCut(batches, width, counts, idxs, rows, r)
    {
      var blocks, order, outgoing := Prepare(batches[r], |batches|, width, r, argsort);
      counts, idxs, rows := counts + [blocks], idxs + [order], rows + [outgoing];
    }
  }

  method ConcludeAll<Row(0,!new), W>(layer: Layer<Row, W>, batches: seq<Batch<Row, W>>, width: nat,
                                counts: seq<seq<seq<nat>>>, idxs: seq<seq<nat>>,
                                sent: seq<seq<seq<Row>>>, back: seq<seq<seq<Row>>>)
    returns (outcomes: seq<Outcome<Row>>)
    requires AllRouted(batches, |batches| * width) && AllDistinct(batches)
    requires |sent| == |counts| == |idxs| == |batches|
    requires forall r :: 0 <= r < |batches| ==>
      AllOfLength(counts[r], width) && Cut(batches[r], counts[r], idxs[r], Some(sent[r]))
    requires BroughtHome(layer, width, counts, sent, back)
    ensures |outcomes| == |batches|
    ensures forall r :: 0 <= r < |batches| ==> outcomes[r] == Expected(layer, batches, r, |batches| * width)
  {
    hide Cut, Routed;
    outcomes := [];
    for r := 0 to |batches|
      invariant |outcomes| == r
      invariant forall i :: 0 <= i < r ==> outcomes[i] == Expected(layer, batches, i, |batches| * width)
    {
      var y := Conclude(layer, batches[r], width, |batches| * width, counts[r], idxs[r], sent[r], back[r]);
      outcomes := outcomes + [y];
    }
  }

  /** Some rank's `split` raised before the exchange of rows. */
  method Stranded<Row, W>(batches: seq<Batch<Row, W>>, width: nat, counts: seq<seq<seq<nat>>>,
                          idxs: seq<seq<nat>>, rows: seq<Option<seq<seq<Row>>>>) returns (outcomes: seq<Outcome<Row>>)
    requires AllCut(batches, width, counts, idxs, rows, |batches|)
    requires exists r :: 0 <= r < |rows| && rows[r].None?
    ensures !AllDistinct(batches) && |outcomes| == |batches|
    ensures forall r :: 0 <= r < |batches| ==>
      outcomes[r] == if DistinctExperts(batches[r].ids) then WaitsForever else ShapeError
  {
    var bad :| 0 <= bad < |rows| && rows[bad].None?;
    assert !DistinctExperts(batches[bad].ids);
    outcomes := seq(|rows|, r requires 0 <= r < |rows| => if rows[r].None? then ShapeError else WaitsForever);
  }

  /** One rank's rows, sorted and cut for the owners. */
  ghost predicate Cut<Row, W>(b: Batch<Row, W>, counts: seq<seq<nat>>, idxs: seq<nat>, rows: Option<seq<seq<Row>>>) {
    && |b.ids| == |b.tokens|
    && Permutation(idxs, |b.tokens| * b.k)
    && |Flat(b.ids)| == |b.tokens| * b.k
    && (rows.Some? <==> DistinctExperts(b.ids))
    && (rows.Some? ==>
          && SameShape(ExpandEach(counts), rows.value)
          && Expand(Concat(counts)) == Gather(Flat(b.ids), idxs)
          && Concat(rows.value) == Gather(SlotTokens(b), idxs))
  }

  lemma CutHere<Row, W>(b: Batch<Row, W>, ranks: nat, width: nat, idxs: seq<nat>)
    requires Routed(b, ranks * width) && IsArgsort(Flat(b.ids), idxs)
    ensures |Flat(b.ids)| == |b.tokens| * b.k
    ensures var blocks := CountBlocks(b, ranks, width);
      Cut(b, blocks, idxs, Outgoing(SortedTokens(b, idxs), Sums(blocks)))
  {
    RankPrepared(b, ranks, width, idxs);
    var blocks := CountBlocks(b, ranks, width);
    SumConcat(blocks);
    if DistinctExperts(b.ids) { BlocksSent(SortedTokens(b, idxs), blocks); }
  }

  lemma Home<Row, W>(layer: Layer<Row, W>, b: Batch<Row, W>, width: nat, counts: seq<seq<nat>>,
                     idxs: seq<nat>, rows: seq<seq<Row>>, back: seq<seq<Row>>)
    requires Cut(b, counts, idxs, Some(rows)) && AllOfLength(counts, width)
    requires back == ApplyEach(layer, 0, width, ExpandEach(counts), rows)
    ensures Concat(back) == Apply(layer, 0, Gather(Flat(b.ids), idxs), Gather(SlotTokens(b), idxs))
  {
    SenderBlocks(layer, width, counts, rows);
  }
}
