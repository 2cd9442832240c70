/** Mixture-of-experts dispatch on one rank: the direct form (every token slot
    through its expert) and the sorted form (tokens sorted by expert, run in
    counted segments, scattered back). */
module MoeDispatch {
  import opened Segments

  /** Rows and weights are opaque; `add` is folded over the slots in their order. */
  datatype Layer<!Row, !W> = Layer(
    expert: (nat, Row) -> Row,
    scale: (Row, W) -> Row,
    add: (Row, Row) -> Row,
    zero: Row)

  /** Tokens with the experts and weights of their `k` slots. */
  datatype Batch<Row, W> = Batch(tokens: seq<Row>, ids: seq<seq<nat>>, weights: seq<seq<W>>, k: nat)

  /** The tensor shapes, and expert numbers inside the layer. */
  ghost predicate Routed<Row, W>(b: Batch<Row, W>, experts: nat) {
    && |b.ids| == |b.tokens| == |b.weights|
    && (forall t :: 0 <= t < |b.ids| ==> |b.ids[t]| == b.k)
    && (forall t :: 0 <= t < |b.weights| ==> |b.weights[t]| == b.k)
    && (forall t, j :: 0 <= t < |b.ids| && 0 <= j < |b.ids[t]| ==> b.ids[t][j] < experts)
  }

  ghost predicate DistinctExperts(ids: seq<seq<nat>>) {
    forall t :: 0 <= t < |ids| ==> Distinct(ids[t])
  }

  // ----- the direct form -----

  function WeightedSum<Row, W>(layer: Layer<Row, W>, rows: seq<Row>, weights: seq<W>): Row
    requires |rows| == |weights|
  {
    if |rows| == 0 then layer.zero
    else
      var n := |rows| - 1;
      layer.add(WeightedSum(layer, rows[..n], weights[..n]), layer.scale(rows[n], weights[n]))
  }

  /** One token: its own experts' outputs, weighted and added in slot order. */
  function TokenOutput<Row, W>(layer: Layer<Row, W>, token: Row, ids: seq<nat>, weights: seq<W>): (r: Row)
    requires |ids| == |weights|
  {
    WeightedSum(layer, ExpertOutputs(layer, token, ids), weights)
  }

  function ExpertOutputs<Row, W>(layer: Layer<Row, W>, token: Row, ids: seq<nat>): (rows: seq<Row>) {
    seq(|ids|, j requires 0 <= j < |ids| => layer.expert(ids[j], token))
  }

  function Direct<Row, W>(layer: Layer<Row, W>, b: Batch<Row, W>): (out: seq<Row>)
    requires |b.ids| == |b.tokens| == |b.weights|
    requires forall t :: 0 <= t < |b.ids| ==> |b.ids[t]| == |b.weights[t]|
  {
    seq(|b.tokens|, t requires 0 <= t < |b.tokens| => TokenOutput(layer, b.tokens[t], b.ids[t], b.weights[t]))
  }

  /** The running sums of one token: zero, then slot by slot its expert's output, scaled by its weight, added on. */
  ghost predicate RunningSums<Row, W>(layer: Layer<Row, W>, token: Row, ids: seq<nat>, weights: seq<W>, acc: seq<Row>) {
    && |acc| == |ids| + 1 && |weights| == |ids|
    && acc[0] == layer.zero
    && forall j :: 0 <= j < |ids| ==>
         acc[j + 1] == layer.add(acc[j], layer.scale(layer.expert(ids[j], token), weights[j]))
  }

  ghost predicate SumsPerToken<Row(!new), W>(layer: Layer<Row, W>, b: Batch<Row, W>, out: seq<Row>) {
    && |out| == |b.tokens| == |b.ids| == |b.weights|
    && forall t :: 0 <= t < |out| ==>
         exists acc :: RunningSums(layer, b.tokens[t], b.ids[t], b.weights[t], acc) && acc[|acc| - 1] == out[t]
  }

  lemma {:induction false} TokenSums<Row, W>(layer: Layer<Row, W>, token: Row, ids: seq<nat>, weights: seq<W>)
    returns (acc: seq<Row>)
    requires |ids| == |weights|
    ensures RunningSums(layer, token, ids, weights, acc)
    ensures acc[|acc| - 1] == TokenOutput(layer, token, ids, weights)
  {
    if |ids| == 0 { return [layer.zero]; }
    var n := |ids| - 1;
    var rows := ExpertOutputs(layer, token, ids);
    assert rows[..n] == ExpertOutputs(layer, token, ids[..n]);
    var earlier := TokenSums(layer, token, ids[..n], weights[..n]);
    acc := earlier + [layer.add(earlier[n], layer.scale(rows[n], weights[n]))];
    forall j | 0 <= j < |ids|
      ensures acc[j + 1] == layer.add(acc[j], layer.scale(layer.expert(ids[j], token), weights[j]))
    {
      if j < n { assert ids[..n][j] == ids[j] && weights[..n][j] == weights[j]; }
    }
  }

  /** The direct form adds up each token's own slots, in their order. */
  lemma DirectSums<Row(!new), W>(layer: Layer<Row, W>, b: Batch<Row, W>)
    requires |b.ids| == |b.tokens| == |b.weights|
    requires forall t :: 0 <= t < |b.ids| ==> |b.ids[t]| == |b.weights[t]|
    ensures SumsPerToken(layer, b, Direct(layer, b))
  {
    forall t | 0 <= t < |b.tokens|
      ensures exists acc ::
        RunningSums(layer, b.tokens[t], b.ids[t], b.weights[t], acc) && acc[|acc| - 1] == Direct(layer, b)[t]
    {
      var acc := TokenSums(layer, b.tokens[t], b.ids[t], b.weights[t]);
    }
  }

  // ----- the flattened view -----

  /** `topk_ids.view(-1)` */
  function Flat(ids: seq<seq<nat>>): seq<nat> { Concat(ids) }

  lemma {:induction false} FlatAt(ids: seq<seq<nat>>, k: nat, t: nat, j: nat)
    requires forall t :: 0 <= t < |ids| ==> |ids[t]| == k
    requires t < |ids| && j < k
    ensures |Flat(ids)| == |ids| * k
    ensures 0 <= t * k + j < |ids| * k
    ensures Flat(ids)[t * k + j] == ids[t][j]
  {
    FlatLength(ids, k);
    var n := |ids| - 1;
    FlatLength(ids[..n], k);
    if t < n {
      FlatAt(ids[..n], k, t, j);
    }
  }

  lemma {:induction false} FlatLength(ids: seq<seq<nat>>, k: nat)
    requires forall t :: 0 <= t < |ids| ==> |ids[t]| == k
    ensures |Flat(ids)| == |ids| * k
  {
    if |ids| > 0 {
      FlatLength(ids[..|ids| - 1], k);
      assert |ids| * k == (|ids| - 1) * k + k;
    }
  }

  lemma ProductMonotone(a: nat, b: nat, k: nat)
    ensures a <= b ==> a * k <= b * k
  {
    if a <= b { assert (b - a) * k >= 0; }
  }

  lemma SlotOf(p: nat, n: nat, k: nat)
    requires p < n * k
    ensures k > 0 && p / k < n && p % k < k && p == (p / k) * k + p % k
  {
    assert k != 0;
    ProductMonotone(n, p / k, k);
  }

  lemma TokenOf(t: nat, j: nat, k: nat)
    requires j < k
    ensures (t * k + j) / k == t
  {
    var q := (t * k + j) / k;
    ProductMonotone(t + 1, q, k);
    ProductMonotone(q + 1, t, k);
  }

  /** The weighted reduction of the flat rows `view`ed as tokens by slots. */
  function Combine<Row, W>(layer: Layer<Row, W>, rows: seq<Row>, weights: seq<seq<W>>, k: nat): (out: seq<Row>)
    requires |rows| == |weights| * k
    requires forall t :: 0 <= t < |weights| ==> |weights[t]| == k
  {
    seq(|weights|, t requires 0 <= t < |weights| =>
      SlotRange(t, |weights|, k);
      WeightedSum(layer, rows[t * k..(t + 1) * k], weights[t]))
  }

  lemma SlotRange(t: nat, n: nat, k: nat)
    requires t < n
    ensures 0 <= t * k && t * k + k == (t + 1) * k <= n * k
  {
    ProductMonotone(t + 1, n, k);
    assert (t + 1) * k == t * k + k;
  }

  /** Every flat slot holds its own expert's output for its own token. */
  ghost predicate SlotOutputs<Row, W>(layer: Layer<Row, W>, b: Batch<Row, W>, rows: seq<Row>) {
    |rows| == |b.tokens| * b.k && |b.tokens| == |b.ids| &&
    forall t, j :: 0 <= t < |b.ids| && 0 <= j < |b.ids[t]| && 0 <= t * b.k + j < |rows| ==>
      rows[t * b.k + j] == layer.expert(b.ids[t][j], b.tokens[t])
  }

  lemma CombineSlots<Row(!new), W>(layer: Layer<Row, W>, b: Batch<Row, W>, experts: nat, rows: seq<Row>)
    requires Routed(b, experts) && SlotOutputs(layer, b, rows)
    ensures Combine(layer, rows, b.weights, b.k) == Direct(layer, b)
    ensures SumsPerToken(layer, b, Combine(layer, rows, b.weights, b.k))
  {
    CombineIsDirect(layer, b, experts, rows);
    DirectSums(layer, b);
    hide Combine, Direct, SumsPerToken, RunningSums;
  }

  lemma CombineIsDirect<Row, W>(layer: Layer<Row, W>, b: Batch<Row, W>, experts: nat, rows: seq<Row>)
    requires Routed(b, experts) && SlotOutputs(layer, b, rows)
    ensures Combine(layer, rows, b.weights, b.k) == Direct(layer, b)
  {
    forall t | 0 <= t < |b.tokens|
      ensures Combine(layer, rows, b.weights, b.k)[t] == Direct(layer, b)[t]
    {
      CombineOneToken(layer, b, rows, t);
    }
  }

  lemma CombineOneToken<Row, W>(layer: Layer<Row, W>, b: Batch<Row, W>, rows: seq<Row>, t: nat)
    requires SlotOutputs(layer, b, rows)
    requires t < |b.ids| && t < |b.weights| && |b.ids[t]| == |b.weights[t]| == b.k
    ensures 0 <= t * b.k <= (t + 1) * b.k <= |rows|
    ensures (t + 1) * b.k - t * b.k == b.k
    ensures WeightedSum(layer, rows[t * b.k..(t + 1) * b.k], b.weights[t])
         == TokenOutput(layer, b.tokens[t], b.ids[t], b.weights[t])
  {
    SlotRange(t, |b.tokens|, b.k);
    assert rows[t * b.k..(t + 1) * b.k] == ExpertOutputs(layer, b.tokens[t], b.ids[t]);
  }

  ghost predicate FlatOutputs<Row, W>(layer: Layer<Row, W>, b: Batch<Row, W>, rows: seq<Row>) {
    |rows| == |Flat(b.ids)| &&
    forall p :: 0 <= p < |rows| ==>
      b.k > 0 && p / b.k < |b.tokens| && rows[p] == layer.expert(Flat(b.ids)[p], b.tokens[p / b.k])
  }

  lemma BatchedSlots<Row, W>(layer: Layer<Row, W>, b: Batch<Row, W>, experts: nat, rows: seq<Row>)
    requires Routed(b, experts) && FlatOutputs(layer, b, rows)
    ensures SlotOutputs(layer, b, rows)
  {
    FlatLength(b.ids, b.k);
    forall t, j | 0 <= t < |b.ids| && 0 <= j < |b.ids[t]|
      ensures 0 <= t * b.k + j < |rows| && rows[t * b.k + j] == layer.expert(b.ids[t][j], b.tokens[t])
    {
      FlatAt(b.ids, b.k, t, j);
      TokenOf(t, j, b.k);
    }
  }

  // ----- counting tokens per expert -----

  /** Column `e` of the 0/1 matrix, summed over the tokens: a token that names
      an expert twice is counted once. */
  function TokensNaming(ids: seq<seq<nat>>, e: nat): nat {
    if |ids| == 0 then 0
    else TokensNaming(ids[..|ids| - 1], e) + (if e in ids[|ids| - 1] then 1 else 0)
  }

  function TokensPerExpert(ids: seq<seq<nat>>, experts: nat): (counts: seq<nat>) {
    seq(experts, e requires 0 <= e < experts => TokensNaming(ids, e))
  }

  lemma {:induction false} OccursOnce(s: seq<nat>, e: nat)
    requires Distinct(s)
    ensures multiset(s)[e] == if e in s then 1 else 0
  {
    if |s| > 0 {
      var n := |s| - 1;
      OccursOnce(s[..n], e);
      assert s == s[..n] + [s[n]];
    }
  }

  lemma {:induction false} CountsAtMostFrequency(ids: seq<seq<nat>>, e: nat)
    ensures TokensNaming(ids, e) <= multiset(Flat(ids))[e]
    ensures DistinctExperts(ids) ==> TokensNaming(ids, e) == multiset(Flat(ids))[e]
  {
    if |ids| > 0 {
      var n := |ids| - 1;
      CountsAtMostFrequency(ids[..n], e);
      assert e in ids[n] ==> multiset(ids[n])[e] >= 1;
      if Distinct(ids[n]) { OccursOnce(ids[n], e); }
      assert DistinctExperts(ids) ==> DistinctExperts(ids[..n]) && Distinct(ids[n]);
      assert multiset(Flat(ids)) == multiset(Flat(ids[..n])) + multiset(ids[n]);
    }
  }

  /** Naming an expert twice in one token makes its count too small. */
  lemma {:induction false} RepeatUndercounts(ids: seq<seq<nat>>, t: nat, i: nat, j: nat)
    requires t < |ids| && i < j < |ids[t]| && ids[t][i] == ids[t][j]
    ensures TokensNaming(ids, ids[t][i]) < multiset(Flat(ids))[ids[t][i]]
  {
    var n, e := |ids| - 1, ids[t][i];
    CountsAtMostFrequency(ids[..n], e);
    assert multiset(Flat(ids)) == multiset(Flat(ids[..n])) + multiset(ids[n]);
    if t < n {
      RepeatUndercounts(ids[..n], t, i, j);
      assert e in ids[n] ==> multiset(ids[n])[e] >= 1;
    } else {
      var row := ids[n];
      assert row == row[..j] + row[j..];
      assert row[..j][i] == e && row[j..][0] == e;
      assert e in multiset(row[..j]) && e in multiset(row[j..]);
    }
  }

  ghost function Frequencies(keys: seq<nat>, experts: nat): (counts: seq<nat>) {
    seq(experts, e requires 0 <= e < experts => Occurrences(keys, e))
  }

  ghost predicate InRange(keys: seq<nat>, experts: nat) {
    forall i :: 0 <= i < |keys| ==> keys[i] < experts
  }

  lemma {:induction false} FlatInRange(ids: seq<seq<nat>>, experts: nat)
    requires forall t, j :: 0 <= t < |ids| && 0 <= j < |ids[t]| ==> ids[t][j] < experts
    ensures InRange(Flat(ids), experts)
  {
    if |ids| > 0 { FlatInRange(ids[..|ids| - 1], experts); }
  }

  /** The counts add up to the number of slots exactly when no token repeats an expert. */
  lemma CountsComplete(ids: seq<seq<nat>>, experts: nat)
    requires InRange(Flat(ids), experts)
    ensures Sum(TokensPerExpert(ids, experts)) <= |Flat(ids)|
    ensures Sum(TokensPerExpert(ids, experts)) == |Flat(ids)| <==> DistinctExperts(ids)
    ensures DistinctExperts(ids) ==> TokensPerExpert(ids, experts) == Frequencies(Flat(ids), experts)
  {
    var counts, freq := TokensPerExpert(ids, experts), Frequencies(Flat(ids), experts);
    forall e | 0 <= e < experts
      ensures counts[e] <= freq[e] && (DistinctExperts(ids) ==> counts[e] == freq[e])
    {
      CountsAtMostFrequency(ids, e);
    }
    SumBounds(counts, freq);
    FrequenciesAddUp(Flat(ids), freq);
    assert DistinctExperts(ids) ==> counts == freq;
    if !DistinctExperts(ids) {
      var t :| 0 <= t < |ids| && !Distinct(ids[t]);
      var i, j :| 0 <= i < j < |ids[t]| && ids[t][i] == ids[t][j];
      RepeatUndercounts(ids, t, i, j);
      RepeatedInFlat(ids, t, i);
      assert counts[ids[t][i]] < freq[ids[t][i]];
    }
  }

  lemma {:induction false} RepeatedInFlat(ids: seq<seq<nat>>, t: nat, i: nat)
    requires t < |ids| && i < |ids[t]|
    ensures ids[t][i] in Flat(ids)
  {
    if t < |ids| - 1 { RepeatedInFlat(ids[..|ids| - 1], t, i); }
  }

  // ----- the sorted form -----

  function ApplyExpert<Row, W>(layer: Layer<Row, W>, e: nat, block: seq<Row>): (out: seq<Row>) {
    seq(|block|, i requires 0 <= i < |block| => layer.expert(e, block[i]))
  }

  /** Row `i` through expert `first + keys[i]`. */
  function Apply<Row, W>(layer: Layer<Row, W>, first: nat, keys: seq<nat>, rows: seq<Row>): (out: seq<Row>)
    requires |keys| == |rows|
  {
    seq(|rows|, i requires 0 <= i < |rows| => layer.expert(first + keys[i], rows[i]))
  }

  /** The loop over experts: each takes the next `counts[i]` rows. */
  method RunSegments<Row, W>(layer: Layer<Row, W>, first: nat, counts: seq<nat>, sortedRows: seq<Row>)
    returns (outs: seq<Row>)
    requires Sum(counts) <= |sortedRows|
    ensures |Expand(counts)| == Sum(counts)
    ensures outs == Apply(layer, first, Expand(counts), sortedRows[..Sum(counts)])
  {
    hide Expand, Sum;
    outs := [];
    var start := 0;
    ExpandNone(counts);
    for i := 0 to |counts|
      invariant start == Sum(counts[..i]) == |Expand(counts[..i])| <= |sortedRows|
      invariant outs == Apply(layer, first, Expand(counts[..i]), sortedRows[..start])
    {
      ExpandStep(counts, i);
      var end := start + counts[i];
      if counts[i] == 0 {
        assert Repeat(i, 0) == [];
        continue;
      }
      var block := sortedRows[start..end];
      ApplySegment(layer, first, Expand(counts[..i]), sortedRows[..start], i, block);
      assert sortedRows[..end] == sortedRows[..start] + block;
      outs := outs + ApplyExpert(layer, first + i, block);
      start := end;
    }
    assert counts[..|counts|] == counts;
  }

  lemma ExpandNone(counts: seq<nat>)
    ensures Expand(counts[..0]) == [] && Sum(counts[..0]) == 0
  {}

  lemma {:induction false} ExpandStep(counts: seq<nat>, i: nat)
    requires i < |counts|
    ensures Expand(counts[..i + 1]) == Expand(counts[..i]) + Repeat(i, counts[i])
    ensures Sum(counts[..i + 1]) == Sum(counts[..i]) + counts[i] <= Sum(counts)
  {
    assert counts[..i + 1][..i] == counts[..i];
    SumPrefix(counts, i + 1);
  }

  lemma ApplySegment<Row, W>(layer: Layer<Row, W>, first: nat, keys: seq<nat>, rows: seq<Row>, e: nat, block: seq<Row>)
    requires |keys| == |rows|
    ensures Apply(layer, first, keys, rows) + ApplyExpert(layer, first + e, block)
         == Apply(layer, first, keys + Repeat(e, |block|), rows + block)
  {}

  /** `new_x = empty_like(outs); new_x[idxs] = outs` */
  method Scatter<Row(0)>(idxs: seq<nat>, outs: seq<Row>) returns (newX: seq<Row>)
    requires Permutation(idxs, |outs|)
    ensures |newX| == |outs|
    ensures forall i :: 0 <= i < |idxs| ==> newX[idxs[i]] == outs[i]
  {
    var a := new Row[|outs|];
    for i := 0 to |idxs|
      invariant forall j :: 0 <= j < i ==> a[idxs[j]] == outs[j]
    {
      a[idxs[i]] := outs[i];
    }
    newX := a[..];
  }

  /** Outputs computed in sorted order and scattered back are the outputs of the unsorted rows. */
  lemma ScatterUndoesSort<Row, W>(layer: Layer<Row, W>, first: nat, keys: seq<nat>, rows: seq<Row>,
                                  idxs: seq<nat>, newX: seq<Row>)
    requires |keys| == |rows| == |newX| && Permutation(idxs, |keys|)
    requires forall i :: 0 <= i < |idxs| ==>
      newX[idxs[i]] == Apply(layer, first, Gather(keys, idxs), Gather(rows, idxs))[i]
    ensures newX == Apply(layer, first, keys, rows)
  {
    forall p | 0 <= p < |newX|
      ensures newX[p] == Apply(layer, first, keys, rows)[p]
    {
      PermutationCovers(idxs, |keys|, p);
    }
  }

  /** `x` repeated once per slot: row `p` is the token of slot `p`. */
  function SlotTokens<Row, W>(b: Batch<Row, W>): (rows: seq<Row>)
    requires |b.ids| == |b.tokens|
  {
    seq(|b.tokens| * b.k, p requires 0 <= p < |b.tokens| * b.k =>
      SlotOf(p, |b.tokens|, b.k);
      b.tokens[p / b.k])
  }

  /** `x[idxs // k]` */
  function SortedTokens<Row, W>(b: Batch<Row, W>, idxs: seq<nat>): (rows: seq<Row>)
    requires forall i :: 0 <= i < |idxs| ==> idxs[i] < |b.tokens| * b.k
    requires |b.ids| == |b.tokens|
    ensures rows == Gather(SlotTokens(b), idxs)
  {
    seq(|idxs|, i requires 0 <= i < |idxs| =>
      SlotOf(idxs[i], |b.tokens|, b.k);
      b.tokens[idxs[i] / b.k])
  }

  /** The reduction that ends every sorted form: `view` of the slots as tokens
      by `k` is ambiguous, and refused, when there are no slots. */
  function Finish<Row, W>(layer: Layer<Row, W>, b: Batch<Row, W>, newX: seq<Row>): (r: Option<seq<Row>>)
    requires |newX| == |b.weights| * b.k
    requires forall t :: 0 <= t < |b.weights| ==> |b.weights[t]| == b.k
  {
    if |newX| == 0 then None else Some(Combine(layer, newX, b.weights, b.k))
  }

  lemma AppliedSlots<Row(!new), W>(layer: Layer<Row, W>, b: Batch<Row, W>, experts: nat)
    requires Routed(b, experts)
    ensures |Flat(b.ids)| == |b.tokens| * b.k
    ensures Combine(layer, Apply(layer, 0, Flat(b.ids), SlotTokens(b)), b.weights, b.k) == Direct(layer, b)
  {
    FlatLength(b.ids, b.k);
    var rows := Apply(layer, 0, Flat(b.ids), SlotTokens(b));
    forall p | 0 <= p < |rows|
      ensures b.k > 0 && p / b.k < |b.tokens|
    {
      SlotOf(p, |b.tokens|, b.k);
    }
    BatchedSlots(layer, b, experts, rows);
    CombineSlots(layer, b, experts, rows);
  }

  /** The batched form: experts gathered per slot, tokens repeated `k` times,
      one batched product, no sorting and no restriction on the expert choice. */
  function MoeBatched<Row(!new), W>(layer: Layer<Row, W>, b: Batch<Row, W>, experts: nat): (out: seq<Row>)
    requires Routed(b, experts)
    ensures out == Direct(layer, b) && SumsPerToken(layer, b, out)
  {
    AppliedSlots(layer, b, experts);
    DirectSums(layer, b);
    Combine(layer, Apply(layer, 0, Flat(b.ids), SlotTokens(b)), b.weights, b.k)
  }

  /** Counting, sorting, running segments and scattering back, for whatever
      sorting permutation `argsort` returned. It fails with a shape error
      exactly for an empty batch or a token that repeats an expert. */
  method MoeInfer<Row(0,!new), W>(layer: Layer<Row, W>, b: Batch<Row, W>, experts: nat, idxs: seq<nat>)
    returns (r: Option<seq<Row>>)
    requires Routed(b, experts) && IsArgsort(Flat(b.ids), idxs)
    ensures r.Some? <==> |b.tokens| > 0 && b.k > 0 && DistinctExperts(b.ids)
    ensures r.Some? ==> r.value == Direct(layer, b) && SumsPerToken(layer, b, r.value)
  {
    DirectSums(layer, b);
    FlatLength(b.ids, b.k);
    FlatInRange(b.ids, experts);
    CountsComplete(b.ids, experts);
    var counts := TokensPerExpert(b.ids, experts);
    var sortedRows := SortedTokens(b, idxs);
    var outs := RunSegments(layer, 0, counts, sortedRows);
    if |outs| != |idxs| { return None; }
    SortedKeys(b.ids, experts, idxs);
    assert sortedRows[..Sum(counts)] == sortedRows;
    var newX := Scatter(idxs, outs);
    ScatterUndoesSort(layer, 0, Flat(b.ids), SlotTokens(b), idxs, newX);
    AppliedSlots(layer, b, experts);
    SlotCount(|b.tokens|, b.k);
    r := Finish(layer, b, newX);
  }

  /** One token that names expert 0 in both of its slots. */
  function RepeatedExpert<Row, W>(token: Row, v: W, w: W): Batch<Row, W> {
    Batch([token], [[0, 0]], [[v, w]], 2)
  }

  lemma RepeatedExpertRouted<Row, W>(token: Row, v: W, w: W)
    ensures var b := RepeatedExpert(token, v, w);
      Routed(b, 1) && IsArgsort(Flat(b.ids), [0, 1]) && !DistinctExperts(b.ids)
  {
    var b := RepeatedExpert(token, v, w);
    assert b.ids[0][0] == b.ids[0][1];
    assert Flat(b.ids[..0]) == [] && Flat(b.ids) == [0, 0] && Gather([0, 0], [0, 1]) == [0, 0];
  }

  lemma RepeatedExpertOut<Row, W>(layer: Layer<Row, W>, token: Row, v: W, w: W)
    ensures Routed(RepeatedExpert(token, v, w), 1)
    ensures var x := layer.expert(0, token);
      Direct(layer, RepeatedExpert(token, v, w))
      == [layer.add(layer.add(layer.zero, layer.scale(x, v)), layer.scale(x, w))]
  {
    var x := layer.expert(0, token);
    assert ExpertOutputs(layer, token, [0, 0]) == [x, x];
    assert [x, x][..1] == [x] && [v, w][..1] == [v] && [x][..0] == [] && [v][..0] == [];
    assert WeightedSum(layer, [], []) == layer.zero;
    assert WeightedSum(layer, [x], [v]) == layer.add(layer.zero, layer.scale(x, v));
  }

  /** Here the two forms part: the sorted one is refused, the batched one gives
      the token through the expert twice. */
  method FormsDiffer<Row(0,!new), W>(layer: Layer<Row, W>, token: Row, v: W, w: W)
    returns (sorted: Option<seq<Row>>, batched: seq<Row>)
    ensures sorted == None
    ensures var x := layer.expert(0, token);
      batched == [layer.add(layer.add(layer.zero, layer.scale(x, v)), layer.scale(x, w))]
  {
    hide Routed, IsArgsort, DistinctExperts, Direct, RepeatedExpert;
    RepeatedExpertRouted(token, v, w);
    RepeatedExpertOut(layer, token, v, w);
    var b := RepeatedExpert(token, v, w);
    sorted := MoeInfer(layer, b, 1, [0, 1]);
    batched := MoeBatched(layer, b, 1);
  }

  lemma SlotCount(n: nat, k: nat)
    ensures n * k > 0 <==> n > 0 && k > 0
  {}

  /** With distinct experts per token, each counted segment of the sorted order
      is exactly the run of that expert's slots. */
  lemma SortedKeys(ids: seq<seq<nat>>, experts: nat, idxs: seq<nat>)
    requires InRange(Flat(ids), experts) && DistinctExperts(ids) && IsArgsort(Flat(ids), idxs)
    ensures Expand(TokensPerExpert(ids, experts)) == Gather(Flat(ids), idxs)
  {
    CountsComplete(ids, experts);
    SegmentsOf(Flat(ids), experts, idxs);
  }

  lemma SegmentsOf(keys: seq<nat>, experts: nat, idxs: seq<nat>)
    requires InRange(keys, experts) && IsArgsort(keys, idxs)
    ensures Expand(Frequencies(keys, experts)) == Gather(keys, idxs)
  {
    GatherKeeps(keys, idxs);
    SegmentsAreRuns(Gather(keys, idxs), Frequencies(keys, experts));
  }
}
