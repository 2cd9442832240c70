/** The group-limited gate: per token, pick the groups with the largest top-two
    sums, then the `topK` best experts among them, and weight them. */
module MoeGate {
  import opened Segments
  import opened MoeDispatch

  /** A score for choosing, or the fill value of the mask. */
  datatype Score = NegInf | Fin(value: real)

  predicate Below(a: Score, b: Score) {
    a.NegInf? || (b.Fin? && a.value <= b.value)
  }

  datatype Config = Config(
    sigmoid: bool,     // scoring_func == "sigmoid"
    noauxTc: bool,     // topk_method == "noaux_tc"
    experts: nat,
    groups: nat,
    topGroups: nat,
    topK: nat,
    normalise: bool,
    scaling: real)

  /** What `topk(k)` promises: `k` different positions, none beaten from outside; ties in any order. */
  ghost predicate IsTopK(values: seq<Score>, k: nat, idx: seq<nat>) {
    && |idx| == k && Distinct(idx) && InRange(idx, |values|)
    && forall i, j :: i in idx && 0 <= j < |values| && j !in idx ==> Below(values[j], values[i])
  }

  ghost predicate Selects(topk: (seq<Score>, nat) -> seq<nat>) {
    forall values, k: nat :: k <= |values| ==> IsTopK(values, k, topk(values, k))
  }

  /** The configurations on which no tensor operation is refused. */
  predicate Accepted(c: Config) {
    && c.sigmoid && c.noauxTc
    && c.groups > 0 && c.experts % c.groups == 0 && c.experts / c.groups >= 2
    && c.topGroups <= c.groups && c.topK <= c.experts
  }

  function Width(c: Config): (w: nat)
    requires Accepted(c)
    ensures w >= 2 && w * c.groups == c.experts
  {
    c.experts / c.groups
  }

  function GroupOf(c: Config, e: nat): (g: nat)
    requires Accepted(c) && e < c.experts
    ensures g < c.groups
  {
    SlotOf(e, c.groups, Width(c));
    e / Width(c)
  }

  function Adjusted(scores: seq<real>, bias: seq<real>): (choice: seq<real>)
    requires |scores| == |bias|
  {
    seq(|scores|, i requires 0 <= i < |scores| => scores[i] + bias[i])
  }

  // ----- what the choice means -----

  function GroupRow(c: Config, choice: seq<real>, g: nat): (row: seq<real>)
    requires Accepted(c) && |choice| == c.experts && g < c.groups
    ensures |row| == Width(c)
  {
    SlotRange(g, c.groups, Width(c));
    choice[g * Width(c)..(g + 1) * Width(c)]
  }

  /** `s` is the sum of the two best scores of the row. */
  ghost predicate TopTwoSum(row: seq<real>, s: real) {
    && (exists a, b :: 0 <= a < |row| && 0 <= b < |row| && a != b && s == row[a] + row[b])
    && (forall a, b :: 0 <= a < |row| && 0 <= b < |row| && a != b ==> row[a] + row[b] <= s)
  }

  /** `groups` are the `topGroups` groups with the largest top-two sums. */
  ghost predicate BestGroups(c: Config, choice: seq<real>, groups: seq<nat>)
    requires Accepted(c) && |choice| == c.experts
  {
    && |groups| == c.topGroups && Distinct(groups) && InRange(groups, c.groups)
    && forall i, h, s, t ::
         0 <= i < |groups| && 0 <= h < c.groups && h !in groups &&
         TopTwoSum(GroupRow(c, choice, groups[i]), s) && TopTwoSum(GroupRow(c, choice, h), t)
         ==> t <= s
  }

  predicate Allowed(c: Config, groups: seq<nat>, e: nat)
    requires Accepted(c) && e < c.experts
  {
    GroupOf(c, e) in groups
  }

  /** `ids` are the `topK` best experts of the chosen groups. */
  ghost predicate BestExperts(c: Config, choice: seq<real>, groups: seq<nat>, ids: seq<nat>)
    requires Accepted(c) && |choice| == c.experts
  {
    && |ids| == c.topK && Distinct(ids) && InRange(ids, c.experts)
    && (forall i :: 0 <= i < |ids| ==> Allowed(c, groups, ids[i]))
    && (forall i, e :: 0 <= i < |ids| && 0 <= e < c.experts && Allowed(c, groups, e) && e !in ids ==>
          choice[e] <= choice[ids[i]])
  }

  // ----- counting the experts of the chosen groups -----

  /** The experts of the chosen groups, listed. */
  ghost function Members(groups: seq<nat>, width: nat): (r: seq<nat>) {
    seq(|groups| * width, p requires 0 <= p < |groups| * width =>
      SlotOf(p, |groups|, width);
      groups[p / width] * width + p % width)
  }

  lemma MembersListed(c: Config, groups: seq<nat>)
    requires Accepted(c) && Distinct(groups) && InRange(groups, c.groups)
    ensures |Members(groups, Width(c))| == |groups| * Width(c)
    ensures Distinct(Members(groups, Width(c)))
    ensures InRange(Members(groups, Width(c)), c.experts)
    ensures forall p :: 0 <= p < |Members(groups, Width(c))| ==> Allowed(c, groups, Members(groups, Width(c))[p])
    ensures forall e: nat :: e < c.experts && Allowed(c, groups, e) ==> e in Members(groups, Width(c))
  {
    var w := Width(c);
    var members := Members(groups, w);
    forall p | 0 <= p < |members| ensures members[p] < c.experts && Allowed(c, groups, members[p]) {
      MemberAt(c, groups, p);
    }
    forall p, q | 0 <= p < q < |members| ensures members[p] != members[q] {
      MembersDiffer(c, groups, p, q);
    }
    forall e: nat | e < c.experts && Allowed(c, groups, e) ensures e in members {
      MemberFound(c, groups, e);
    }
  }

  lemma MemberAt(c: Config, groups: seq<nat>, p: nat)
    requires Accepted(c) && InRange(groups, c.groups) && p < |groups| * Width(c)
    ensures p / Width(c) < |groups| && Members(groups, Width(c))[p] < c.experts
    ensures GroupOf(c, Members(groups, Width(c))[p]) == groups[p / Width(c)]
    ensures Members(groups, Width(c))[p] % Width(c) == p % Width(c)
  {
    SlotOf(p, |groups|, Width(c));
    MemberOfGroup(c, groups[p / Width(c)], p % Width(c));
  }

  lemma MembersDiffer(c: Config, groups: seq<nat>, p: nat, q: nat)
    requires Accepted(c) && Distinct(groups) && InRange(groups, c.groups) && p < q < |groups| * Width(c)
    ensures Members(groups, Width(c))[p] != Members(groups, Width(c))[q]
  {
    MemberAt(c, groups, p);
    MemberAt(c, groups, q);
    DifferentSlots(groups, p, q, Width(c));
  }

  lemma DifferentSlots(groups: seq<nat>, p: nat, q: nat, w: nat)
    requires Distinct(groups) && w > 0 && p != q && p / w < |groups| && q / w < |groups|
    ensures groups[p / w] != groups[q / w] || p % w != q % w
  {
    var i, j := p / w, q / w;
    assert p == i * w + p % w && q == j * w + q % w;
    if i != j { DistinctAt(groups, i, j); }
  }

  lemma DistinctAt(s: seq<nat>, i: nat, j: nat)
    requires Distinct(s) && i < |s| && j < |s| && i != j
    ensures s[i] != s[j]
  {}

  lemma MemberFound(c: Config, groups: seq<nat>, e: nat)
    requires Accepted(c) && InRange(groups, c.groups) && e < c.experts && Allowed(c, groups, e)
    ensures e in Members(groups, Width(c))
  {
    var w := Width(c);
    SlotOf(e, c.groups, w);
    var i :| 0 <= i < |groups| && groups[i] == GroupOf(c, e);
    SlotRange(i, |groups|, w);
    TokenOf(i, e % w, w);
    SlotOf(i * w + e % w, |groups|, w);
    assert Members(groups, w)[i * w + e % w] == e;
  }

  lemma MemberOfGroup(c: Config, g: nat, j: nat)
    requires Accepted(c) && g < c.groups && j < Width(c)
    ensures g * Width(c) + j < c.experts
    ensures GroupOf(c, g * Width(c) + j) == g
    ensures (g * Width(c) + j) % Width(c) == j
  {
    SlotRange(g, c.groups, Width(c));
    TokenOf(g, j, Width(c));
    SlotOf(g * Width(c) + j, c.groups, Width(c));
  }

  /** A list without repetitions is no longer than a list that holds its elements. */
  lemma {:induction false} Pigeonhole(a: seq<nat>, b: seq<nat>)
    requires Distinct(a) && forall x :: x in a ==> x in b
    ensures |a| <= |b|
  {
    if |a| > 0 {
      var last := a[|a| - 1];
      assert last in a;
      var j :| 0 <= j < |b| && b[j] == last;
      forall x | x in a[..|a| - 1] ensures x in Without(b, j) {
        assert x in a && x != last;
      }
      Pigeonhole(a[..|a| - 1], Without(b, j));
    }
  }

  // ----- the masked top-k is the group-limited choice -----

  function Masked(c: Config, choice: seq<real>, groups: seq<nat>): (r: seq<Score>)
    requires Accepted(c) && |choice| == c.experts
  {
    seq(c.experts, e requires 0 <= e < c.experts => if Allowed(c, groups, e) then Fin(choice[e]) else NegInf)
  }

  /** The choice stays inside the chosen groups exactly when those hold `topK` experts. */
  lemma StaysInGroupsIff(c: Config, choice: seq<real>, groups: seq<nat>, ids: seq<nat>)
    requires Accepted(c) && |choice| == c.experts
    requires |groups| == c.topGroups && Distinct(groups) && InRange(groups, c.groups)
    requires IsTopK(Masked(c, choice, groups), c.topK, ids)
    ensures (forall i :: 0 <= i < |ids| ==> Allowed(c, groups, ids[i])) <==> c.topK <= c.topGroups * Width(c)
  {
    MembersListed(c, groups);
    var members := Members(groups, Width(c));
    if forall i :: 0 <= i < |ids| ==> Allowed(c, groups, ids[i]) {
      Pigeonhole(ids, members);
    } else {
      var i :| 0 <= i < |ids| && !Allowed(c, groups, ids[i]);
      forall e | e in members ensures e in ids {
        var p :| 0 <= p < |members| && members[p] == e;
        assert Allowed(c, groups, members[p]);
        assert ids[i] in ids;
      }
      var more := members + [ids[i]];
      assert Distinct(more);
      Pigeonhole(more, ids);
    }
  }

  /** Two groups of two experts, one group to choose, three experts to select. */
  const NARROW := Config(true, true, 4, 2, 1, 3, true, 1.0)

  const CHOICE := [4.0, 3.0, 2.0, 1.0]

  lemma NarrowRows()
    ensures Accepted(NARROW) && GroupRow(NARROW, CHOICE, 0) == [4.0, 3.0] && GroupRow(NARROW, CHOICE, 1) == [2.0, 1.0]
    ensures Masked(NARROW, CHOICE, [0]) == [Fin(4.0), Fin(3.0), NegInf, NegInf]
  {}

  /** A token on which the gate leaves its group, whichever `topk` is used. */
  lemma LeavesItsGroup(ids: seq<nat>)
    ensures Accepted(NARROW) && BestGroups(NARROW, CHOICE, [0])
    ensures IsTopK(Masked(NARROW, CHOICE, [0]), 3, [0, 1, 2])
    ensures IsTopK(Masked(NARROW, CHOICE, [0]), 3, ids) ==>
              exists i :: 0 <= i < |ids| && !Allowed(NARROW, [0], ids[i])
  {
    hide GroupRow, Masked, GroupOf;
    NarrowRows();
    if IsTopK(Masked(NARROW, CHOICE, [0]), 3, ids) {
      StaysInGroupsIff(NARROW, CHOICE, [0], ids);
    }
  }

  /** With enough experts in the chosen groups, the masked `topk` may return
      `ids` if and only if they are the best experts of those groups. */
  lemma MaskedTopKIsBest(c: Config, choice: seq<real>, groups: seq<nat>, ids: seq<nat>)
    requires Accepted(c) && |choice| == c.experts
    requires |groups| == c.topGroups && Distinct(groups) && InRange(groups, c.groups)
    requires c.topK <= c.topGroups * Width(c)
    ensures IsTopK(Masked(c, choice, groups), c.topK, ids) <==> BestExperts(c, choice, groups, ids)
  {
    var masked := Masked(c, choice, groups);
    if IsTopK(masked, c.topK, ids) {
      StaysInGroupsIff(c, choice, groups, ids);
      forall i, e | 0 <= i < |ids| && 0 <= e < c.experts && Allowed(c, groups, e) && e !in ids
        ensures choice[e] <= choice[ids[i]]
      {
        assert ids[i] in ids;
        assert Below(masked[e], masked[ids[i]]);
      }
    }
  }

  // ----- the gate on one token -----

  /** Lifted scores: `topk` is one operation, used on groups and on masked scores. */
  function Finite(values: seq<real>): (r: seq<Score>) {
    seq(|values|, i requires 0 <= i < |values| => Fin(values[i]))
  }

  lemma TopTwoIsTopTwoSum(row: seq<real>, pair: seq<nat>)
    requires IsTopK(Finite(row), 2, pair)
    ensures TopTwoSum(row, row[pair[0]] + row[pair[1]])
  {
    var values := Finite(row);
    forall j | 0 <= j < |row| && j !in pair
      ensures row[j] <= row[pair[0]] && row[j] <= row[pair[1]]
    {
      assert pair[0] in pair && pair[1] in pair;
      assert Below(values[j], values[pair[0]]) && Below(values[j], values[pair[1]]);
    }
    forall a, b | 0 <= a < |row| && 0 <= b < |row| && a != b
      ensures row[a] + row[b] <= row[pair[0]] + row[pair[1]]
    {
      assert a in pair ==> a == pair[0] || a == pair[1];
      assert b in pair ==> b == pair[0] || b == pair[1];
    }
    assert pair[0] != pair[1];
  }

  lemma TopTwoUnique(row: seq<real>, s: real, t: real)
    requires TopTwoSum(row, s) && TopTwoSum(row, t)
    ensures s == t
  {}

  function SumReal(s: seq<real>): real {
    if |s| == 0 then 0.0 else SumReal(s[..|s| - 1]) + s[|s| - 1]
  }

  /** `topk_weight`: gathered scores, normalised when asked, then scaled. */
  function Weights(c: Config, scores: seq<real>, ids: seq<nat>): (w: seq<real>)
    requires InRange(ids, |scores|) && Positive(scores)
    ensures |w| == |ids|
  {
    var raw := Gather(scores, ids);
    if c.topK > 1 && c.normalise then
      SumPositive(raw);
      var denominator := SumReal(raw) + EPSILON;
      seq(|ids|, i requires 0 <= i < |ids| => Scaled(raw[i], denominator, c.scaling))
    else
      seq(|ids|, i requires 0 <= i < |ids| => raw[i] * c.scaling)
  }

  function Scaled(score: real, denominator: real, factor: real): real
    requires denominator > 0.0
  {
    score / denominator * factor
  }

  const EPSILON: real := 0.00000000000000000001

  lemma {:induction false} SumPositive(s: seq<real>)
    requires Positive(s)
    ensures SumReal(s) >= 0.0 && (|s| > 0 ==> SumReal(s) > 0.0)
  {
    if |s| > 0 { SumPositive(s[..|s| - 1]); }
  }

  lemma {:induction false} SumScaled(s: seq<real>, w: seq<real>, d: real, f: real)
    requires d > 0.0 && |s| == |w| && forall i :: 0 <= i < |s| ==> w[i] == Scaled(s[i], d, f)
    ensures SumReal(w) == Scaled(SumReal(s), d, f)
  {
    if |s| > 0 {
      var n := |s| - 1;
      SumScaled(s[..n], w[..n], d, f);
      ScaledAdds(SumReal(s[..n]), s[n], d, f);
    }
  }

  lemma ScaledAdds(a: real, b: real, d: real, f: real)
    requires d > 0.0
    ensures Scaled(a, d, f) + Scaled(b, d, f) == Scaled(a + b, d, f)
  {
    var r := 1.0 / d;
    assert a / d == a * r && b / d == b * r && (a + b) / d == (a + b) * r;
    assert (a * r) * f + (b * r) * f == ((a + b) * r) * f;
  }

  /** Normalised weights are positive and keep the proportions of the scores. */
  lemma NormalisedWeights(c: Config, scores: seq<real>, ids: seq<nat>, i: nat, j: nat)
    requires InRange(ids, |scores|) && Positive(scores)
    requires c.topK > 1 && c.normalise && c.scaling > 0.0 && i < |ids| && j < |ids|
    ensures Weights(c, scores, ids)[i] > 0.0
    ensures Weights(c, scores, ids)[i] * scores[ids[j]] == Weights(c, scores, ids)[j] * scores[ids[i]]
  {
    hide Scaled;
    var raw := Gather(scores, ids);
    SumPositive(raw);
    Share(raw[i], SumReal(raw) + EPSILON, c.scaling);
    Proportion(raw[i], raw[j], SumReal(raw) + EPSILON, c.scaling);
  }

  /** They add up to less than the scaling factor, short of it by exactly the
      share of the added epsilon. */
  lemma NormalisedSum(c: Config, scores: seq<real>, ids: seq<nat>)
    requires InRange(ids, |scores|) && Positive(scores)
    requires c.topK > 1 && c.normalise && c.scaling > 0.0 && |ids| > 0
    ensures 0.0 < SumReal(Weights(c, scores, ids)) < c.scaling
    ensures SumReal(Weights(c, scores, ids)) * (SumReal(Gather(scores, ids)) + EPSILON)
         == c.scaling * SumReal(Gather(scores, ids))
  {
    hide Scaled;
    var raw := Gather(scores, ids);
    SumPositive(raw);
    SumScaled(raw, Weights(c, scores, ids), SumReal(raw) + EPSILON, c.scaling);
    Share(SumReal(raw), SumReal(raw) + EPSILON, c.scaling);
    PartOf(SumReal(raw), EPSILON, c.scaling);
  }

  lemma Share(a: real, d: real, f: real)
    requires a > 0.0 && d > 0.0 && f > 0.0
    ensures Scaled(a, d, f) > 0.0
  {
    assert a / d > 0.0;
  }

  lemma Proportion(a: real, b: real, d: real, f: real)
    requires d > 0.0
    ensures Scaled(a, d, f) * b == Scaled(b, d, f) * a
  {
    var r := 1.0 / d;
    assert a / d == a * r && b / d == b * r;
    assert (a * r * f) * b == (b * r * f) * a;
  }

  lemma PartOf(t: real, e: real, f: real)
    requires t > 0.0 && e > 0.0 && f > 0.0
    ensures Scaled(t, t + e, f) < f
    ensures Scaled(t, t + e, f) * (t + e) == f * t
  {
    var q := t / (t + e);
    assert q * (t + e) == t;
    assert q < 1.0;
    assert (q * f) * (t + e) == f * (q * (t + e));
  }

  // ----- the gate, step by step -----

  function GroupScore(row: seq<real>, topk: (seq<Score>, nat) -> seq<nat>): (s: real)
    requires |row| >= 2 && Selects(topk)
    ensures TopTwoSum(row, s)
  {
    var pair := topk(Finite(row), 2);
    TopTwoIsTopTwoSum(row, pair);
    row[pair[0]] + row[pair[1]]
  }

  /** Sum of the two best scores of every group. */
  function GroupScores(c: Config, choice: seq<real>, topk: (seq<Score>, nat) -> seq<nat>): (s: seq<real>)
    requires Accepted(c) && |choice| == c.experts && Selects(topk)
    ensures |s| == c.groups
    ensures forall g :: 0 <= g < c.groups ==> TopTwoSum(GroupRow(c, choice, g), s[g])
  {
    seq(c.groups, g requires 0 <= g < c.groups => GroupScore(GroupRow(c, choice, g), topk))
  }

  lemma TopGroupsAreBest(c: Config, choice: seq<real>, s: seq<real>, groups: seq<nat>)
    requires Accepted(c) && |choice| == c.experts && |s| == c.groups
    requires forall g :: 0 <= g < c.groups ==> TopTwoSum(GroupRow(c, choice, g), s[g])
    requires IsTopK(Finite(s), c.topGroups, groups)
    ensures BestGroups(c, choice, groups)
  {
    forall i, h, a, b |
      0 <= i < |groups| && 0 <= h < c.groups && h !in groups &&
      TopTwoSum(GroupRow(c, choice, groups[i]), a) && TopTwoSum(GroupRow(c, choice, h), b)
      ensures b <= a
    {
      TopTwoUnique(GroupRow(c, choice, groups[i]), a, s[groups[i]]);
      TopTwoUnique(GroupRow(c, choice, h), b, s[h]);
      assert groups[i] in groups;
      assert Below(Finite(s)[h], Finite(s)[groups[i]]);
    }
  }

  /** Group scores, the group mask filled by scatter, masking, and the final `topk`. */
  method Choose(c: Config, choice: seq<real>, topk: (seq<Score>, nat) -> seq<nat>)
    returns (groups: seq<nat>, ids: seq<nat>)
    requires Accepted(c) && |choice| == c.experts && Selects(topk)
    ensures BestGroups(c, choice, groups)
    ensures IsTopK(Masked(c, choice, groups), c.topK, ids)
    ensures c.topK <= c.topGroups * Width(c) <==> forall i :: 0 <= i < |ids| ==> Allowed(c, groups, ids[i])
    ensures c.topK <= c.topGroups * Width(c) ==> BestExperts(c, choice, groups, ids)
  {
    var groupScores := GroupScores(c, choice, topk);
    groups := topk(Finite(groupScores), c.topGroups);
    assert IsTopK(Finite(groupScores), c.topGroups, groups);
    TopGroupsAreBest(c, choice, groupScores, groups);
    var mask := new bool[c.groups](_ => false);
    for i := 0 to |groups|
      invariant forall g :: 0 <= g < c.groups ==> (mask[g] <==> g in groups[..i])
    {
      mask[groups[i]] := true;
      assert groups[..i + 1] == groups[..i] + [groups[i]];
    }
    assert groups[..|groups|] == groups;
    var flags := mask[..];
    var masked := seq(c.experts, e requires 0 <= e < c.experts && |flags| == c.groups =>
      if flags[GroupOf(c, e)] then Fin(choice[e]) else NegInf);
    assert masked == Masked(c, choice, groups);
    ids := topk(masked, c.topK);
    StaysInGroupsIff(c, choice, groups, ids);
    if c.topK <= c.topGroups * Width(c) { MaskedTopKIsBest(c, choice, groups, ids); }
  }

  // ----- the same in the token's own scores -----

  /** Two different experts of group g: the experts are numbered group by group. */
  ghost predicate PairOf(c: Config, g: nat, a: nat, b: nat)
    requires Accepted(c)
  {
    a != b && a < c.experts && b < c.experts
    && a / (c.experts / c.groups) == g == b / (c.experts / c.groups)
  }

  /** No group left out has two experts whose biased scores add up to more than the best two of a chosen one. */
  ghost predicate GroupsByScores(c: Config, scores: seq<real>, bias: seq<real>, groups: seq<nat>)
    requires Accepted(c) && |scores| == |bias| == c.experts
  {
    && |groups| == c.topGroups && Distinct(groups) && InRange(groups, c.groups)
    && forall g: nat, h: nat, a: nat, b: nat :: g in groups && h < c.groups && h !in groups && PairOf(c, h, a, b) ==>
         exists x: nat, y: nat :: PairOf(c, g, x, y) && scores[a] + bias[a] + (scores[b] + bias[b])
                                                        <= scores[x] + bias[x] + (scores[y] + bias[y])
  }

  /** Where the chosen groups hold enough experts, none of theirs left out has a larger score with its bias than
      one selected; where they do not, all of theirs are selected. */
  ghost predicate ExpertsByScores(c: Config, scores: seq<real>, bias: seq<real>, groups: seq<nat>, ids: seq<nat>)
    requires Accepted(c) && |scores| == |bias| == c.experts
  {
    && |ids| == c.topK && Distinct(ids) && InRange(ids, c.experts)
    && (forall e: nat :: e < c.experts && e / (c.experts / c.groups) in groups && e !in ids ==>
          forall i :: 0 <= i < |ids| ==>
            ids[i] / (c.experts / c.groups) in groups && scores[e] + bias[e] <= scores[ids[i]] + bias[ids[i]])
    && (c.topK <= c.topGroups * (c.experts / c.groups) ==>
          forall i :: 0 <= i < |ids| ==> ids[i] / (c.experts / c.groups) in groups)
  }

  /** Each selected expert's own score, as a share of their sum when asked for, times the scaling factor. */
  ghost predicate WeightsByScores(c: Config, scores: seq<real>, ids: seq<nat>, weights: seq<real>)
    requires InRange(ids, |scores|)
  {
    && |weights| == |ids|
    && (!(c.topK > 1 && c.normalise) ==>
          forall i :: 0 <= i < |ids| ==> weights[i] == scores[ids[i]] * c.scaling)
    && (c.topK > 1 && c.normalise ==>
          exists acc: seq<real> ::
            && |acc| == |ids| + 1 && acc[0] == 0.0
            && (forall j :: 0 <= j < |ids| ==> acc[j + 1] == acc[j] + scores[ids[j]])
            && (forall i :: 0 <= i < |ids| ==>
                  weights[i] * (acc[|ids|] + 0.00000000000000000001) == scores[ids[i]] * c.scaling))
  }

  lemma InRow(c: Config, choice: seq<real>, g: nat, e: nat)
    requires Accepted(c) && |choice| == c.experts && g < c.groups && e < c.experts && e / Width(c) == g
    ensures e - g * Width(c) == e % Width(c) < |GroupRow(c, choice, g)|
    ensures GroupRow(c, choice, g)[e % Width(c)] == choice[e]
  {
    SlotRange(g, c.groups, Width(c));
  }

  lemma FromRow(c: Config, choice: seq<real>, g: nat, i: nat)
    requires Accepted(c) && |choice| == c.experts && g < c.groups && i < Width(c)
    ensures 0 <= g * Width(c) + i < c.experts && (g * Width(c) + i) / Width(c) == g
    ensures GroupRow(c, choice, g)[i] == choice[g * Width(c) + i]
  {
    SlotRange(g, c.groups, Width(c));
    TokenOf(g, i, Width(c));
  }

  /** A pair of a group left out against the best pair of a chosen one. */
  lemma PairBeaten(c: Config, choice: seq<real>, s: seq<real>, groups: seq<nat>, g: nat, h: nat, a: nat, b: nat)
    returns (x: nat, y: nat)
    requires Accepted(c) && |choice| == c.experts && BestGroups(c, choice, groups) && |s| == c.groups
    requires forall k :: 0 <= k < c.groups ==> TopTwoSum(GroupRow(c, choice, k), s[k])
    requires g in groups && h < c.groups && h !in groups && PairOf(c, h, a, b)
    ensures PairOf(c, g, x, y) && choice[a] + choice[b] <= choice[x] + choice[y]
  {
    var w := Width(c);
    InRow(c, choice, h, a);
    InRow(c, choice, h, b);
    assert choice[a] + choice[b] <= s[h];
    var k :| 0 <= k < |groups| && groups[k] == g;
    assert TopTwoSum(GroupRow(c, choice, groups[k]), s[g]) && TopTwoSum(GroupRow(c, choice, h), s[h]);
    var i, j :| 0 <= i < w && 0 <= j < w && i != j && s[g] == GroupRow(c, choice, g)[i] + GroupRow(c, choice, g)[j];
    FromRow(c, choice, g, i);
    FromRow(c, choice, g, j);
    x, y := g * w + i, g * w + j;
  }

  lemma GroupsInScores(c: Config, scores: seq<real>, bias: seq<real>, s: seq<real>, groups: seq<nat>)
    requires Accepted(c) && |scores| == |bias| == c.experts && |s| == c.groups
    requires forall k :: 0 <= k < c.groups ==> TopTwoSum(GroupRow(c, Adjusted(scores, bias), k), s[k])
    requires BestGroups(c, Adjusted(scores, bias), groups)
    ensures GroupsByScores(c, scores, bias, groups)
  {
    var choice := Adjusted(scores, bias);
    forall g: nat, h: nat, a: nat, b: nat | g in groups && h < c.groups && h !in groups && PairOf(c, h, a, b)
      ensures exists x: nat, y: nat :: PairOf(c, g, x, y) && scores[a] + bias[a] + (scores[b] + bias[b])
                                                             <= scores[x] + bias[x] + (scores[y] + bias[y])
    {
      var x, y := PairBeaten(c, choice, s, groups, g, h, a, b);
    }
  }

  lemma ExpertsInScores(c: Config, scores: seq<real>, bias: seq<real>, groups: seq<nat>, ids: seq<nat>)
    requires Accepted(c) && |scores| == |bias| == c.experts
    requires IsTopK(Masked(c, Adjusted(scores, bias), groups), c.topK, ids)
    requires c.topK <= c.topGroups * Width(c) ==> forall i :: 0 <= i < |ids| ==> Allowed(c, groups, ids[i])
    ensures ExpertsByScores(c, scores, bias, groups, ids)
  {
    var masked := Masked(c, Adjusted(scores, bias), groups);
    forall e: nat, i | e < c.experts && e / (c.experts / c.groups) in groups && e !in ids && 0 <= i < |ids|
      ensures ids[i] / (c.experts / c.groups) in groups && scores[e] + bias[e] <= scores[ids[i]] + bias[ids[i]]
    {
      assert ids[i] in ids;
      assert Below(masked[e], masked[ids[i]]);
    }
  }

  lemma {:induction false} PartialSums(s: seq<real>) returns (acc: seq<real>)
    ensures |acc| == |s| + 1 && acc[0] == 0.0 && acc[|s|] == SumReal(s)
    ensures forall j :: 0 <= j < |s| ==> acc[j + 1] == acc[j] + s[j]
  {
    if |s| == 0 { return [0.0]; }
    acc := PartialSums(s[..|s| - 1]);
    acc := acc + [acc[|s| - 1] + s[|s| - 1]];
  }

  lemma WeightsInScores(c: Config, scores: seq<real>, ids: seq<nat>)
    requires InRange(ids, |scores|) && Positive(scores)
    ensures WeightsByScores(c, scores, ids, Weights(c, scores, ids))
  {
    hide Scaled, SumReal;
    if c.topK > 1 && c.normalise {
      var acc := NormalisedShares(c, scores, ids);
    }
  }

  lemma NormalisedShares(c: Config, scores: seq<real>, ids: seq<nat>) returns (acc: seq<real>)
    requires InRange(ids, |scores|) && Positive(scores) && c.topK > 1 && c.normalise
    ensures |acc| == |ids| + 1 && acc[0] == 0.0
    ensures forall j :: 0 <= j < |ids| ==> acc[j + 1] == acc[j] + scores[ids[j]]
    ensures forall i :: 0 <= i < |ids| ==>
      Weights(c, scores, ids)[i] * (acc[|ids|] + EPSILON) == scores[ids[i]] * c.scaling
  {
    hide Scaled, SumReal;
    var raw := Gather(scores, ids);
    SumPositive(raw);
    acc := PartialSums(raw);
    forall i | 0 <= i < |ids|
      ensures Weights(c, scores, ids)[i] * (acc[|ids|] + EPSILON) == scores[ids[i]] * c.scaling
    {
      Undivided(raw[i], SumReal(raw) + EPSILON, c.scaling);
    }
  }

  lemma Undivided(a: real, d: real, f: real)
    requires d > 0.0
    ensures Scaled(a, d, f) * d == a * f
  {
    var q := a / d;
    assert q * d == a;
    assert (q * f) * d == (q * d) * f;
  }

  // ----- gate and dispatch together -----

  /** One token's routing: its groups, experts and weights. */
  ghost predicate Gated(c: Config, scores: seq<real>, bias: seq<real>,
                        groups: seq<nat>, ids: seq<nat>, weights: seq<real>)
  {
    && Accepted(c) && |scores| == |bias| == c.experts && Positive(scores)
    && |ids| == c.topK && Distinct(ids) && InRange(ids, c.experts)
    && GroupsByScores(c, scores, bias, groups)
    && ExpertsByScores(c, scores, bias, groups, ids)
    && WeightsByScores(c, scores, ids, weights)
  }

  ghost predicate Positive(scores: seq<real>) {
    forall i :: 0 <= i < |scores| ==> scores[i] > 0.0
  }

  /** `MoEGate.forward` on one token, from its sigmoid scores. */
  method GateToken(c: Config, scores: seq<real>, bias: seq<real>, topk: (seq<Score>, nat) -> seq<nat>)
    returns (groups: seq<nat>, ids: seq<nat>, weights: seq<real>)
    requires Accepted(c) && |scores| == |bias| == c.experts && Positive(scores) && Selects(topk)
    ensures Gated(c, scores, bias, groups, ids, weights)
  {
    groups, ids := Choose(c, Adjusted(scores, bias), topk);
    weights := Weights(c, scores, ids);
    GroupsInScores(c, scores, bias, GroupScores(c, Adjusted(scores, bias), topk), groups);
    ExpertsInScores(c, scores, bias, groups, ids);
    WeightsInScores(c, scores, ids);
  }

  ghost predicate AllGated(c: Config, scores: seq<seq<real>>, bias: seq<real>, groups: seq<seq<nat>>,
                                ids: seq<seq<nat>>, weights: seq<seq<real>>)
  {
    |groups| == |ids| == |weights| <= |scores| &&
    forall t :: 0 <= t < |ids| ==> Gated(c, scores[t], bias, groups[t], ids[t], weights[t])
  }

  /** Gate, then dispatch. Whatever the gate chooses, no token repeats an
      expert, so dispatch is refused only for an empty batch. */
  method MoeForward<Row(0,!new)>(layer: Layer<Row, real>, c: Config,
                            tokens: seq<Row>, scores: seq<seq<real>>, bias: seq<real>,
                            topk: (seq<Score>, nat) -> seq<nat>, argsort: seq<nat> -> seq<nat>)
    returns (r: Option<seq<Row>>, groups: seq<seq<nat>>, b: Batch<Row, real>)
    requires |scores| == |tokens| && |bias| == c.experts && Selects(topk)
    requires forall t :: 0 <= t < |scores| ==> |scores[t]| == c.experts && Positive(scores[t])
    requires forall keys :: IsArgsort(keys, argsort(keys))
    ensures r.Some? <==>
      && c.sigmoid && c.noauxTc && |tokens| > 0 && 0 < c.topK <= c.experts && c.topGroups <= c.groups
      && c.groups > 0 && c.experts % c.groups == 0 && c.experts / c.groups >= 2
    ensures r.Some? ==> b.tokens == tokens && |b.ids| == |tokens| && AllGated(c, scores, bias, groups, b.ids, b.weights)
    ensures r.Some? ==> |b.weights| == |tokens| && (forall t :: 0 <= t < |b.ids| ==> |b.ids[t]| == |b.weights[t]|)
    ensures r.Some? ==> r.value == Direct(layer, b) && SumsPerToken(layer, b, r.value)
  {
    hide Gated, SumsPerToken, Direct;
    groups, b := [], Batch(tokens, [], [], c.topK);
    if !Accepted(c) || |tokens| == 0 { return None, groups, b; }
    var ids: seq<seq<nat>>, weights: seq<seq<real>> := [], [];
    for t := 0 to |tokens|
      invariant |ids| == t && AllGated(c, scores, bias, groups, ids, weights)
    {
      var g, i, w := GateToken(c, scores[t], bias, topk);
      groups, ids, weights := groups + [g], ids + [i], weights + [w];
    }
    b := Batch(tokens, ids, weights, c.topK);
    GatedIsRouted(c, scores, bias, groups, b);
    assert IsArgsort(Flat(ids), argsort(Flat(ids)));
    r := MoeInfer(layer, b, c.experts, argsort(Flat(ids)));
  }

  /** The gate meets what dispatch needs of its caller. */
  lemma GatedIsRouted<Row>(c: Config, scores: seq<seq<real>>, bias: seq<real>, groups: seq<seq<nat>>,
                           b: Batch<Row, real>)
    requires AllGated(c, scores, bias, groups, b.ids, b.weights)
    requires |b.ids| == |b.tokens| && b.k == c.topK
    ensures Routed(b, c.experts) && DistinctExperts(b.ids)
  {
    forall t | 0 <= t < |b.ids|
      ensures |b.ids[t]| == c.topK == |b.weights[t]| && InRange(b.ids[t], c.experts) && Distinct(b.ids[t])
    {
      assert Gated(c, scores[t], bias, groups[t], b.ids[t], b.weights[t]);
    }
  }
}
