/** Counted segments of a sorted sequence, gathers and permutations: what the
    dispatch code takes for granted about `argsort`, per-expert counts and
    slicing by running totals. */
module Segments {
  datatype Option<+T> = None | Some(value: T)

  function Sum(s: seq<nat>): nat {
    if |s| == 0 then 0 else Sum(s[..|s| - 1]) + s[|s| - 1]
  }

  function Repeat<T>(v: T, n: nat): (r: seq<T>) {
    seq(n, _ => v)
  }

  /** The segment number of every position when segment `i` is `counts[i]` long. */
  function Expand(counts: seq<nat>): seq<nat> {
    if |counts| == 0 then []
    else Expand(counts[..|counts| - 1]) + Repeat(|counts| - 1, counts[|counts| - 1])
  }

  ghost predicate Sorted(s: seq<nat>) {
    forall i, j :: 0 <= i < j < |s| ==> s[i] <= s[j]
  }

  ghost predicate Distinct<T(!new)>(s: seq<T>) {
    forall i, j :: 0 <= i < j < |s| ==> s[i] != s[j]
  }

  /** `idxs` lists every index below `n` once. */
  ghost predicate Permutation(idxs: seq<nat>, n: nat) {
    |idxs| == n && Distinct(idxs) && forall i :: 0 <= i < |idxs| ==> idxs[i] < n
  }

  function Gather<T>(s: seq<T>, idxs: seq<nat>): (r: seq<T>)
    requires forall i :: 0 <= i < |idxs| ==> idxs[i] < |s|
  {
    seq(|idxs|, i requires 0 <= i < |idxs| => s[idxs[i]])
  }

  /** What `argsort` promises: a permutation that sorts, in any order among equal keys. */
  ghost predicate IsArgsort(keys: seq<nat>, idxs: seq<nat>) {
    Permutation(idxs, |keys|) && Sorted(Gather(keys, idxs))
  }

  function Occurrences(s: seq<nat>, e: nat): nat { multiset(s)[e] }

  lemma {:induction false} ExpandLength(counts: seq<nat>)
    ensures |Expand(counts)| == Sum(counts)
  {
    if |counts| > 0 { ExpandLength(counts[..|counts| - 1]); }
  }

  lemma {:induction false} ExpandSorted(counts: seq<nat>)
    ensures Sorted(Expand(counts))
    ensures forall i :: 0 <= i < |Expand(counts)| ==> Expand(counts)[i] < |counts|
  {
    if |counts| > 0 { ExpandSorted(counts[..|counts| - 1]); }
  }

  lemma {:induction false} RepeatCount<T>(v: T, n: nat, e: T)
    ensures multiset(Repeat(v, n))[e] == if e == v then n else 0
  {
    if n > 0 {
      RepeatCount(v, n - 1, e);
      assert Repeat(v, n) == Repeat(v, n - 1) + [v];
      assert multiset(Repeat(v, n)) == multiset(Repeat(v, n - 1)) + multiset{v};
    } else {
      assert Repeat(v, n) == [];
      assert multiset(Repeat(v, n)) == multiset{};
    }
  }

  lemma {:induction false} ExpandCounts(counts: seq<nat>, e: nat)
    ensures Occurrences(Expand(counts), e) == if e < |counts| then counts[e] else 0
  {
    if |counts| > 0 {
      ExpandCounts(counts[..|counts| - 1], e);
      RepeatCount(|counts| - 1, counts[|counts| - 1], e);
    }
  }

  lemma LastIsLargest(a: seq<nat>, b: seq<nat>)
    requires Sorted(a) && |a| > 0 && |b| > 0 && multiset(a) == multiset(b)
    ensures b[|b| - 1] <= a[|a| - 1]
  {
    assert b[|b| - 1] in multiset(b);
    assert b[|b| - 1] in a;
  }

  lemma DropLast<T>(a: seq<T>)
    requires |a| > 0
    ensures multiset(a[..|a| - 1]) == multiset(a) - multiset{a[|a| - 1]}
  {
    assert a == a[..|a| - 1] + [a[|a| - 1]];
  }

  lemma SameLast(a: seq<nat>, b: seq<nat>)
    requires Sorted(a) && Sorted(b) && |a| > 0 && |b| > 0 && multiset(a) == multiset(b)
    ensures a[|a| - 1] == b[|b| - 1]
    ensures multiset(a[..|a| - 1]) == multiset(b[..|b| - 1])
  {
    LastIsLargest(a, b);
    LastIsLargest(b, a);
    DropLast(a);
    DropLast(b);
  }

  lemma {:induction false} SortedUnique(a: seq<nat>, b: seq<nat>)
    requires Sorted(a) && Sorted(b) && multiset(a) == multiset(b)
    ensures a == b
  {
    assert |multiset(a)| == |a| && |multiset(b)| == |b|;
    if |a| > 0 {
      SameLast(a, b);
      SortedInit(a);
      SortedInit(b);
      hide Sorted;
      SortedUnique(a[..|a| - 1], b[..|b| - 1]);
      assert a == a[..|a| - 1] + [a[|a| - 1]] && b == b[..|b| - 1] + [b[|b| - 1]];
    }
  }

  lemma SortedInit(a: seq<nat>)
    requires Sorted(a) && |a| > 0
    ensures Sorted(a[..|a| - 1])
  {}

  lemma SameOccurrences(a: seq<nat>, b: seq<nat>)
    requires forall e: nat :: Occurrences(a, e) == Occurrences(b, e)
    ensures multiset(a) == multiset(b)
  {
    forall e: nat ensures multiset(a)[e] == multiset(b)[e] {
      assert Occurrences(a, e) == Occurrences(b, e);
    }
  }

  lemma CountOfAbsent(s: seq<nat>, n: nat, e: nat)
    requires forall i :: 0 <= i < |s| ==> s[i] < n
    ensures e >= n ==> Occurrences(s, e) == 0
  {
    if Occurrences(s, e) > 0 { assert e in s; }
  }

  /** The core of sorted dispatch: when segment `e` is as long as key `e` is
      frequent, the segments of any sorted order are exactly its runs of equal keys. */
  lemma {:induction false} SegmentsAreRuns(sorted: seq<nat>, counts: seq<nat>)
    requires Sorted(sorted)
    requires forall i :: 0 <= i < |sorted| ==> sorted[i] < |counts|
    requires forall e :: 0 <= e < |counts| ==> counts[e] == Occurrences(sorted, e)
    ensures Expand(counts) == sorted
  {
    ExpandSorted(counts);
    forall e: nat ensures Occurrences(Expand(counts), e) == Occurrences(sorted, e) {
      ExpandCounts(counts, e);
      CountOfAbsent(sorted, |counts|, e);
    }
    SameOccurrences(Expand(counts), sorted);
    SortedUnique(Expand(counts), sorted);
  }

  lemma {:induction false} TooManyIndices(idxs: seq<nat>, n: nat)
    requires Distinct(idxs) && forall i :: 0 <= i < |idxs| ==> idxs[i] < n
    ensures |idxs| <= n
  {
    if |idxs| > 0 {
      assert idxs[0] < n;
      if n - 1 in idxs {
        var j :| 0 <= j < |idxs| && idxs[j] == n - 1;
        TooManyIndices(idxs[..j] + idxs[j + 1..], n - 1);
      } else {
        TooManyIndices(idxs, n - 1);
      }
    }
  }

  lemma {:induction false} PermutationCovers(idxs: seq<nat>, n: nat, p: nat)
    requires Permutation(idxs, n) && p < n
    ensures p in idxs
  {
    if p !in idxs {
      TooManyIndices(idxs + [p], n);
    }
  }

  function Without<T>(s: seq<T>, j: nat): (r: seq<T>)
    requires j < |s|
  {
    s[..j] + s[j + 1..]
  }

  lemma WithoutKeeps<T>(s: seq<T>, j: nat)
    requires j < |s|
    ensures multiset(s) == multiset(Without(s, j)) + multiset{s[j]}
  {
    assert s == s[..j] + [s[j]] + s[j + 1..];
  }

  lemma PermutationShrinks(idxs: seq<nat>, n: nat, j: nat)
    requires Permutation(idxs, n) && j < n && idxs[j] == n - 1
    ensures Permutation(Without(idxs, j), n - 1)
  {
    var rest := Without(idxs, j);
    assert forall i :: 0 <= i < |rest| ==> rest[i] == idxs[if i < j then i else i + 1];
  }

  /** Reordering by a permutation keeps every element, with its multiplicity. */
  lemma {:induction false} GatherKeeps<T>(s: seq<T>, idxs: seq<nat>)
    requires Permutation(idxs, |s|)
    ensures multiset(Gather(s, idxs)) == multiset(s)
  {
    if |s| > 0 {
      var n := |s| - 1;
      PermutationCovers(idxs, |s|, n);
      var j :| 0 <= j < |idxs| && idxs[j] == n;
      PermutationShrinks(idxs, |s|, j);
      GatherKeeps(s[..n], Without(idxs, j));
      assert Gather(s[..n], Without(idxs, j)) == Without(Gather(s, idxs), j);
      WithoutKeeps(Gather(s, idxs), j);
      assert s == s[..n] + [s[n]];
    }
  }

  lemma {:induction false} SumBounds(a: seq<nat>, b: seq<nat>)
    requires |a| == |b| && forall i :: 0 <= i < |a| ==> a[i] <= b[i]
    ensures Sum(a) <= Sum(b)
    ensures Sum(a) == Sum(b) ==> a == b
  {
    if |a| > 0 {
      var n := |a| - 1;
      assert Sum(a) == Sum(a[..n]) + a[n] && Sum(b) == Sum(b[..n]) + b[n];
      SumBounds(a[..n], b[..n]);
      assert a == a[..n] + [a[n]] && b == b[..n] + [b[n]];
    }
  }

  lemma {:induction false} SumPrefix(s: seq<nat>, i: nat)
    requires i <= |s|
    ensures Sum(s[..i]) <= Sum(s)
  {
    if i < |s| {
      SumPrefix(s[..|s| - 1], i);
      assert s[..|s| - 1][..i] == s[..i];
    } else {
      assert s[..i] == s;
    }
  }

  /** The frequencies of keys below `n` add up to the length. */
  lemma {:induction false} FrequenciesAddUp(s: seq<nat>, counts: seq<nat>)
    requires forall i :: 0 <= i < |s| ==> s[i] < |counts|
    requires forall e :: 0 <= e < |counts| ==> counts[e] == Occurrences(s, e)
    ensures Sum(counts) == |s|
  {
    ExpandLength(counts);
    forall e: nat ensures Occurrences(Expand(counts), e) == Occurrences(s, e) {
      ExpandCounts(counts, e);
      CountOfAbsent(s, |counts|, e);
    }
    SameOccurrences(Expand(counts), s);
    assert |multiset(Expand(counts))| == |Expand(counts)| && |multiset(s)| == |s|;
  }

  // ----- blocks: a tensor split into pieces and pieces put end to end -----

  function Concat<T>(blocks: seq<seq<T>>): seq<T> {
    if |blocks| == 0 then [] else Concat(blocks[..|blocks| - 1]) + blocks[|blocks| - 1]
  }

  function Lengths<T>(blocks: seq<seq<T>>): (r: seq<nat>) {
    seq(|blocks|, i requires 0 <= i < |blocks| => |blocks[i]|)
  }

  /** `tensor.split(sizes)`; the sizes must add up to the length. */
  function Split<T>(s: seq<T>, sizes: seq<nat>): (blocks: seq<seq<T>>)
    requires Sum(sizes) == |s|
    ensures |blocks| == |sizes|
    decreases |sizes|
  {
    if |sizes| == 0 then []
    else
      var n := |sizes| - 1;
      Split(s[..|s| - sizes[n]], sizes[..n]) + [s[|s| - sizes[n]..]]
  }

  lemma {:induction false} SplitLengths<T>(s: seq<T>, sizes: seq<nat>)
    requires Sum(sizes) == |s|
    ensures Lengths(Split(s, sizes)) == sizes
    ensures Concat(Split(s, sizes)) == s
    decreases |sizes|
  {
    if |sizes| > 0 {
      var n := |sizes| - 1;
      var cut := |s| - sizes[n];
      SplitLengths(s[..cut], sizes[..n]);
      var blocks := Split(s, sizes);
      assert blocks[..n] == Split(s[..cut], sizes[..n]);
      assert forall i :: 0 <= i < n ==> |blocks[i]| == Lengths(blocks[..n])[i];
      assert s == s[..cut] + s[cut..];
    }
  }

  lemma {:induction false} ConcatLength<T>(blocks: seq<seq<T>>)
    ensures |Concat(blocks)| == Sum(Lengths(blocks))
  {
    if |blocks| > 0 {
      var n := |blocks| - 1;
      ConcatLength(blocks[..n]);
      assert Lengths(blocks)[..n] == Lengths(blocks[..n]);
    }
  }

  lemma {:induction false} SplitConcat<T>(blocks: seq<seq<T>>)
    ensures Sum(Lengths(blocks)) == |Concat(blocks)|
    ensures Split(Concat(blocks), Lengths(blocks)) == blocks
  {
    ConcatLength(blocks);
    if |blocks| > 0 {
      var n := |blocks| - 1;
      SplitConcat(blocks[..n]);
      assert Lengths(blocks)[..n] == Lengths(blocks[..n]);
      assert Concat(blocks)[..|Concat(blocks[..n])|] == Concat(blocks[..n]);
      assert blocks == blocks[..n] + [blocks[n]];
    }
  }
}
