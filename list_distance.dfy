/**
 * Day 1 (src/day01.rs): two columns of location ids. `parse` sorts both
 * columns; part 1 sums the distances of the paired-up sorted ids, part 2 sums
 * every left id weighted by how often it occurs in the right column.
 *
 * The model starts from the already-split pairs of integers (`i64` in the
 * source, unbounded `int` here).
 */
module ListDistance {
  import opened Sorting

  /** The ascending order `Vec::<i64>::sort` uses. */
  function Ascending(a: int, b: int): bool { a <= b }

  lemma AscendingIsTotalOrder()
    ensures TotalOrder(Ascending)
  {
  }

  function LeftColumn(pairs: seq<(int, int)>): (column: seq<int>)
    ensures |column| == |pairs|
    ensures forall i :: 0 <= i < |pairs| ==> column[i] == pairs[i].0
  {
    seq(|pairs|, i requires 0 <= i < |pairs| => pairs[i].0)
  }

  function RightColumn(pairs: seq<(int, int)>): (column: seq<int>)
    ensures |column| == |pairs|
    ensures forall i :: 0 <= i < |pairs| ==> column[i] == pairs[i].1
  {
    seq(|pairs|, i requires 0 <= i < |pairs| => pairs[i].1)
  }

  /** `parse` after the text is split: unzip the pairs, then sort each column. */
  function Parse(pairs: seq<(int, int)>): (lists: (seq<int>, seq<int>))
    ensures |lists.0| == |pairs| && |lists.1| == |pairs|
    ensures SortedBy(lists.0, Ascending) && SortedBy(lists.1, Ascending)
    ensures multiset(lists.0) == multiset(LeftColumn(pairs))
    ensures multiset(lists.1) == multiset(RightColumn(pairs))
  {
    AscendingIsTotalOrder();
    (Sort(LeftColumn(pairs), Ascending), Sort(RightColumn(pairs), Ascending))
  }

  function Abs(x: int): nat { if x < 0 then -x else x }

  /** Part 1: the sum of `|a - b|` over the zipped lists (zip stops at the shorter one). */
  function TotalDistance(left: seq<int>, right: seq<int>): (d: int)
    ensures d >= 0
    ensures forall k :: 0 <= k < |left| && k < |right| ==> Abs(left[k] - right[k]) <= d
  {
    if left == [] || right == [] then 0
    else Abs(left[0] - right[0]) + TotalDistance(left[1..], right[1..])
  }

  /** The distance is zero exactly when the two lists agree pairwise. */
  lemma {:induction false} TotalDistanceZeroIff(left: seq<int>, right: seq<int>)
    requires |left| == |right|
    ensures TotalDistance(left, right) == 0 <==> left == right
  {
    if left != [] {
      TotalDistanceZeroIff(left[1..], right[1..]);
      assert left == [left[0]] + left[1..] && right == [right[0]] + right[1..];
    }
  }

  /** The distance does not depend on which column is called left. */
  lemma {:induction false} TotalDistanceSymmetric(left: seq<int>, right: seq<int>)
    ensures TotalDistance(left, right) == TotalDistance(right, left)
  {
    if left != [] && right != [] {
      TotalDistanceSymmetric(left[1..], right[1..]);
    }
  }

  /** Part 1 on the parsed input. */
  function Part1(lists: (seq<int>, seq<int>)): (answer: int)
    ensures answer >= 0
    ensures |lists.0| == |lists.1| ==> (answer == 0 <==> lists.0 == lists.1)
  {
    if |lists.0| == |lists.1| then TotalDistanceZeroIff(lists.0, lists.1); TotalDistance(lists.0, lists.1)
    else TotalDistance(lists.0, lists.1)
  }

  /** `counts` holds, for every value of `right`, its number of occurrences. */
  ghost predicate CountsOf(counts: map<int, int>, right: seq<int>) {
    && (forall v :: v in counts <==> v in right)
    && (forall v :: v in counts ==> counts[v] == multiset(right)[v])
  }

  /** The `right_counts` map of part 2, built one entry update at a time. */
  method RightCounts(right: seq<int>) returns (counts: map<int, int>)
    ensures forall v :: v in counts <==> v in right
    ensures forall v :: v in counts ==> counts[v] == multiset(right)[v]
  {
    counts := map[];
    var i := 0;
    while i < |right|
      invariant 0 <= i <= |right|
      invariant forall v :: v in counts <==> v in right[..i]
      invariant forall v :: v in counts ==> counts[v] == multiset(right[..i])[v]
    {
      var v := right[i];
      assert right[..i + 1] == right[..i] + [v];
      if v in counts {
        counts := counts[v := counts[v] + 1];
      } else {
        counts := counts[v := 1];
      }
      i := i + 1;
    }
    assert right[..i] == right;
  }

  /** `l * right_counts.get(l).unwrap_or(0)`, summed over `left`. */
  function WeightedSum(left: seq<int>, counts: map<int, int>): int {
    if left == [] then 0
    else left[0] * (if left[0] in counts then counts[left[0]] else 0) + WeightedSum(left[1..], counts)
  }

  /** The similarity score: each left value times its multiplicity in `right`. */
  function Similarity(left: seq<int>, right: seq<int>): int {
    if left == [] then 0
    else left[0] * multiset(right)[left[0]] + Similarity(left[1..], right)
  }

  /** Looking multiplicities up in a map that counts `right` gives the similarity score. */
  lemma {:induction false} WeightedSumIsSimilarity(left: seq<int>, counts: map<int, int>, right: seq<int>)
    requires CountsOf(counts, right)
    ensures WeightedSum(left, counts) == Similarity(left, right)
  {
    if left != [] {
      WeightedSumIsSimilarity(left[1..], counts, right);
    }
  }

  /** Part 2 on the parsed input. */
  method Part2(lists: (seq<int>, seq<int>)) returns (answer: int)
    ensures answer == Similarity(lists.0, lists.1)
  {
    var counts := RightCounts(lists.1);
    WeightedSumIsSimilarity(lists.0, counts, lists.1);
    answer := WeightedSum(lists.0, counts);
  }
}
