/**
 * Day 5 (src/day05.rs): page-ordering rules `a|b` ("page a comes before page
 * b") and updates (lists of pages). Part 1 sums the middle pages of the
 * updates the rules allow; part 2 reorders the other updates and sums their
 * middle pages. The model starts from the already-parsed rules and updates
 * (`usize` in the source, `nat` here).
 */
module PageOrdering {
  import opened Sorting

  type Page = nat

  /** A rule `(a, b)`: page `a` must be printed before page `b`. */
  type Rule = (Page, Page)

  /** The lexicographic order `Vec::<(usize, usize)>::sort` uses. */
  function PairLe(x: Rule, y: Rule): bool {
    x.0 < y.0 || (x.0 == y.0 && x.1 <= y.1)
  }

  lemma PairLeIsTotalOrder()
    ensures TotalOrder(PairLe)
  {
  }

  /** `Rules::from`: the pairs, sorted. */
  function FromPairs(pairs: seq<Rule>): (rules: seq<Rule>)
    ensures SortedBy(rules, PairLe)
    ensures multiset(rules) == multiset(pairs)
  {
    PairLeIsTotalOrder();
    Sort(pairs, PairLe)
  }

  /** The `any` inside `Rules::allow`: some rule is the pair turned round. */
  function AnyRuleInverts(rules: seq<Rule>, pair: Rule): (any: bool)
    ensures any <==> (pair.1, pair.0) in rules
  {
    if rules == [] then false
    else
      assert rules == [rules[0]] + rules[1..];
      rules[0] == (pair.1, pair.0) || AnyRuleInverts(rules[1..], pair)
  }

  /** `Rules::allow`: a pair is allowed unless some rule orders its two pages the other way round. */
  function Allow(rules: seq<Rule>, pair: Rule): (allowed: bool)
    ensures allowed <==> (pair.1, pair.0) !in rules
  {
    !AnyRuleInverts(rules, pair)
  }

  /** The two rules of the source's own tests, `1|2` and `2|3`. */
  lemma AllowExamples()
    ensures var rules := FromPairs([(1, 2), (2, 3)]);
      && Allow(rules, (1, 2)) && Allow(rules, (1, 3)) && Allow(rules, (2, 3))
      && !Allow(rules, (2, 1)) && Allow(rules, (3, 1)) && !Allow(rules, (3, 2))
  {
    var rules := FromPairs([(1, 2), (2, 3)]);
    assert multiset(rules) == multiset{(1, 2), (2, 3)};
    assert forall r :: r in rules <==> r in multiset(rules);
  }

  /** `Update::contains`. */
  function Contains(update: seq<Page>, page: Page): (found: bool)
    ensures found <==> exists i :: 0 <= i < |update| && update[i] == page
  {
    page in update
  }

  /** The `filter` of `Rules::get_applicable_for`: the rules whose two pages both occur in `update`. */
  function ApplicableFilter(rules: seq<Rule>, update: seq<Page>): (kept: seq<Rule>)
    ensures forall r :: multiset(kept)[r] == if r.0 in update && r.1 in update then multiset(rules)[r] else 0
  {
    if rules == [] then []
    else
      assert rules == [rules[0]] + rules[1..];
      var rest := ApplicableFilter(rules[1..], update);
      if Contains(update, rules[0].0) && Contains(update, rules[0].1) then [rules[0]] + rest else rest
  }

  /** `Rules::get_applicable_for`: exactly the rules whose two pages occur in `update`, sorted. */
  function GetApplicableFor(rules: seq<Rule>, update: seq<Page>): (applicable: seq<Rule>)
    ensures SortedBy(applicable, PairLe)
    ensures forall r :: multiset(applicable)[r] == if r.0 in update && r.1 in update then multiset(rules)[r] else 0
    ensures forall r :: r in applicable <==> r in rules && r.0 in update && r.1 in update
  {
    var applicable := FromPairs(ApplicableFilter(rules, update));
    assert forall r :: r in applicable <==> r in multiset(applicable);
    assert forall r :: r in rules <==> r in multiset(rules);
    applicable
  }

  /** `Update::middle`: the page with as many pages after it as before it (one fewer after, for an even length). */
  function Middle(update: seq<Page>): (page: Page)
    requires |update| > 0
    ensures page == update[|update| / 2]
    ensures |update[|update| / 2 + 1..]| <= |update[..|update| / 2]| <= |update[|update| / 2 + 1..]| + 1
  {
    update[|update| / 2]
  }

  /** Every pair of pages, taken in the order they appear, is allowed by `rules`. */
  predicate PairwiseAllowed(update: seq<Page>, rules: seq<Rule>) {
    forall i, j :: 0 <= i < j < |update| ==> Allow(rules, (update[i], update[j]))
  }

  /** For two pages of the update, restricting the rules to the applicable ones changes no verdict. */
  lemma AllowApplicable(rules: seq<Rule>, update: seq<Page>, a: Page, b: Page)
    requires a in update && b in update
    ensures Allow(GetApplicableFor(rules, update), (a, b)) == Allow(rules, (a, b))
  {
  }

  /** Whether the update is allowed does not change when the rules are restricted to it first. */
  lemma ApplicableAllowsAlike(rules: seq<Rule>, update: seq<Page>)
    ensures PairwiseAllowed(update, GetApplicableFor(rules, update)) <==> PairwiseAllowed(update, rules)
  {
    forall i, j | 0 <= i < j < |update|
      ensures Allow(GetApplicableFor(rules, update), (update[i], update[j])) == Allow(rules, (update[i], update[j]))
    {
      AllowApplicable(rules, update, update[i], update[j]);
    }
  }

  /** A reordering of the update is allowed by the applicable rules exactly when it is allowed by all. */
  lemma ReorderingAllowsAlike(rules: seq<Rule>, update: seq<Page>, ordered: seq<Page>)
    requires multiset(ordered) == multiset(update)
    ensures PairwiseAllowed(ordered, GetApplicableFor(rules, update)) <==> PairwiseAllowed(ordered, rules)
  {
    forall i, j | 0 <= i < j < |ordered|
      ensures Allow(GetApplicableFor(rules, update), (ordered[i], ordered[j])) == Allow(rules, (ordered[i], ordered[j]))
    {
      assert ordered[i] in multiset(update) && ordered[j] in multiset(update);
      AllowApplicable(rules, update, ordered[i], ordered[j]);
    }
  }

  /** `Update::allowed_by`: restrict the rules to the update, then check every pair of pages. */
  method AllowedBy(update: seq<Page>, rules: seq<Rule>) returns (allowed: bool)
    requires |update| > 0
    ensures allowed <==> PairwiseAllowed(update, rules)
  {
    var applicable := GetApplicableFor(rules, update);
    allowed := CheckPairs(update, applicable);
    ApplicableAllowsAlike(rules, update);
  }

  /** The nested index loops of `Update::allowed_by`, returning early at the first pair not allowed. */
  method CheckPairs(update: seq<Page>, rules: seq<Rule>) returns (allowed: bool)
    requires |update| > 0
    ensures allowed <==> PairwiseAllowed(update, rules)
  {
    for left := 0 to |update| - 1
      invariant forall i, j :: 0 <= i < left && i < j < |update| ==> Allow(rules, (update[i], update[j]))
    {
      for right := left + 1 to |update|
        invariant forall j :: left < j < right ==> Allow(rules, (update[left], update[j]))
      {
        if !Allow(rules, (update[left], update[right])) {
          return false;
        }
      }
    }
    return true;
  }

  /** The update examples of the source's tests: `1,2,3` is allowed and `2,1,3` is not. */
  lemma AllowedByExamples()
    ensures var rules := FromPairs([(1, 2), (2, 3)]);
      PairwiseAllowed([1, 2, 3], rules) && !PairwiseAllowed([2, 1, 3], rules)
  {
    var rules := FromPairs([(1, 2), (2, 3)]);
    AllowExamples();
    assert !Allow(rules, ([2, 1, 3][0], [2, 1, 3][1]));
  }

  /**
   * `rank` orders the pages of `update` consistently with every rule between
   * two of them: the rules restricted to the update have no cycle.
   */
  ghost predicate RankedBy(rules: seq<Rule>, update: seq<Page>, rank: Page -> nat) {
    forall k :: 0 <= k < |rules| && rules[k].0 in update && rules[k].1 in update ==>
      rank(rules[k].0) < rank(rules[k].1)
  }

  /**
   * `Update::order_by`: for each position from the left, swap in a page that
   * must precede the current one until none remains, then fix the position.
   * The source loops forever when the rules between the update's pages have
   * a cycle; `rank` witnesses that they do not, and bounds the swaps.
   */
  method OrderBy(update: seq<Page>, rules: seq<Rule>, ghost rank: Page -> nat) returns (ordered: seq<Page>)
    requires |update| > 0
    requires RankedBy(rules, update, rank)
    ensures |ordered| == |update| && multiset(ordered) == multiset(update)
    ensures PairwiseAllowed(ordered, rules)
    ensures PairwiseAllowed(update, rules) ==> ordered == update
  {
    var entries := update;
    var len := |entries|;
    var left := 0;
    while left < len - 1
      invariant 0 <= left <= len - 1
      invariant |entries| == len && multiset(entries) == multiset(update)
      invariant forall i, j :: 0 <= i < left && i < j < len ==> Allow(rules, (entries[i], entries[j]))
      invariant PairwiseAllowed(update, rules) ==> entries == update
    {
      var settled := false;
      while !settled
        invariant |entries| == len && multiset(entries) == multiset(update)
        invariant forall i, j :: 0 <= i < left && i < j < len ==> Allow(rules, (entries[i], entries[j]))
        invariant settled ==> forall j :: left <= j < len ==> Allow(rules, (entries[left], entries[j]))
        invariant PairwiseAllowed(update, rules) ==> entries == update
        decreases !settled, rank(entries[left])
      {
        var right := FirstInverted(entries, rules, left);
        if right < len {
          SwapLowersRank(entries, update, rules, rank, left, right);
          SwapKeepsSettled(entries, rules, left, right);
          entries := entries[left := entries[right]][right := entries[left]];
        } else {
          settled := true;
        }
      }
      left := left + 1;
    }
    ordered := entries;
  }

  /** The inner scan of `order_by`: the first entry from `left` on that the rules put before `entries[left]`. */
  method FirstInverted(entries: seq<Page>, rules: seq<Rule>, left: nat) returns (right: nat)
    requires left < |entries|
    ensures left <= right <= |entries|
    ensures forall j :: left <= j < right ==> Allow(rules, (entries[left], entries[j]))
    ensures right < |entries| ==> !Allow(rules, (entries[left], entries[right]))
  {
    right := left;
    while right < |entries| && Allow(rules, (entries[left], entries[right]))
      invariant left <= right <= |entries|
      invariant forall j :: left <= j < right ==> Allow(rules, (entries[left], entries[j]))
    {
      right := right + 1;
    }
  }

  /** The facts about one swap of `order_by` that its loops need. */
  lemma SwapLowersRank(entries: seq<Page>, update: seq<Page>, rules: seq<Rule>, rank: Page -> nat, left: nat, right: nat)
    requires left <= right < |entries|
    requires multiset(entries) == multiset(update)
    requires RankedBy(rules, update, rank)
    requires !Allow(rules, (entries[left], entries[right]))
    ensures rank(entries[right]) < rank(entries[left])
    ensures PairwiseAllowed(update, rules) ==> entries != update
  {
    assert entries[left] in multiset(update) && entries[right] in multiset(update);
    var k :| 0 <= k < |rules| && rules[k] == (entries[right], entries[left]);
    assert rules[k].0 in update && rules[k].1 in update;
  }

  /** Swapping two unsettled entries keeps the entries and the settled prefix. */
  lemma SwapKeepsSettled(entries: seq<Page>, rules: seq<Rule>, left: nat, right: nat)
    requires left <= right < |entries|
    requires forall i, j :: 0 <= i < left && i < j < |entries| ==> Allow(rules, (entries[i], entries[j]))
    ensures var swapped := entries[left := entries[right]][right := entries[left]];
      && |swapped| == |entries|
      && multiset(swapped) == multiset(entries)
      && forall i, j :: 0 <= i < left && i < j < |swapped| ==> Allow(rules, (swapped[i], swapped[j]))
  {
    var swapped := entries[left := entries[right]][right := entries[left]];
    forall i, j | 0 <= i < left && i < j < |swapped|
      ensures Allow(rules, (swapped[i], swapped[j]))
    {
      assert swapped[i] == entries[i];
      if j == left {
        assert swapped[j] == entries[right];
      } else if j == right {
        assert swapped[j] == entries[left];
      } else {
        assert swapped[j] == entries[j];
      }
    }
  }

  /** A rank that orders all the rules orders the applicable ones too. */
  lemma RankedByApplicable(rules: seq<Rule>, update: seq<Page>, rank: Page -> nat)
    requires RankedBy(rules, update, rank)
    ensures RankedBy(GetApplicableFor(rules, update), update, rank)
  {
    var applicable := GetApplicableFor(rules, update);
    forall k | 0 <= k < |applicable| && applicable[k].0 in update && applicable[k].1 in update
      ensures rank(applicable[k].0) < rank(applicable[k].1)
    {
      assert applicable[k] in applicable;
      var m :| 0 <= m < |rules| && rules[m] == applicable[k];
    }
  }

  /** `allowed_by` indexes up to `len() - 1`, which underflows for an empty update. */
  predicate AllNonEmpty(updates: seq<seq<Page>>) {
    forall k :: 0 <= k < |updates| ==> |updates[k]| > 0
  }

  /** The sum of the middle pages of all updates. */
  function SumOfMiddles(updates: seq<seq<Page>>): nat
    requires AllNonEmpty(updates)
  {
    if updates == [] then 0 else Middle(updates[0]) + SumOfMiddles(updates[1..])
  }

  /** Part 1: the sum of the middle pages of the updates the rules allow. */
  function Part1(rules: seq<Rule>, updates: seq<seq<Page>>): (sum: nat)
    requires AllNonEmpty(updates)
    ensures sum <= SumOfMiddles(updates)
    ensures (forall k :: 0 <= k < |updates| ==> PairwiseAllowed(updates[k], rules)) ==> sum == SumOfMiddles(updates)
    ensures (forall k :: 0 <= k < |updates| ==> !PairwiseAllowed(updates[k], rules)) ==> sum == 0
  {
    if updates == [] then 0
    else (if PairwiseAllowed(updates[0], rules) then Middle(updates[0]) else 0) + Part1(rules, updates[1..])
  }

  /**
   * What part 2 sums: the middle page of `ordered[k]`, the reordering of
   * `updates[k]`, for every update that the rules do not allow as it is.
   */
  function ReorderedSum(rules: seq<Rule>, updates: seq<seq<Page>>, ordered: seq<seq<Page>>): nat
    requires |ordered| == |updates|
    requires forall k :: 0 <= k < |ordered| ==> |ordered[k]| > 0
  {
    if updates == [] then 0
    else
      (if PairwiseAllowed(updates[0], rules) then 0 else Middle(ordered[0]))
      + ReorderedSum(rules, updates[1..], ordered[1..])
  }

  lemma {:induction false} ReorderedSumAppend(rules: seq<Rule>, updates: seq<seq<Page>>, ordered: seq<seq<Page>>,
                                              update: seq<Page>, reordered: seq<Page>)
    requires |ordered| == |updates|
    requires forall k :: 0 <= k < |ordered| ==> |ordered[k]| > 0
    requires |reordered| > 0
    ensures ReorderedSum(rules, updates + [update], ordered + [reordered])
      == ReorderedSum(rules, updates, ordered) + (if PairwiseAllowed(update, rules) then 0 else Middle(reordered))
  {
    if updates != [] {
      assert (updates + [update])[1..] == updates[1..] + [update];
      assert (ordered + [reordered])[1..] == ordered[1..] + [reordered];
      ReorderedSumAppend(rules, updates[1..], ordered[1..], update, reordered);
    }
  }

  /** `ordered[k]` is an allowed reordering of `updates[k]`, for every `k`. */
  ghost predicate AllowedReorderings(rules: seq<Rule>, updates: seq<seq<Page>>, ordered: seq<seq<Page>>) {
    && |ordered| == |updates|
    && forall k :: 0 <= k < |updates| ==>
      && |ordered[k]| == |updates[k]|
      && multiset(ordered[k]) == multiset(updates[k])
      && PairwiseAllowed(ordered[k], rules)
  }

  /**
   * Part 2: reorder every update the rules do not allow (under the rules
   * applicable to it) and sum the middle pages of the results. `ranks[k]`
   * witnesses that the rules among the pages of a not-allowed `updates[k]`
   * have no cycle, without which `order_by` never returns; `ordered` records
   * the reorderings.
   */
  method Part2(rules: seq<Rule>, updates: seq<seq<Page>>, ghost ranks: seq<Page -> nat>)
    returns (sum: nat, ghost ordered: seq<seq<Page>>)
    requires AllNonEmpty(updates)
    requires |ranks| == |updates|
    requires forall k :: 0 <= k < |updates| && !PairwiseAllowed(updates[k], rules) ==> RankedBy(rules, updates[k], ranks[k])
    ensures AllowedReorderings(rules, updates, ordered)
    ensures sum == ReorderedSum(rules, updates, ordered)
  {
    sum, ordered := 0, [];
    for n := 0 to |updates|
      invariant AllowedReorderings(rules, updates[..n], ordered)
      invariant sum == ReorderedSum(rules, updates[..n], ordered)
    {
      var update := updates[n];
      var next, middle := Reorder(rules, update, ranks[n]);
      ReorderedSumAppend(rules, updates[..n], ordered, update, next);
      assert updates[..n + 1] == updates[..n] + [update];
      sum := sum + middle;
      ordered := ordered + [next];
    }
    assert updates[..|updates|] == updates;
  }

  /** The body of part 2's `filter_map` for one update, with the `middle` of its result. */
  method Reorder(rules: seq<Rule>, update: seq<Page>, ghost rank: Page -> nat) returns (ghost next: seq<Page>, middle: nat)
    requires |update| > 0
    requires !PairwiseAllowed(update, rules) ==> RankedBy(rules, update, rank)
    ensures |next| == |update| && multiset(next) == multiset(update) && PairwiseAllowed(next, rules)
    ensures middle == if PairwiseAllowed(update, rules) then 0 else Middle(next)
  {
    var applicable := GetApplicableFor(rules, update);
    var allowed := AllowedBy(update, applicable);
    ApplicableAllowsAlike(rules, update);
    next, middle := update, 0;
    if !allowed {
      RankedByApplicable(rules, update, rank);
      var reordered := OrderBy(update, applicable, rank);
      ReorderingAllowsAlike(rules, update, reordered);
      next, middle := reordered, Middle(reordered);
    }
  }

  /** The rules compare every two distinct pages of `update`, one way or the other. */
  ghost predicate TotallyRuled(update: seq<Page>, rules: seq<Rule>) {
    forall x, y :: x in update && y in update && x != y ==> (x, y) in rules || (y, x) in rules
  }

  /**
   * When the rules compare every two distinct pages of an update, it has only
   * one allowed reordering, so whatever swaps `order_by` makes, its result,
   * and part 2's answer, are determined by the input.
   */
  lemma {:induction false} ReorderingUnique(a: seq<Page>, b: seq<Page>, rules: seq<Rule>)
    requires multiset(a) == multiset(b)
    requires TotallyRuled(a, rules)
    requires PairwiseAllowed(a, rules) && PairwiseAllowed(b, rules)
    ensures a == b
  {
    assert |a| == |multiset(a)| == |multiset(b)| == |b|;
    if a != [] {
      FirstPagesAgree(a, b, rules);
      TailsAgree(a, b, rules);
      ReorderingUnique(a[1..], b[1..], rules);
      assert a == [a[0]] + a[1..] && b == [b[0]] + b[1..];
    }
  }

  /** Dropping equal first pages keeps the hypotheses of `ReorderingUnique`. */
  lemma TailsAgree(a: seq<Page>, b: seq<Page>, rules: seq<Rule>)
    requires a != [] && b != [] && a[0] == b[0] && multiset(a) == multiset(b)
    requires TotallyRuled(a, rules)
    requires PairwiseAllowed(a, rules) && PairwiseAllowed(b, rules)
    ensures multiset(a[1..]) == multiset(b[1..])
    ensures TotallyRuled(a[1..], rules)
    ensures PairwiseAllowed(a[1..], rules) && PairwiseAllowed(b[1..], rules)
  {
    assert a == [a[0]] + a[1..] && b == [b[0]] + b[1..];
    assert multiset(a[1..]) == multiset(a) - multiset{a[0]};
    assert multiset(b[1..]) == multiset(b) - multiset{b[0]};
    assert forall x :: x in a[1..] ==> x in a;
  }

  lemma FirstPagesAgree(a: seq<Page>, b: seq<Page>, rules: seq<Rule>)
    requires multiset(a) == multiset(b) && a != [] && b != []
    requires TotallyRuled(a, rules)
    requires PairwiseAllowed(a, rules) && PairwiseAllowed(b, rules)
    ensures a[0] == b[0]
  {
    var x, y := a[0], b[0];
    assert x in multiset(b) && y in multiset(a);
    var k :| 0 <= k < |b| && b[k] == x;
    var m :| 0 <= m < |a| && a[m] == y;
  }

  /** Under totally ruled updates, any two runs of part 2 reorder alike. */
  lemma Part2Determined(rules: seq<Rule>, updates: seq<seq<Page>>, o1: seq<seq<Page>>, o2: seq<seq<Page>>)
    requires forall k :: 0 <= k < |updates| ==> TotallyRuled(updates[k], rules)
    requires AllowedReorderings(rules, updates, o1) && AllowedReorderings(rules, updates, o2)
    ensures o1 == o2
  {
    forall k | 0 <= k < |updates| ensures o1[k] == o2[k] {
      assert forall x :: x in o1[k] <==> x in multiset(updates[k]);
      ReorderingUnique(o1[k], o2[k], rules);
    }
  }
}
