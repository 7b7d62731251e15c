/**
 * Day 2 (src/day02.rs): a report is a sequence of levels; it is safe when it
 * moves in one direction by steps of 1 to 3. The problem dampener also accepts
 * a report that becomes safe once one level is removed. The model starts from
 * the already-parsed levels (`i64` in the source, unbounded `int` here).
 */
module ReportSafety {

  /** `std::cmp::Ordering`, the result of comparing two levels. */
  datatype Ordering = Less | Equal | Greater

  function Cmp(a: int, b: int): Ordering {
    if a < b then Less else if a == b then Equal else Greater
  }

  function Abs(x: int): nat { if x < 0 then -x else x }

  /** The check the fold applies to one pair of neighbouring levels. */
  predicate StepOk(last: int, next: int, direction: Ordering) {
    var diff := Abs(last - next);
    Cmp(last, next) == direction && diff > 0 && diff <= 3
  }

  /** Every adjacent pair of `levels` compares as `direction` and lies 1 to 3 apart. */
  ghost predicate StepsAgree(levels: seq<int>, direction: Ordering) {
    forall i :: 0 <= i < |levels| - 1 ==> StepOk(levels[i], levels[i + 1], direction)
  }

  lemma StepsAgreeCons(last: int, rest: seq<int>, direction: Ordering)
    requires rest != []
    ensures StepsAgree([last] + rest, direction) <==>
      StepOk(last, rest[0], direction) && StepsAgree(rest, direction)
  {
    var s := [last] + rest;
    assert s[0] == last && s[1] == rest[0];
    if StepOk(last, rest[0], direction) && StepsAgree(rest, direction) {
      forall i | 0 <= i < |s| - 1 ensures StepOk(s[i], s[i + 1], direction) {
        if i > 0 {
          assert s[i] == rest[i - 1] && s[i + 1] == rest[i];
        }
      }
    }
    if StepsAgree(s, direction) {
      forall i | 0 <= i < |rest| - 1 ensures StepOk(rest[i], rest[i + 1], direction) {
        assert s[i + 1] == rest[i] && s[i + 2] == rest[i + 1];
      }
    }
  }

  /**
   * The fold of `is_safe`: starting from `Ok(last)`, each next level either
   * passes the check and becomes the new `last`, or turns the accumulator
   * into `Err` for good.
   */
  function FoldSteps(last: int, rest: seq<int>, direction: Ordering): (ok: bool)
    ensures ok <==> StepsAgree([last] + rest, direction)
    decreases rest
  {
    if rest == [] then true
    else
      var next := rest[0];
      var diff := Abs(last - next);
      StepsAgreeCons(last, rest, direction);
      assert rest == [next] + rest[1..];
      if Cmp(last, next) == direction && diff > 0 && diff <= 3 then FoldSteps(next, rest[1..], direction)
      else false
  }

  /** `Report::is_safe`. */
  function IsSafe(levels: seq<int>): (safe: bool)
    ensures |levels| <= 1 ==> safe
    ensures |levels| >= 2 && levels[0] == levels[1] ==> !safe
    ensures safe <==> |levels| <= 1 || (levels[0] != levels[1] && StepsAgree(levels, Cmp(levels[0], levels[1])))
  {
    if |levels| <= 1 then true
    else
      var direction := Cmp(levels[0], levels[1]);
      if direction == Equal then false
      else
        assert levels == [levels[0]] + levels[1..];
        FoldSteps(levels[0], levels[1..], direction)
  }

  /** Strictly increasing by 1 to 3 at every step. */
  ghost predicate GraduallyIncreasing(levels: seq<int>) {
    forall i :: 0 <= i < |levels| - 1 ==> 1 <= levels[i + 1] - levels[i] <= 3
  }

  /** Strictly decreasing by 1 to 3 at every step. */
  ghost predicate GraduallyDecreasing(levels: seq<int>) {
    forall i :: 0 <= i < |levels| - 1 ==> 1 <= levels[i] - levels[i + 1] <= 3
  }

  /** The puzzle's own statement of safety: all increasing or all decreasing, gently. */
  lemma IsSafeIffGradual(levels: seq<int>)
    ensures IsSafe(levels) <==> GraduallyIncreasing(levels) || GraduallyDecreasing(levels)
  {
    if |levels| >= 2 {
      if GraduallyIncreasing(levels) {
        assert Cmp(levels[0], levels[1]) == Less;
      } else if GraduallyDecreasing(levels) {
        assert Cmp(levels[0], levels[1]) == Greater;
      }
    }
  }

  /** `Report::with_idx_removed`: `Vec::remove` on a copy, which panics unless `idx < len`. */
  function WithIdxRemoved(levels: seq<int>, idx: nat): (rest: seq<int>)
    requires idx < |levels|
    ensures |rest| == |levels| - 1
    ensures forall j :: 0 <= j < idx ==> rest[j] == levels[j]
    ensures forall j :: idx <= j < |rest| ==> rest[j] == levels[j + 1]
    ensures multiset(rest) + multiset{levels[idx]} == multiset(levels)
  {
    assert levels == levels[..idx] + [levels[idx]] + levels[idx + 1..];
    levels[..idx] + levels[idx + 1..]
  }

  /**
   * `Report::is_safe_with_problem_dampener`: safe as it is, or safe once the
   * level at some index is removed.
   */
  function IsSafeWithProblemDampener(levels: seq<int>): (safe: bool)
    ensures safe <==> IsSafe(levels) || exists idx :: 0 <= idx < |levels| && IsSafe(levels[..idx] + levels[idx + 1..])
  {
    assert forall idx :: 0 <= idx < |levels| ==> WithIdxRemoved(levels, idx) == levels[..idx] + levels[idx + 1..];
    IsSafe(levels) || exists idx :: 0 <= idx < |levels| && IsSafe(WithIdxRemoved(levels, idx))
  }

  /** The dampener only ever accepts more: a safe report is dampener-safe, and so is every short one. */
  lemma DampenerAcceptsMore(levels: seq<int>)
    ensures IsSafe(levels) ==> IsSafeWithProblemDampener(levels)
    ensures |levels| <= 2 ==> IsSafeWithProblemDampener(levels)
  {
    if |levels| == 2 {
      assert IsSafe(WithIdxRemoved(levels, 0));
    }
  }

  /** Part 1: the number of safe reports. */
  function Part1(reports: seq<seq<int>>): (count: nat)
    ensures count <= |reports|
  {
    if reports == [] then 0
    else (if IsSafe(reports[0]) then 1 else 0) + Part1(reports[1..])
  }

  /** Part 2: the number of reports the problem dampener accepts. */
  function Part2(reports: seq<seq<int>>): (count: nat)
    ensures count <= |reports|
  {
    if reports == [] then 0
    else (if IsSafeWithProblemDampener(reports[0]) then 1 else 0) + Part2(reports[1..])
  }

  /** Every report part 1 counts, part 2 counts too. */
  lemma {:induction false} Part1AtMostPart2(reports: seq<seq<int>>)
    ensures Part1(reports) <= Part2(reports) <= |reports|
  {
    if reports != [] {
      DampenerAcceptsMore(reports[0]);
      Part1AtMostPart2(reports[1..]);
    }
  }
}
