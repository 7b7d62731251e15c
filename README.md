# Advent of Code 2024, days 1, 2, 4, 5 and 6, in Dafny

This project models five puzzle solvers from a Rust Advent of Code 2024
repository and proves properties of the models. Each solver parses its
puzzle text into a structure and computes two answers.

- **Day 1** (`ListDistance`): two columns of location ids.
  - `parse` sorts both columns.
  - Part 1 sums the distances between the paired sorted ids.
  - Part 2 sums each left id weighted by how often it occurs on the right.
- **Day 2** (`ReportSafety`): reports of levels.
  - A report is safe when its levels change in one direction by 1 to 3 per step.
  - The "problem dampener" also accepts a report that becomes safe once one level is removed.
- **Day 4** (`WordSearch`): a letter grid.
  - Four iterators yield its rows, its columns, both families of diagonals, and its 3×3 blocks.
  - Part 1 counts XMAS and SAMX in every line.
  - Part 2 counts the blocks whose diagonals read MAS or SAM twice.
- **Day 5** (`PageOrdering`): page-ordering rules `a|b` and updates (lists of pages).
  - Part 1 sums the middle pages of the updates the rules allow.
  - Part 2 reorders the other updates with a swap loop and sums their middle pages.
- **Day 6** (`GuardGeometry`, `GuardWalk`, `GuardWalkExamples`): a guard walks a grid.
  - The guard turns clockwise in front of an obstruction and marks every tile it leaves.
  - Part 1 counts the marked tiles.
  - Part 2 cuts the walk into straight lines. It proposes an obstacle one step past each crossing of a line with an earlier, backwards-extended line that runs a quarter turn further on.

Shared helpers:

- `Options` holds the `Option` type.
- `Sorting` is an insertion sort over a total preorder. It models the
  standard library `sort` used by days 1, 5 and 6.
- `Arith` holds facts about Euclidean division. These are the facts behind
  the conversions between row-major indices and coordinates.

How the model is shaped:

- Code that updates state in place is modelled as a class with methods.
  - The day 6 `Map` keeps an `array<Tile>`.
  - Each day 4 iterator is a class with a cursor.
- Loops are methods with invariants.
- Each method is proved against a pure specification function. The
  properties the source promises are proved about those functions as lemmas.

Which lines `try_get_obstacle` pairs: a later line with an earlier line
whose direction is the later line's direction turned clockwise
(`src/day06.rs:82`).

## Model

| member | source | states |
|---|---|---|
| ListDistance.LeftColumn | src/day01.rs:11-18 | the left column of the unzipped pairs, entry by entry |
| ListDistance.RightColumn | src/day01.rs:11-18 | the right column of the unzipped pairs, entry by entry |
| ListDistance.AscendingIsTotalOrder | src/day01.rs:20-21 | the `i64` order used to sort the columns is a total order |
| ListDistance.Parse | src/day01.rs:10-24 | both lists have one entry per input line, are sorted ascending, and are permutations of the left and right columns |
| ListDistance.TotalDistance | src/day01.rs:26-31 | the total distance is non-negative and at least the distance of every single pair the zip takes |
| ListDistance.TotalDistanceZeroIff | src/day01.rs:26-31 | for lists of equal length, the total distance is zero exactly when the lists are equal |
| ListDistance.TotalDistanceSymmetric | src/day01.rs:26-31 | swapping the two lists leaves the total distance unchanged |
| ListDistance.Part1 | src/day01.rs:26-31 | the answer is non-negative, and for equal lengths it is zero exactly when the sorted lists coincide |
| ListDistance.RightCounts | src/day01.rs:34-40 | the counting loop's map has exactly the values of the right list as keys, each mapped to its number of occurrences |
| ListDistance.WeightedSumIsSimilarity | src/day01.rs:42-44 | looking each left value up in a map that counts the right list (absent keys count 0) gives the sum of each left value times its multiplicity on the right |
| ListDistance.Part2 | src/day01.rs:33-45 | the answer is the sum over the left list of value × occurrences in the right list |
| ReportSafety.FoldSteps | src/day02.rs:62-72 | the fold stays `Ok` exactly when every adjacent pair compares in the given direction and differs by 1 to 3 |
| ReportSafety.IsSafe | src/day02.rs:53-73 | reports of length ≤ 1 are safe; reports whose first two levels are equal are unsafe; otherwise safe exactly when every step agrees with the first step's direction and differs by 1 to 3 |
| ReportSafety.IsSafeIffGradual | src/day02.rs:53-73 | safe exactly when the levels strictly increase by 1 to 3 per step, or strictly decrease by 1 to 3 per step |
| ReportSafety.WithIdxRemoved | src/day02.rs:47-51 | the result is one shorter, keeps the levels before `idx`, shifts the later ones down by one, and loses exactly one copy of `levels[idx]` |
| ReportSafety.IsSafeWithProblemDampener | src/day02.rs:40-45 | a report passes exactly when it is safe, or becomes safe once the level at some index is removed |
| ReportSafety.DampenerAcceptsMore | src/day02.rs:40-45 | a safe report passes the dampener, and so does every report of at most two levels |
| ReportSafety.Part1 | src/day02.rs:24-26 | the number of safe reports is at most the number of reports |
| ReportSafety.Part2 | src/day02.rs:28-33 | the number of dampener-safe reports is at most the number of reports |
| ReportSafety.Part1AtMostPart2 | src/day02.rs:24-33 | part 1 ≤ part 2 ≤ the number of reports |
| PageOrdering.PairLeIsTotalOrder | src/day05.rs:88-93 | the lexicographic order on rule pairs is a total order |
| PageOrdering.FromPairs | src/day05.rs:88-93 | the stored rules are a sorted permutation of the given pairs |
| PageOrdering.AnyRuleInverts | src/day05.rs:72-74 | true exactly when the pair turned round is one of the rules |
| PageOrdering.Allow | src/day05.rs:71-75 | a pair `(a, b)` is allowed exactly when `(b, a)` is not a rule |
| PageOrdering.AllowExamples | src/day05.rs:143-152 | with the rules (1, 2) and (2, 3): (1,2), (1,3), (2,3) and (3,1) are allowed; (2,1) and (3,2) are not |
| PageOrdering.Contains | src/day05.rs:104-106 | true exactly when some index of the update holds the page |
| PageOrdering.ApplicableFilter | src/day05.rs:77-83 | keeps each rule, with its multiplicity, exactly when both of its pages occur in the update |
| PageOrdering.GetApplicableFor | src/day05.rs:77-85 | sorted; holds exactly the rules whose two pages occur in the update, each with its multiplicity |
| PageOrdering.Middle | src/day05.rs:100-102 | the page at index `len / 2`, with as many pages after it as before it, or one fewer |
| PageOrdering.AllowApplicable | src/day05.rs:109-112 | for two pages of the update, the applicable rules allow the pair exactly when all the rules do |
| PageOrdering.ApplicableAllowsAlike | src/day05.rs:108-118 | restricting the rules to the update does not change whether every pair of the update is allowed |
| PageOrdering.ReorderingAllowsAlike | src/day05.rs:49-51 | the same holds for any reordering of the update |
| PageOrdering.AllowedBy | src/day05.rs:108-118 | for a non-empty update: true exactly when `allow(u[i], u[j])` holds for every `i < j` |
| PageOrdering.CheckPairs | src/day05.rs:110-117 | the nested loops with early return give true exactly when every pair `i < j` is allowed |
| PageOrdering.AllowedByExamples | src/day05.rs:154-160 | with the rules (1, 2) and (2, 3), the update 1,2,3 is allowed and 2,1,3 is not |
| PageOrdering.OrderBy | src/day05.rs:120-137 | the result has the same length and is a permutation of the update; every pair `i < j` of it is allowed; an update already allowed comes back unchanged |
| PageOrdering.FirstInverted | src/day05.rs:128-133 | the inner scan stops at the first index from `left` on whose pair with the left entry is not allowed, or at the end; every pair before it is allowed |
| PageOrdering.SwapLowersRank | src/day05.rs:126-129 | a swap happens only for a pair whose right page ranks below its left page, so the swaps terminate |
| PageOrdering.RankedByApplicable | src/day05.rs:49-51 | a ranking consistent with all rules is consistent with the applicable ones |
| PageOrdering.Part1 | src/day05.rs:37-43 | at most the sum of all middles; equal to it when every update is allowed; zero when none is |
| PageOrdering.ReorderedSumAppend | src/day05.rs:45-58 | one more update adds its reordered middle exactly when it is not allowed |
| PageOrdering.Reorder | src/day05.rs:48-56 | gives an allowed permutation of the update; the contribution is the middle of the reordering when the update is not allowed, and 0 otherwise |
| PageOrdering.Part2 | src/day05.rs:45-58 | every update has an allowed permutation, and the sum is the sum of the middles of the reorderings of the not-allowed updates |
| PageOrdering.ReorderingUnique | src/day05.rs:120-137 | when the rules compare every two pages of an update, two allowed permutations of it are equal |
| PageOrdering.FirstPagesAgree | src/day05.rs:120-137 | under such rules, two allowed permutations start with the same page |
| PageOrdering.Part2Determined | src/day05.rs:45-58 | under such rules, part 2's reorderings (and so its answer) do not depend on which swaps were made |
| GuardGeometry.Dir.Rotate | src/day06.rs:242-249 | a quarter turn changes the direction and flips whether it is horizontal |
| GuardGeometry.Dir.IsHorizontal | src/day06.rs:260-267 | horizontal exactly for the directions whose step stays in its row (left and right) |
| GuardGeometry.Dir.Step | src/day06.rs:251-258 | a step moves one unit along the direction's axis and keeps the other coordinate |
| GuardGeometry.RotationCycle | src/day06.rs:242-249 | up → right → down → left → up |
| GuardGeometry.FourRotationsIdentity | src/day06.rs:242-249 | four quarter turns give back the direction |
| GuardGeometry.TwoRotationsReverse | src/day06.rs:68-79 | stepping with the reversed direction undoes a step, in either order |
| GuardGeometry.OutOfBounds | src/day06.rs:206-211 | a coordinate that is not out of bounds has a tile index below width × height |
| GuardGeometry.CoordinateFrom | src/day06.rs:213-218 | the coordinate's x is below the width and its y is non-negative, and `index_from` gives back the index |
| GuardGeometry.IndexFrom | src/day06.rs:220-222 | for `0 ≤ x < width` and `y ≥ 0`, the index is non-negative, and its quotient and remainder by the width are `y` and `x` |
| GuardGeometry.CoordinateRoundTrip | src/day06.rs:206-222 | for an index below width × height, `coordinate_from` is in bounds and `index_from` maps it back |
| GuardGeometry.IndexRoundTrip | src/day06.rs:206-222 | for an in-bounds coordinate, `index_from` is below width × height and `coordinate_from` maps it back |
| GuardGeometry.IndexFromInjective | src/day06.rs:220-222 | two in-bounds coordinates with the same index are equal |
| GuardGeometry.NewLine | src/day06.rs:285-291 | a line is built only when a horizontal line keeps its y and a vertical line keeps its x |
| GuardGeometry.IntersectsWith | src/day06.rs:293-323 | parallel lines give none; a crossing point lies within both lines' ranges |
| GuardGeometry.IntersectionSymmetric | src/day06.rs:303-322 | swapping the two lines gives the same result |
| GuardGeometry.IntersectionComplete | src/day06.rs:308-322 | two perpendicular axial lines that share a point cross at that point |
| GuardGeometry.IntersectionExample | src/day06.rs:331-337 | the source test's lines cross at (9, 1); a right line and a left line on the same row give none |
| GuardWalk.IsObstructed | src/day06.rs:197-204 | a tile lets the guard through exactly when it is empty or marked; an obstruction or a guard blocks |
| GuardWalk.TileAt | src/day06.rs:206-222 | a tile exists exactly for the in-bounds coordinates |
| GuardWalk.GuardAt | src/day06.rs:133-135 | the guard's coordinate is in bounds and holds the guard's tile |
| GuardWalk.GuardDir | src/day06.rs:190-195 | the direction the guard's own tile shows |
| GuardWalk.NextState | src/day06.rs:128-156 | a step keeps the board well formed and its size |
| GuardWalk.StepEffect | src/day06.rs:128-156 | no guard: nothing changes and the event is Exit. Otherwise three cases. Tile ahead off the grid: the guard's tile becomes Marked, the guard is gone, and the event is Exit. Tile ahead obstructed or a guard: only the guard's tile changes, to the turned guard, and the event is Rotate(turned). Else the old tile becomes Marked, the tile ahead becomes the guard, no other tile changes, and the event is Forward |
| GuardWalk.CountUpdate | src/day06.rs:139-151 | writing one tile changes a tile count by exactly the change at that tile |
| GuardWalk.StepKeepsSingleGuard | src/day06.rs:113-156 | while the guard index is set, exactly one tile is a guard, at that index, and afterwards none is; a step keeps this |
| GuardWalk.StepKeepsMarks | src/day06.rs:139-152 | a step never lowers the number of marked tiles, and leaving the grid raises it by one |
| GuardWalk.Run | src/day06.rs:30-33 | when the walk ends within the fuel, the guard is gone and the board keeps its size |
| GuardWalk.Part1Count | src/day06.rs:30-39 | when the walk ends within the fuel, the count is at least the number of tiles marked at the start and at most width × height, and at least 1 if there was a guard |
| GuardWalk.RunFuelIrrelevant | src/day06.rs:30-33 | more fuel does not change a walk that ended |
| GuardWalk.RunMarks | src/day06.rs:30-39 | after the walk there are at least as many marked tiles as before, at least one if there was a guard, and at most width × height |
| GuardWalk.RunClearsGuard | src/day06.rs:30-33 | after the walk no tile shows the guard |
| GuardWalk.EdgeAhead | src/day06.rs:172-178 | the border point `get_all_lines` closes the last line at is in line with the guard, ahead of it, in bounds, and one step before the grid's edge |
| GuardWalk.Trace | src/day06.rs:164-185 | the lines already recorded are a prefix of the lines returned |
| GuardWalk.TracingAfterStep | src/day06.rs:164-185 | each step keeps the guard on the ray of the current line (Forward), starts a new ray at the guard (Rotate), or leaves from the end of the ray (Exit) |
| GuardWalk.PathExtend | src/day06.rs:165-181 | appending a line that starts where the path ends extends the path |
| GuardWalk.TraceIsPath | src/day06.rs:158-188 | the recorded lines form a chain: every line is axial, has positive length and is in bounds, and each starts where the last one ended; the chain ends on the border |
| GuardWalk.Lines | src/day06.rs:158-188 | `get_all_lines` from the guard's tile gives such a chain of axial lines, starting at the guard and ending on the grid's border |
| GuardWalk.ExtendFrom | src/day06.rs:69-77 | the start of an extended line lies behind the line's start; every tile from just behind the start up to it is open, and an obstruction or the edge lies just behind it |
| GuardWalk.Extend | src/day06.rs:68-79 | an extended line is still axial |
| GuardWalk.ExtendKeepsLine | src/day06.rs:68-79 | extending keeps the direction and the end, and covers every point the line covered |
| GuardWalk.TryGetObstacle | src/day06.rs:81-103 | proposes a tile exactly when the earlier line's direction is the later one's turned clockwise, they cross, and the tile one step past the crossing is in bounds and not obstructed; the proposal is that tile |
| GuardWalk.UncheckedIndex | src/day06.rs:220-222 | the `usize` arithmetic overflows exactly for a negative component; for `0 ≤ x < width` the index converts back to the coordinate; for `x = width` it names the first tile of the next row |
| GuardWalk.TryGetObstacleAsWritten | src/day06.rs:81-103 | whenever the checked probe proposes a tile, the unchecked one proposes the same tile; it panics only when the tile past the crossing is off the grid |
| GuardWalk.AsWrittenAgreesInside | src/day06.rs:91-94 | the unchecked lookup agrees with the corrected probe whenever the proposed tile is inside the grid |
| GuardWalk.ObstaclesFor | src/day06.rs:49-53 | at most one proposal per earlier line |
| GuardWalk.ExtendAll | src/day06.rs:55 | one extended line per recorded line |
| GuardWalk.ExtendAllAt | src/day06.rs:55 | the `k`-th extended line is the `k`-th recorded line extended |
| GuardWalk.ObstaclesForExactly | src/day06.rs:49-53 | a tile is proposed against the earlier lines exactly when it is proposed against one of them |
| GuardWalk.CandidatesSound | src/day06.rs:44-59 | every tile the fold collects is proposed by a later line against the extension of an earlier one |
| GuardWalk.CandidatesRound | src/day06.rs:44-59 | round `n` of the fold appends line `n`'s obstacles against the extensions of the lines before it |
| GuardWalk.CandidatesPrefix | src/day06.rs:44-59 | a tile the fold collects from the first `j` lines is also collected from all of them |
| GuardWalk.CandidatesThroughRound | src/day06.rs:44-59 | the fold up to and including line `m` collects that line's obstacles |
| GuardWalk.CandidatesComplete | src/day06.rs:44-59 | every tile among some line's obstacles against the earlier extended lines is collected |
| GuardWalk.CandidatesExactly | src/day06.rs:44-59 | a tile is collected exactly when some later line proposes it against the extension of an earlier line |
| GuardWalk.CandidatesOpen | src/day06.rs:44-59 | every collected tile is in bounds and not obstructed |
| GuardWalk.CoordLeIsTotalOrder | src/day06.rs:62 | the lexicographic order on coordinate pairs is a total order |
| GuardWalk.SortCoords | src/day06.rs:62 | the result is a sorted permutation of the input |
| GuardWalk.Dedup | src/day06.rs:63 | keeps the same elements and the first one; no two neighbours are equal |
| GuardWalk.DedupSortedDistinct | src/day06.rs:62-63 | dedup of a sorted sequence has no repeated element |
| GuardWalk.DistinctCardinality | src/day06.rs:64 | a sequence without repeats is as long as its set of elements |
| GuardWalk.SortDedupCountsDistinct | src/day06.rs:62-64 | sort, then dedup, then length, counts the distinct elements |
| GuardWalk.Part2Count | src/day06.rs:41-65 | defined exactly when the walk's lines are, and then the number of distinct tiles the fold collects |
| GuardWalk.Part2CountsDistinct | src/day06.rs:41-65 | part 2 counts the distinct proposed tiles: the lines are axial; a tile is counted exactly when a later line proposes it against the extension of an earlier one; every counted tile is open |
| GuardWalk.FirstGuard | src/day06.rs:115-118 | the index of the first guard tile, or none when no tile is a guard |
| GuardWalk.Map.constructor | src/day06.rs:114-126 | the map holds the tiles, the sizes, and the index of the first guard tile |
| GuardWalk.Map.Clone | src/day06.rs:42 | the copy has its own tile array with the same board |
| GuardWalk.Map.Step | src/day06.rs:128-156 | the new board and the event are those of `NextState` on the old board |
| GuardWalk.Map.Part1 | src/day06.rs:30-39 | with enough fuel, the answer is the number of marked tiles after the walk, and the map is left in the final state of the walk |
| GuardWalk.Map.GetAllLines | src/day06.rs:158-188 | the lines recorded are those of `Lines` from the initial board |
| GuardWalk.Map.ExtendLine | src/day06.rs:68-79 | the loop's result is the extended line |
| GuardWalk.Map.ObstaclesAgainst | src/day06.rs:49-53 | the inner loop's proposals are those of `ObstaclesFor` |
| GuardWalk.Map.CollectObstacles | src/day06.rs:44-59 | the fold's result is `Candidates` of the lines |
| GuardWalk.Map.Part2 | src/day06.rs:41-65 | the answer is `Part2Count` of the map, which `Part2CountsDistinct` characterises |
| GuardWalk.ParseTiles | src/day06.rs:12-25 | one tile per character, row after row |
| GuardWalk.ParseTilesAt | src/day06.rs:12-25 | the tile at index `y * width + x` is the parsed character at row `y`, column `x` |
| GuardWalk.Parse | src/day06.rs:9-28 | the map's width is the length of the first row, its height the number of rows, its tiles the parsed characters, and its guard the first guard tile |
| GuardWalkExamples.PanicGridParsed | src/day06.rs:9-28 | the first example text parses to the first example board |
| GuardWalkExamples.WrapGridParsed | src/day06.rs:9-28 | the second example text parses to the second example board |
| GuardWalkExamples.WrapGridFirstGuard | src/day06.rs:114-126 | the second example board's guard is its first guard tile |
| GuardWalkExamples.PanicGridLines | src/day06.rs:158-188 | the first example's walk gives the lines right, down, left, up |
| GuardWalkExamples.WrapGridLines | src/day06.rs:158-188 | the second example's walk gives the lines down, left, up, right |
| GuardWalkExamples.AsWrittenPanicsAboveGrid | src/day06.rs:91-92 | in the first example, the source looks up the tile (1, -1) above the grid; the corrected probe proposes nothing |
| GuardWalkExamples.AsWrittenCountsOutsideGrid | src/day06.rs:91-93 | in the second example, the source proposes the tile (4, 1) right of the grid, whose index names the open tile (0, 2); the corrected probe proposes nothing |
| WordSearch.NewGrid | src/day04.rs:65-73 | the height is the number of rows and the width the length of the first row |
| WordSearch.Rows | src/day04.rs:100-108 | one string per row, the `i`-th being row `i` |
| WordSearch.HorizontalIterator.Next | src/day04.rs:100-108 | yields row `row` and advances while rows remain, then yields none |
| WordSearch.CollectRows | src/day04.rs:23-28 | draining the iterator yields exactly the rows |
| WordSearch.Column | src/day04.rs:125-133 | column `j` read top to bottom |
| WordSearch.Columns | src/day04.rs:125-133 | one string per column, the `j`-th being column `j` |
| WordSearch.VerticalIterator.Next | src/day04.rs:125-133 | yields column `column` and advances while columns remain, then yields none |
| WordSearch.CollectColumns | src/day04.rs:23-28 | draining the iterator yields exactly the columns |
| WordSearch.DiagColumn | src/day04.rs:172-179 | with the row's shift `r` (forward) or `height - 1 - r` (backward), a column exists exactly when the shift is at most the offset, and then column + shift = offset |
| WordSearch.GetRow | src/day04.rs:165-180 | a letter exactly when column `offset - shift` lies inside the row, and then the row's letter in that column |
| WordSearch.DiagPrefix | src/day04.rs:182-184 | collecting over the first `n` rows yields at most `n` letters |
| WordSearch.DiagonalHoldsCell | src/day04.rs:165-180 | the backward string at offset `k` reads the cells with `column + (height - 1 - row) = k`, the forward string the cells with `row + column = k`, and every cell's offset is below `width + height - 1` |
| WordSearch.Diagonals | src/day04.rs:155-187 | `width + height - 1` backward strings, then as many forward strings |
| WordSearch.DiagonalIterator.Next | src/day04.rs:155-187 | yields the string at its position in `Diagonals` and advances, switching passes at the end of the backward pass; after the forward pass, none |
| WordSearch.CollectDiagonals | src/day04.rs:23-28 | draining the iterator yields exactly both passes of diagonals |
| WordSearch.Block | src/day04.rs:215-231 | a 3×3 block whose entry `[i][j]` is the grid's `[offset_x + j][offset_y + i]` |
| WordSearch.Blocks | src/day04.rs:210-239 | (width − 2) × (height − 2) 3×3 blocks when both sizes are at least 3, none otherwise |
| WordSearch.BlocksAt | src/day04.rs:210-239 | the block at `(offset_x, offset_y)` is number `offset_y × (height − 2) + offset_x` |
| WordSearch.Advance | src/day04.rs:232-236 | moving the cursor down, or to the top of the next column, advances its position by one |
| WordSearch.BlockIterator.Next | src/day04.rs:210-239 | yields the block at its position in `Blocks` and advances; after the last column, none |
| WordSearch.CollectBlocks | src/day04.rs:45 | draining the iterator yields exactly the blocks |
| WordSearch.Letters | src/day04.rs:182-184 | `filter_map` keeps at most one letter per row |
| WordSearch.CountSplit | src/day04.rs:36 | occurrence counts add up over adjacent ranges |
| WordSearch.CountSkip | src/day04.rs:36 | skipping indices that start no occurrence does not change the count |
| WordSearch.OverlapBorder | src/day04.rs:36 | two occurrences closer than the word's length make a suffix of the word equal a prefix |
| WordSearch.NoOverlap | src/day04.rs:36 | a word without such a border cannot occur again inside one of its occurrences |
| WordSearch.Scan | src/day04.rs:36 | the matches found from index `i` on do not overlap: their number times the word's length is at most the length left |
| WordSearch.ScanCountsOccurrences | src/day04.rs:36 | for such a word, the leftmost non-overlapping search counts every occurrence |
| WordSearch.Reverse | src/day04.rs:32-33 | the reversal has the same length and reads the string back to front |
| WordSearch.OccursReversed | src/day04.rs:32-33 | the reversed word occurs in the reversed string at `i` exactly when the word occurs in the string at `length(s) − length(w) − i` |
| WordSearch.CountReflect | src/day04.rs:32-33 | counting in the reversed string from the left equals counting in the original from the right |
| WordSearch.OccurrencesReversed | src/day04.rs:32-33 | the reversed word occurs in the reversed string as often as the word occurs in the string |
| WordSearch.TotalMatchesSplit | src/day04.rs:35-37 | the sum of matches over two lists of lines is the sum of the two sums |
| WordSearch.TotalMatchesShort | src/day04.rs:35-37 | lines shorter than both words contribute nothing |
| WordSearch.AllLines | src/day04.rs:23-29 | rows, columns and both diagonal passes: height + width + 2 × (width + height − 1) lines |
| WordSearch.XmasOverlapFree | src/day04.rs:32-33 | neither XMAS nor SAMX can overlap itself |
| WordSearch.MatchesCountXmasBothWays | src/day04.rs:31-37 | matches of XMAS plus matches of SAMX count every occurrence of XMAS in each line, read forwards and backwards |
| WordSearch.Part1 | src/day04.rs:22-39 | the answer is the number of occurrences of XMAS, read either way, in every row, column and diagonal |
| WordSearch.Square3Diagonals | src/day04.rs:47-50 | of a 3×3 block's ten diagonal strings, the third of each pass is a corner-to-corner diagonal and every other one has at most two letters |
| WordSearch.Square3DiagonalRows | src/day04.rs:182-184 | a diagonal string of a 3×3 block is its three rows' letters in order |
| WordSearch.MasMatches | src/day04.rs:49 | a three-letter string matches MAS or SAM once when it is one of them, and not at all otherwise |
| WordSearch.XMasIff | src/day04.rs:46-51 | a block passes the filter exactly when both of its corner-to-corner diagonals read MAS or SAM |
| WordSearch.BlockXMasIff | src/day04.rs:45-52 | the block at `(offset_x, offset_y)` passes exactly when an X of two MAS is centred at row `offset_x + 1`, column `offset_y + 1` |
| WordSearch.BlockNumber | src/day04.rs:45-52 | block number `k` passes exactly when window position `k` centres an X-MAS |
| WordSearch.CountXMasCentres | src/day04.rs:45-53 | counting the passing blocks counts the window positions that centre an X-MAS |
| WordSearch.BlocksCountXWindows | src/day04.rs:45-53 | the filter over all blocks counts every 3×3 window centred on an X-MAS |
| WordSearch.Part2 | src/day04.rs:41-54 | the answer is the number of 3×3 windows whose centre has MAS or SAM on both diagonals |

## Left out

- Text handling is not modelled. This covers splitting the input into lines, parsing numbers with `str::parse`, and splitting day 5's two sections. Days 1, 2 and 5 start from the already-split integers. Days 4 and 6 start from the rows of characters.
- `src/day03.rs`, `src/main.rs` (file reading, choosing the day from the clock, printing) and the `Display` output of day 4's grid are not part of this model.
- The debug `println!` calls of day 6 (`src/day06.rs:61`, `src/day06.rs:130`) are left out.
- Integers are unbounded: `i64` and `usize` overflow is not modelled. The only exception is `UncheckedIndex`, which reads a negative coordinate cast to `usize` as an overflow panic, as in a debug build.
- GuardWalk.Run: the walk of `part_1` has no cycle check and never ends on a looping walk. The model takes a fuel bound of steps and returns none when it runs out.
- GuardWalk.Trace: the same fuel bound applies to `get_all_lines`, so the model does not describe walks that never leave the grid.
- PageOrdering.OrderBy: the model asks for a ranking of the pages with `rank(a) < rank(b)` for every rule `a|b`. With such a ranking, it proves termination and the result. The ranking excludes rule cycles, where `order_by` never returns. It also excludes self-rules `a|a`. With a self-rule, `order_by` loops forever once page `a` stands before the last position, but it can return otherwise: for the update x, y, a and the rules y|x and a|a it returns y, x, a (src/day05.rs:124-133). The model does not cover that case.
- PageOrdering.AllowedBy: `len() - 1` underflows for an empty update, so the model requires a non-empty update. `OrderBy`, `Middle`, `Part1` and `Part2` require the same.
- GuardWalk.Parse: the model requires rectangular rows of known characters and a non-empty first row. The source panics on other characters, and does not check rectangularity or width 0.
- GuardWalk.Map.GetAllLines: the source unwraps the guard index, so the model requires a guard. `GuardWalk.Map.Part2` requires one as well.
- WordSearch.BlockIterator.Next: the source indexes past the last row when the grid is at least 3 wide but less than 3 high, so the model requires a high enough grid. `WordSearch.CollectBlocks` and `WordSearch.Part2` require the same.
- WordSearch.DiagonalIterator.Next: the model requires `width + height ≥ 2`. For a single empty row, `width + height - 1` is 0, the pass-switch test never matches again, and the iterator never stops. `WordSearch.CollectDiagonals` and `WordSearch.Part1` require the same.
- WordSearch.Column: the model requires every row to be exactly `width` long (`Rectangular`). This is more than the source needs. `VerticalIterator` panics only on a row shorter than the first (src/day04.rs:127). Longer rows are read whole by `HorizontalIterator`, and the diagonals read them with `get` (src/day04.rs:174, 177). The same requirement is on `WordSearch.Columns`, `WordSearch.VerticalIterator.Next`, the block members, `WordSearch.Part1` and `WordSearch.Part2`.
- WordSearch.NewGrid: `vecvec[0]` panics on an empty grid (src/day04.rs:67). The model requires at least one row instead of modelling that panic.
- WordSearch.Scan: `find_iter` is modelled as a leftmost, non-overlapping search for a literal word. The regular-expression engine itself is not modelled.
- Sorting.Sort: the in-place sorts of day 1 (`left.sort()`) and days 5 and 6 are modelled on values, by an insertion sort. The result is the same, because a sorted permutation under a total order is unique.
- `Map::unsafe_guard_dir` and `Map::is_obstructed` are folded into `GuardDir` and `IsObstructed`.

## Findings

| source | as written | input that shows it | evidently intended | confidence | as-written member | corrected member |
|---|---|---|---|---|---|---|
| src/day06.rs:91-93 | `try_get_obstacle` looks up the tile one step past the crossing by `index_from` without checking that it lies inside the grid. Above the grid, the negative y cast to `usize` makes the index arithmetic overflow or point far past the tiles, so the lookup panics. Past the right edge the index wraps to the start of the next row. | Grid `.>.#` / `#...` / `..#.`: the crossing is (1, 0) and the lookup is at (1, -1), so it panics. Grid `..#.` / `...v` / `.#..` / `...#`: the crossing is (3, 1); (4, 1) gets index 8, the open tile (0, 2), so an obstacle outside the grid is proposed. | propose only in-bounds tiles that are not obstructed | not executed | GuardWalk.TryGetObstacleAsWritten, GuardWalkExamples.AsWrittenPanicsAboveGrid, GuardWalkExamples.AsWrittenCountsOutsideGrid | GuardWalk.TryGetObstacle |
