/**
 * Day 4 (src/day04.rs): a grid of letters read along its rows, its columns
 * and both families of diagonals by four iterators, and 3-by-3 blocks cut out
 * of it. Part 1 counts the words XMAS and SAMX in every line; part 2 counts
 * the blocks whose two diagonals both read MAS or SAM.
 *
 * Each iterator is a class whose `Next` advances a cursor; what it yields is
 * specified by a pure sequence (`Rows`, `Columns`, `Diagonals`, `Blocks`),
 * and a `Collect` method drains a fresh iterator into exactly that sequence.
 */
module WordSearch {
  import opened Options
  import Arith

  type String = seq<char>

  /** `Grid2D`: the rows of the puzzle with the sizes `Grid2D::new` records. */
  datatype Grid2D = Grid2D(grid: seq<seq<char>>, width: nat, height: nat)

  /** `Grid2D::new`: the height is the number of rows, the width the length of the first row. */
  function NewGrid(rows: seq<seq<char>>): (g: Grid2D)
    requires |rows| > 0
    ensures g.grid == rows && g.height == |rows| && g.width == |rows[0]|
  {
    Grid2D(rows, |rows[0]|, |rows|)
  }

  /** The recorded height is the number of rows. */
  predicate Sized(g: Grid2D) {
    |g.grid| == g.height
  }

  /** Every row has the recorded width. */
  predicate Rectangular(g: Grid2D) {
    Sized(g) && forall r :: 0 <= r < g.height ==> |g.grid[r]| == g.width
  }

  // ---------------------------------------------------------------------
  // Rows

  /** What `HorizontalIterator` yields: the rows, top to bottom. */
  function Rows(g: Grid2D): (rows: seq<String>)
    requires Sized(g)
    ensures |rows| == g.height
    ensures forall r :: 0 <= r < g.height ==> rows[r] == g.grid[r]
  {
    g.grid
  }

  class HorizontalIterator {
    const grid: Grid2D
    var row: nat

    constructor (grid: Grid2D)
      ensures this.grid == grid && row == 0
    {
      this.grid := grid;
      row := 0;
    }

    /** The next row, until all `height` rows have been yielded. */
    method Next() returns (item: Option<String>)
      requires Sized(grid)
      modifies this
      ensures old(row) < grid.height ==> item == Some(Rows(grid)[old(row)]) && row == old(row) + 1
      ensures old(row) >= grid.height ==> item == None && row == old(row)
    {
      if row < grid.height {
        var res := grid.grid[row];
        row := row + 1;
        return Some(res);
      } else {
        return None;
      }
    }
  }

  /** Drain a fresh `HorizontalIterator`. */
  method CollectRows(g: Grid2D) returns (rows: seq<String>)
    requires Sized(g)
    ensures rows == Rows(g)
  {
    var it := new HorizontalIterator(g);
    rows := [];
    while true
      invariant it.grid == g && it.row <= g.height
      invariant rows == Rows(g)[..it.row]
      decreases g.height - it.row
    {
      var item := it.Next();
      if item.None? {
        break;
      }
      rows := rows + [item.value];
    }
  }

  // ---------------------------------------------------------------------
  // Columns

  /** Column `j`, read top to bottom. */
  function Column(g: Grid2D, j: nat): (col: String)
    requires Rectangular(g) && j < g.width
    ensures |col| == g.height
    ensures forall r :: 0 <= r < g.height ==> col[r] == g.grid[r][j]
  {
    seq(g.height, r requires 0 <= r < g.height => g.grid[r][j])
  }

  /** What `VerticalIterator` yields: the columns, left to right. */
  function Columns(g: Grid2D): (cols: seq<String>)
    requires Rectangular(g)
    ensures |cols| == g.width
    ensures forall j :: 0 <= j < g.width ==> cols[j] == Column(g, j)
  {
    seq(g.width, j requires 0 <= j < g.width => Column(g, j))
  }

  class VerticalIterator {
    const grid: Grid2D
    var column: nat

    constructor (grid: Grid2D)
      ensures this.grid == grid && column == 0
    {
      this.grid := grid;
      column := 0;
    }

    /** The next column, until all `width` columns have been yielded. */
    method Next() returns (item: Option<String>)
      requires Rectangular(grid)
      modifies this
      ensures old(column) < grid.width ==> item == Some(Columns(grid)[old(column)]) && column == old(column) + 1
      ensures old(column) >= grid.width ==> item == None && column == old(column)
    {
      if column < grid.width {
        var res := Column(grid, column);
        column := column + 1;
        return Some(res);
      } else {
        return None;
      }
    }
  }

  /** Drain a fresh `VerticalIterator`. */
  method CollectColumns(g: Grid2D) returns (cols: seq<String>)
    requires Rectangular(g)
    ensures cols == Columns(g)
  {
    var it := new VerticalIterator(g);
    cols := [];
    while true
      invariant it.grid == g && it.column <= g.width
      invariant cols == Columns(g)[..it.column]
      decreases g.width - it.column
    {
      var item := it.Next();
      if item.None? {
        break;
      }
      cols := cols + [item.value];
    }
  }

  // ---------------------------------------------------------------------
  // Diagonals

  /**
   * The column that `get_row` reads in row `r` for the string at `offset`:
   * `offset - r` in the forward pass, `offset - (height - 1 - r)` in the
   * backward pass, and none when that would be negative.
   */
  function DiagColumn(g: Grid2D, offset: nat, forward: bool, r: nat): (c: Option<nat>)
    requires r < g.height
    ensures var shift := if forward then r else g.height - 1 - r;
      && (c.Some? <==> shift <= offset)
      && (c.Some? ==> c.value + shift == offset)
  {
    if forward && offset >= r then Some(offset - r)
    else if !forward && offset >= g.height - r - 1 then Some(offset - (g.height - r - 1))
    else None
  }

  /** `get_row`: the letter in that column, when the row is long enough (`get`). */
  function GetRow(g: Grid2D, offset: nat, forward: bool, r: nat): (ch: Option<char>)
    requires Sized(g) && r < g.height
    ensures var shift := if forward then r else g.height - 1 - r;
      && (ch.Some? <==> shift <= offset < shift + |g.grid[r]|)
      && (ch.Some? ==> ch.value == g.grid[r][offset - shift])
  {
    match DiagColumn(g, offset, forward, r)
    case None => None
    case Some(c) => if c < |g.grid[r]| then Some(g.grid[r][c]) else None
  }

  /** What `filter_map` keeps of one result: its letter, if any. */
  function Letters(ch: Option<char>): (s: String)
    ensures |s| <= 1
  {
    match ch
    case None => []
    case Some(c) => [c]
  }

  /** `(0..n).filter_map(get_row)`: the letters found in the first `n` rows, top to bottom. */
  function DiagPrefix(g: Grid2D, offset: nat, forward: bool, n: nat): (s: String)
    requires Sized(g) && n <= g.height
    ensures |s| <= n
  {
    if n == 0 then [] else DiagPrefix(g, offset, forward, n - 1) + Letters(GetRow(g, offset, forward, n - 1))
  }

  /** The diagonal string at `offset` of one pass. */
  function DiagString(g: Grid2D, offset: nat, forward: bool): String
    requires Sized(g)
  {
    DiagPrefix(g, offset, forward, g.height)
  }

  /**
   * Which string of a pass holds a cell: in the backward pass the cells with
   * `column - row` fixed, in the forward pass the cells with `row + column`
   * fixed. On a rectangular grid every cell lies in exactly one of the
   * `width + height - 1` strings of each pass.
   */
  lemma DiagonalHoldsCell(g: Grid2D, offset: nat, forward: bool, r: nat, c: nat)
    requires Sized(g) && r < g.height
    ensures DiagColumn(g, offset, forward, r) == Some(c) <==>
      offset == if forward then r + c else c + (g.height - 1 - r)
    ensures Rectangular(g) && c < g.width ==>
      (if forward then r + c else c + (g.height - 1 - r)) < g.width + g.height - 1
  {
  }

  /** What `DiagonalIterator` yields: the `width + height - 1` backward strings, then as many forward strings. */
  function Diagonals(g: Grid2D): (ds: seq<String>)
    requires Sized(g) && g.width + g.height >= 2
    ensures |ds| == 2 * (g.width + g.height - 1)
  {
    var n := g.width + g.height - 1;
    seq(2 * n, i requires 0 <= i < 2 * n => if i < n then DiagString(g, i, false) else DiagString(g, i - n, true))
  }

  class DiagonalIterator {
    const grid: Grid2D
    var offset: nat
    var forward: bool

    constructor (grid: Grid2D)
      ensures this.grid == grid && offset == 0 && !forward
    {
      this.grid := grid;
      offset := 0;
      forward := false;
    }

    /** The number of strings in one pass. */
    function PassLength(): nat
      requires grid.width + grid.height >= 1
    {
      grid.width + grid.height - 1
    }

    /** The cursor stays within its pass. */
    ghost predicate Valid()
      reads this
    {
      grid.width + grid.height >= 2 && offset <= PassLength()
    }

    /** How many strings have been yielded so far. */
    function Position(): nat
      reads this
      requires Valid()
    {
      if forward then PassLength() + offset else offset
    }

    /**
     * The next diagonal string: at the end of the backward pass the cursor
     * moves to the start of the forward pass; after the forward pass, none.
     */
    method Next() returns (item: Option<String>)
      requires Valid() && Sized(grid)
      modifies this
      ensures Valid()
      ensures old(Position()) < 2 * PassLength() ==>
        item == Some(Diagonals(grid)[old(Position())]) && Position() == old(Position()) + 1
      ensures old(Position()) >= 2 * PassLength() ==> item == None && Position() == old(Position())
    {
      if offset == grid.width + grid.height - 1 {
        if forward {
          return None;
        } else {
          offset := 0;
          forward := true;
        }
      }
      var res := DiagString(grid, offset, forward);
      offset := offset + 1;
      return Some(res);
    }
  }

  /** Drain a fresh `DiagonalIterator`. */
  method CollectDiagonals(g: Grid2D) returns (ds: seq<String>)
    requires Sized(g) && g.width + g.height >= 2
    ensures ds == Diagonals(g)
  {
    var it := new DiagonalIterator(g);
    ds := [];
    while true
      invariant it.grid == g && it.Valid()
      invariant it.Position() <= 2 * it.PassLength()
      invariant ds == Diagonals(g)[..it.Position()]
      decreases 2 * it.PassLength() - it.Position()
    {
      var item := it.Next();
      if item.None? {
        break;
      }
      ds := ds + [item.value];
    }
  }

  // ---------------------------------------------------------------------
  // Blocks

  /** A rectangular grid of 3 rows of 3 letters. */
  predicate Square3(b: Grid2D) {
    Rectangular(b) && b.width == 3 && b.height == 3
  }

  /**
   * The block `BlockIterator` cuts out at `(offsetX, offsetY)`: its row `i`
   * is column `offsetY + i` of rows `offsetX` to `offsetX + 2`, so the block
   * is the 3-by-3 window transposed.
   */
  function Block(g: Grid2D, offsetX: nat, offsetY: nat): (b: Grid2D)
    requires Rectangular(g) && offsetX + 3 <= g.height && offsetY + 3 <= g.width
    ensures Rectangular(b) && b.width == 3 && b.height == 3
    ensures forall i, j :: 0 <= i < 3 && 0 <= j < 3 ==> b.grid[i][j] == g.grid[offsetX + j][offsetY + i]
  {
    NewGrid([
      [g.grid[offsetX][offsetY], g.grid[offsetX + 1][offsetY], g.grid[offsetX + 2][offsetY]],
      [g.grid[offsetX][offsetY + 1], g.grid[offsetX + 1][offsetY + 1], g.grid[offsetX + 2][offsetY + 1]],
      [g.grid[offsetX][offsetY + 2], g.grid[offsetX + 1][offsetY + 2], g.grid[offsetX + 2][offsetY + 2]]
    ])
  }

  /**
   * What `BlockIterator` yields: for each `offsetY` from left to right, the
   * blocks at every `offsetX` from top to bottom; none when the grid is
   * narrower or lower than 3.
   */
  function Blocks(g: Grid2D): (bs: seq<Grid2D>)
    requires Rectangular(g)
    ensures |bs| == if g.width >= 3 && g.height >= 3 then (g.width - 2) * (g.height - 2) else 0
    ensures forall n :: 0 <= n < |bs| ==> Square3(bs[n])
  {
    if g.width < 3 || g.height < 3 then []
    else
      var per := g.height - 2;
      seq((g.width - 2) * per, n requires 0 <= n < (g.width - 2) * per =>
        Arith.DivBelow(n, per, g.width - 2);
        Block(g, n % per, n / per))
  }

  /** The block at `(offsetX, offsetY)` comes after `offsetY` full columns of blocks and `offsetX` more. */
  lemma BlocksAt(g: Grid2D, offsetX: nat, offsetY: nat)
    requires Rectangular(g) && offsetX + 3 <= g.height && offsetY + 3 <= g.width
    ensures offsetY * (g.height - 2) + offsetX < |Blocks(g)|
    ensures Blocks(g)[offsetY * (g.height - 2) + offsetX] == Block(g, offsetX, offsetY)
  {
    var per := g.height - 2;
    Arith.DivModOf(offsetY, offsetX, per);
    Arith.MulLe(offsetY + 1, g.width - 2, per);
  }

  /** Moving the block cursor down, or on to the top of the next column, advances its position by one. */
  lemma Advance(width: nat, height: nat, offsetX: nat, offsetY: nat)
    requires offsetX + 3 <= height && offsetY + 3 <= width
    ensures var (x, y) := if offsetX + 4 > height then (0, offsetY + 1) else (offsetX + 1, offsetY);
      && y * (height - 2) + x == offsetY * (height - 2) + offsetX + 1
      && x + 3 <= height && y + 2 <= width && (y + 2 == width ==> x == 0)
  {
  }

  class BlockIterator {
    const grid: Grid2D
    var offsetX: nat
    var offsetY: nat

    constructor (grid: Grid2D)
      ensures this.grid == grid && offsetX == 0 && offsetY == 0
    {
      this.grid := grid;
      offsetX := 0;
      offsetY := 0;
    }

    /**
     * The grid is rectangular and, when it is wide enough for a block, also
     * high enough (a lower grid makes `next` index past the last row); the
     * cursor is at a block, or at the end.
     */
    ghost predicate Valid()
      reads this
    {
      && Rectangular(grid)
      && (grid.width >= 3 ==> grid.height >= 3)
      && (grid.width >= 3 ==>
            offsetX + 3 <= grid.height && offsetY + 2 <= grid.width
            && (offsetY + 2 == grid.width ==> offsetX == 0))
      && (grid.width < 3 ==> offsetX == 0 && offsetY == 0)
    }

    /** How many blocks have been yielded so far. */
    function Position(): nat
      reads this
      requires Valid()
    {
      if grid.width < 3 then 0 else offsetY * (grid.height - 2) + offsetX
    }

    /** The next block, moving down and then on to the next column; none past the last column. */
    method Next() returns (item: Option<Grid2D>)
      requires Valid()
      modifies this
      ensures Valid()
      ensures old(Position()) < |Blocks(grid)| ==>
        item == Some(Blocks(grid)[old(Position())]) && Position() == old(Position()) + 1
      ensures old(Position()) >= |Blocks(grid)| ==> item == None && Position() == old(Position())
    {
      if offsetY + 3 > grid.width {
        if grid.width >= 3 {
          assert Position() == |Blocks(grid)|;
        }
        return None;
      }
      BlocksAt(grid, offsetX, offsetY);
      var res := Block(grid, offsetX, offsetY);
      Advance(grid.width, grid.height, offsetX, offsetY);
      offsetX := offsetX + 1;
      if offsetX + 3 > grid.height {
        offsetX := 0;
        offsetY := offsetY + 1;
      }
      return Some(res);
    }
  }

  /** Drain a fresh `BlockIterator`. */
  method CollectBlocks(g: Grid2D) returns (bs: seq<Grid2D>)
    requires Rectangular(g) && (g.width >= 3 ==> g.height >= 3)
    ensures bs == Blocks(g)
  {
    var it := new BlockIterator(g);
    bs := [];
    while true
      invariant it.grid == g && it.Valid()
      invariant it.Position() <= |Blocks(g)|
      invariant bs == Blocks(g)[..it.Position()]
      decreases |Blocks(g)| - it.Position()
    {
      var item := it.Next();
      if item.None? {
        break;
      }
      bs := bs + [item.value];
    }
  }

  // ---------------------------------------------------------------------
  // Matching a literal word

  /** `w` occurs in `s` starting at index `i`. */
  predicate OccursAt(s: String, w: String, i: nat) {
    i + |w| <= |s| && s[i..i + |w|] == w
  }

  /** How many indices in `[lo, hi)` start an occurrence of `w`. */
  function CountFrom(s: String, w: String, lo: nat, hi: int): nat
    decreases hi - lo
  {
    if lo >= hi then 0 else (if OccursAt(s, w, lo) then 1 else 0) + CountFrom(s, w, lo + 1, hi)
  }

  /** Every occurrence of `w` in `s`, overlapping ones included. */
  function Occurrences(s: String, w: String): nat {
    CountFrom(s, w, 0, |s| - |w| + 1)
  }

  /**
   * `find_iter(..).count()` of a regular expression that is the literal `w`:
   * matches are searched leftmost first and do not overlap, so the search
   * resumes after the end of each match.
   */
  function Scan(s: String, w: String, i: nat): (n: nat)
    requires 0 < |w| && i <= |s|
    ensures n * |w| <= |s| - i
    decreases |s| - i
  {
    if i + |w| > |s| then 0
    else if OccursAt(s, w, i) then
      var rest := Scan(s, w, i + |w|);
      assert (1 + rest) * |w| == |w| + rest * |w|;
      1 + rest
    else Scan(s, w, i + 1)
  }

  /** No proper suffix of `w` is also a prefix: two occurrences can never overlap. */
  predicate SelfOverlapFree(w: String) {
    forall k :: 0 < k < |w| ==> w[k..] != w[..|w| - k]
  }

  /** The reversal of a string. */
  function Reverse(s: String): (r: String)
    ensures |r| == |s|
    ensures forall i :: 0 <= i < |s| ==> r[i] == s[|s| - 1 - i]
  {
    seq(|s|, k requires 0 <= k < |s| => s[|s| - 1 - k])
  }

  lemma {:induction false} CountSplit(s: String, w: String, lo: nat, mid: nat, hi: int)
    requires lo <= mid <= hi
    ensures CountFrom(s, w, lo, hi) == CountFrom(s, w, lo, mid) + CountFrom(s, w, mid, hi)
    decreases mid - lo
  {
    if lo < mid {
      CountSplit(s, w, lo + 1, mid, hi);
    }
  }

  /** Indices that start no occurrence can be skipped. */
  lemma {:induction false} CountSkip(s: String, w: String, lo: nat, mid: nat, hi: int)
    requires lo <= mid
    requires forall i :: lo <= i < mid ==> !OccursAt(s, w, i)
    ensures CountFrom(s, w, lo, hi) == CountFrom(s, w, mid, hi)
    decreases mid - lo
  {
    if lo < mid {
      CountSkip(s, w, lo + 1, mid, hi);
    }
  }

  /** Two occurrences `k` apart make the last `|w| - k` letters of `w` equal to its first ones. */
  lemma OverlapBorder(s: String, w: String, i: nat, k: nat)
    requires OccursAt(s, w, i) && OccursAt(s, w, i + k) && 0 < k < |w|
    ensures w[k..] == w[..|w| - k]
  {
    forall t | 0 <= t < |w| - k
      ensures w[k..][t] == w[..|w| - k][t]
    {
      assert w[k + t] == s[i..i + |w|][k + t] == s[i + k + t];
      assert s[i + k + t] == s[i + k..i + k + |w|][t];
    }
  }

  /** An occurrence of a self-overlap-free word is not followed by another inside it. */
  lemma NoOverlap(s: String, w: String, i: nat, k: nat)
    requires SelfOverlapFree(w) && OccursAt(s, w, i) && 0 < k < |w|
    ensures !OccursAt(s, w, i + k)
  {
    if OccursAt(s, w, i + k) {
      OverlapBorder(s, w, i, k);
    }
  }

  /**
   * The leftmost non-overlapping search finds every occurrence of a word that
   * cannot overlap itself.
   */
  lemma {:induction false} ScanCountsOccurrences(s: String, w: String, i: nat)
    requires 0 < |w| && SelfOverlapFree(w) && i <= |s|
    ensures Scan(s, w, i) == CountFrom(s, w, i, |s| - |w| + 1)
    decreases |s| - i
  {
    if i + |w| > |s| {
    } else if OccursAt(s, w, i) {
      ScanCountsOccurrences(s, w, i + |w|);
      forall k | i + 1 <= k < i + |w|
        ensures !OccursAt(s, w, k)
      {
        NoOverlap(s, w, i, k - i);
      }
      CountSkip(s, w, i + 1, i + |w|, |s| - |w| + 1);
    } else {
      ScanCountsOccurrences(s, w, i + 1);
    }
  }

  lemma ReverseTwice(s: String)
    ensures Reverse(Reverse(s)) == s
  {
    var r := Reverse(Reverse(s));
    forall t | 0 <= t < |s|
      ensures r[t] == s[t]
    {
      assert r[t] == Reverse(s)[|s| - 1 - t];
    }
  }

  /** A window of the reversed string is the reverse of the mirrored window. */
  lemma ReversedWindow(s: String, i: nat, n: nat)
    requires i + n <= |s|
    ensures Reverse(s)[i..i + n] == Reverse(s[|s| - n - i..|s| - i])
  {
    var j := |s| - n - i;
    var u, v := Reverse(s)[i..i + n], Reverse(s[j..j + n]);
    forall t | 0 <= t < n
      ensures u[t] == v[t]
    {
      assert u[t] == Reverse(s)[i + t] == s[|s| - 1 - i - t];
      assert v[t] == s[j..j + n][n - 1 - t];
    }
  }

  /** An occurrence read backwards is an occurrence of the reversed word in the reversed string. */
  lemma OccursReversed(s: String, w: String, i: nat)
    requires i + |w| <= |s|
    ensures OccursAt(Reverse(s), Reverse(w), i) <==> OccursAt(s, w, |s| - |w| - i)
  {
    var j := |s| - |w| - i;
    ReversedWindow(s, i, |w|);
    var x := s[j..j + |w|];
    assert Reverse(s)[i..i + |w|] == Reverse(x);
    if OccursAt(Reverse(s), Reverse(w), i) {
      ReverseInjective(x, w);
    }
  }

  lemma ReverseInjective(a: String, b: String)
    requires Reverse(a) == Reverse(b)
    ensures a == b
  {
    ReverseTwice(a);
    ReverseTwice(b);
  }

  lemma {:induction false} CountReflect(s: String, w: String, k: nat)
    requires |w| <= |s| && k <= |s| - |w| + 1
    ensures CountFrom(Reverse(s), Reverse(w), 0, k) == CountFrom(s, w, |s| - |w| + 1 - k, |s| - |w| + 1)
  {
    if k > 0 {
      CountReflect(s, w, k - 1);
      CountSplit(Reverse(s), Reverse(w), 0, k - 1, k);
      OccursReversed(s, w, k - 1);
    }
  }

  /** Reading the string and the word backwards finds the same number of occurrences. */
  lemma OccurrencesReversed(s: String, w: String)
    ensures Occurrences(Reverse(s), Reverse(w)) == Occurrences(s, w)
  {
    if |w| <= |s| {
      CountReflect(s, w, |s| - |w| + 1);
    }
  }

  // ---------------------------------------------------------------------
  // Part 1

  /** What `part_1` adds up for one string: the matches of either word. */
  function LineMatches(s: String, w1: String, w2: String): nat
    requires 0 < |w1| && 0 < |w2|
  {
    Scan(s, w1, 0) + Scan(s, w2, 0)
  }

  /** The sum of `LineMatches` over the strings. */
  function TotalMatches(lines: seq<String>, w1: String, w2: String): nat
    requires 0 < |w1| && 0 < |w2|
  {
    if lines == [] then 0 else LineMatches(lines[0], w1, w2) + TotalMatches(lines[1..], w1, w2)
  }

  lemma {:induction false} TotalMatchesSplit(a: seq<String>, b: seq<String>, w1: String, w2: String)
    requires 0 < |w1| && 0 < |w2|
    ensures TotalMatches(a + b, w1, w2) == TotalMatches(a, w1, w2) + TotalMatches(b, w1, w2)
  {
    if a == [] {
      assert a + b == b;
    } else {
      assert (a + b)[1..] == a[1..] + b;
      TotalMatchesSplit(a[1..], b, w1, w2);
    }
  }

  /** Strings shorter than both words match nothing. */
  lemma {:induction false} TotalMatchesShort(lines: seq<String>, w1: String, w2: String)
    requires 0 < |w1| && 0 < |w2|
    requires forall l :: l in lines ==> |l| < |w1| && |l| < |w2|
    ensures TotalMatches(lines, w1, w2) == 0
  {
    if lines != [] {
      assert lines[0] in lines;
      TotalMatchesShort(lines[1..], w1, w2);
    }
  }

  /** Every line `part_1` searches: the rows, then the columns, then both diagonal passes. */
  function AllLines(g: Grid2D): (lines: seq<String>)
    requires Rectangular(g) && g.width + g.height >= 2
    ensures |lines| == g.height + g.width + 2 * (g.width + g.height - 1)
  {
    Rows(g) + Columns(g) + Diagonals(g)
  }

  /** Every occurrence of XMAS in each line, read forwards and backwards. */
  function XmasBothWays(lines: seq<String>): nat {
    if lines == [] then 0
    else Occurrences(lines[0], "XMAS") + Occurrences(Reverse(lines[0]), "XMAS") + XmasBothWays(lines[1..])
  }

  lemma XmasOverlapFree()
    ensures SelfOverlapFree("XMAS") && SelfOverlapFree("SAMX")
  {
    assert "XMAS"[1..][0] != "XMAS"[..3][0];
    assert "XMAS"[2..][0] != "XMAS"[..2][0];
    assert "XMAS"[3..][0] != "XMAS"[..1][0];
    assert "SAMX"[1..][0] != "SAMX"[..3][0];
    assert "SAMX"[2..][0] != "SAMX"[..2][0];
    assert "SAMX"[3..][0] != "SAMX"[..1][0];
  }

  /**
   * Counting matches of XMAS and of SAMX in a line counts each occurrence of
   * XMAS in it, overlapping or not, in both reading directions.
   */
  lemma {:induction false} MatchesCountXmasBothWays(lines: seq<String>)
    ensures TotalMatches(lines, "XMAS", "SAMX") == XmasBothWays(lines)
  {
    if lines != [] {
      var l := lines[0];
      XmasOverlapFree();
      ScanCountsOccurrences(l, "XMAS", 0);
      ScanCountsOccurrences(l, "SAMX", 0);
      assert Reverse("SAMX") == "XMAS";
      OccurrencesReversed(l, "SAMX");
      MatchesCountXmasBothWays(lines[1..]);
    }
  }

  /**
   * `part_1`: chain the rows, the columns and the diagonals and add up the
   * matches of XMAS and SAMX; that counts XMAS in every line in both
   * directions.
   */
  method Part1(g: Grid2D) returns (count: nat)
    requires Rectangular(g) && g.width + g.height >= 2
    ensures count == XmasBothWays(AllLines(g))
  {
    var rows := CollectRows(g);
    var cols := CollectColumns(g);
    var diags := CollectDiagonals(g);
    count := TotalMatches(rows + cols + diags, "XMAS", "SAMX");
    MatchesCountXmasBothWays(rows + cols + diags);
  }

  // ---------------------------------------------------------------------
  // Part 2

  /** `part_2`'s filter: the diagonals of the block hold two matches of MAS or SAM. */
  predicate IsXMas(b: Grid2D)
    requires Square3(b)
  {
    TotalMatches(Diagonals(b), "MAS", "SAM") == 2
  }

  /** How many of the blocks pass the filter. */
  function CountXMas(bs: seq<Grid2D>): nat
    requires forall n :: 0 <= n < |bs| ==> Square3(bs[n])
  {
    if bs == [] then 0 else CountXMas(bs[..|bs| - 1]) + (if IsXMas(bs[|bs| - 1]) then 1 else 0)
  }

  lemma CountXMasStep(bs: seq<Grid2D>, pos: nat)
    requires pos < |bs| && forall n :: 0 <= n < |bs| ==> Square3(bs[n])
    ensures CountXMas(bs[..pos + 1]) == CountXMas(bs[..pos]) + (if IsXMas(bs[pos]) then 1 else 0)
  {
    assert bs[..pos + 1][..pos] == bs[..pos];
  }

  predicate MasOrSam(s: String) {
    s == "MAS" || s == "SAM"
  }

  /** A diagonal string of a 3-by-3 block, row by row. */
  function Square3Diagonal(b: Grid2D, offset: nat, forward: bool): String
    requires Square3(b)
  {
    Letters(GetRow(b, offset, forward, 0)) + Letters(GetRow(b, offset, forward, 1)) + Letters(GetRow(b, offset, forward, 2))
  }

  lemma Square3DiagonalRows(b: Grid2D, offset: nat, forward: bool)
    requires Square3(b)
    ensures DiagString(b, offset, forward) == Square3Diagonal(b, offset, forward)
  {
    assert DiagPrefix(b, offset, forward, 0) == [];
    assert DiagPrefix(b, offset, forward, 1) == Letters(GetRow(b, offset, forward, 0));
    assert DiagPrefix(b, offset, forward, 2) == DiagPrefix(b, offset, forward, 1) + Letters(GetRow(b, offset, forward, 1));
    assert DiagPrefix(b, offset, forward, 3) == DiagPrefix(b, offset, forward, 2) + Letters(GetRow(b, offset, forward, 2));
  }

  /**
   * The ten diagonal strings of a 3-by-3 block: the third string of each
   * pass is a corner-to-corner diagonal, every other one has at most two
   * letters.
   */
  lemma Square3Diagonals(b: Grid2D)
    requires Square3(b)
    ensures Diagonals(b)[2] == [b.grid[0][0], b.grid[1][1], b.grid[2][2]]
    ensures Diagonals(b)[7] == [b.grid[0][2], b.grid[1][1], b.grid[2][0]]
    ensures forall i :: 0 <= i < 10 && i != 2 && i != 7 ==> |Diagonals(b)[i]| <= 2
  {
    var d := Diagonals(b);
    forall i | 0 <= i < 10
      ensures d[i] == Square3Diagonal(b, i % 5, i >= 5)
    {
      Square3DiagonalRows(b, i % 5, i >= 5);
    }
    assert GetRow(b, 2, false, 0) == Some(b.grid[0][0]);
    assert GetRow(b, 2, true, 0) == Some(b.grid[0][2]);
  }

  /** A three-letter string matches MAS or SAM at most once, and exactly once when it is one of them. */
  lemma MasMatches(s: String)
    requires |s| == 3
    ensures LineMatches(s, "MAS", "SAM") == if MasOrSam(s) then 1 else 0
  {
    assert s[0..3] == s;
    assert Scan(s, "MAS", 3) == 0 && Scan(s, "MAS", 1) == 0;
    assert Scan(s, "SAM", 3) == 0 && Scan(s, "SAM", 1) == 0;
  }

  /** A block passes the filter exactly when both of its corner-to-corner diagonals read MAS or SAM. */
  lemma XMasIff(b: Grid2D)
    requires Square3(b)
    ensures IsXMas(b) <==>
      MasOrSam([b.grid[0][0], b.grid[1][1], b.grid[2][2]]) && MasOrSam([b.grid[0][2], b.grid[1][1], b.grid[2][0]])
  {
    var d := Diagonals(b);
    Square3Diagonals(b);
    assert d == d[..2] + [d[2]] + d[3..7] + [d[7]] + d[8..];
    TotalMatchesSplit(d[..2] + [d[2]] + d[3..7] + [d[7]], d[8..], "MAS", "SAM");
    TotalMatchesSplit(d[..2] + [d[2]] + d[3..7], [d[7]], "MAS", "SAM");
    TotalMatchesSplit(d[..2] + [d[2]], d[3..7], "MAS", "SAM");
    TotalMatchesSplit(d[..2], [d[2]], "MAS", "SAM");
    TotalMatchesShort(d[..2], "MAS", "SAM");
    TotalMatchesShort(d[3..7], "MAS", "SAM");
    TotalMatchesShort(d[8..], "MAS", "SAM");
    MasMatches(d[2]);
    MasMatches(d[7]);
    assert TotalMatches([d[2]], "MAS", "SAM") == LineMatches(d[2], "MAS", "SAM");
    assert TotalMatches([d[7]], "MAS", "SAM") == LineMatches(d[7], "MAS", "SAM");
  }

  /**
   * An X-MAS centred at row `r`, column `c`: both diagonals through the
   * centre read MAS in one direction or the other.
   */
  predicate XAt(g: Grid2D, r: nat, c: nat)
    requires Rectangular(g) && 1 <= r && r + 1 < g.height && 1 <= c && c + 1 < g.width
  {
    && MasOrSam([g.grid[r - 1][c - 1], g.grid[r][c], g.grid[r + 1][c + 1]])
    && MasOrSam([g.grid[r + 1][c - 1], g.grid[r][c], g.grid[r - 1][c + 1]])
  }

  /** The block at `(offsetX, offsetY)` passes the filter exactly when an X-MAS is centred one row and one column in. */
  lemma BlockXMasIff(g: Grid2D, offsetX: nat, offsetY: nat)
    requires Rectangular(g) && offsetX + 3 <= g.height && offsetY + 3 <= g.width
    ensures IsXMas(Block(g, offsetX, offsetY)) <==> XAt(g, offsetX + 1, offsetY + 1)
  {
    XMasIff(Block(g, offsetX, offsetY));
  }

  /**
   * Window position `k`, in the order of `Blocks` (down each column of
   * windows, then right), centres an X-MAS.
   */
  predicate XWindow(g: Grid2D, k: nat)
    requires Rectangular(g) && g.width >= 3 && g.height >= 3 && k < (g.width - 2) * (g.height - 2)
  {
    Arith.DivBelow(k, g.height - 2, g.width - 2);
    XAt(g, k % (g.height - 2) + 1, k / (g.height - 2) + 1)
  }

  /** How many of the first `n` window positions centre an X-MAS. */
  function XCentres(g: Grid2D, n: nat): nat
    requires Rectangular(g) && g.width >= 3 && g.height >= 3 && n <= (g.width - 2) * (g.height - 2)
  {
    if n == 0 then 0 else XCentres(g, n - 1) + (if XWindow(g, n - 1) then 1 else 0)
  }

  /** Every position of a 3-by-3 window that centres an X-MAS; none on a grid too small for one. */
  function XWindows(g: Grid2D): nat
    requires Rectangular(g)
  {
    if g.width < 3 || g.height < 3 then 0
    else
      Arith.MulAtLeast(g.width - 2, g.height - 2);
      XCentres(g, (g.width - 2) * (g.height - 2))
  }

  /** Block number `k` passes the filter exactly when window position `k` centres an X-MAS. */
  lemma BlockNumber(g: Grid2D, k: nat)
    requires Rectangular(g) && g.width >= 3 && g.height >= 3 && k < (g.width - 2) * (g.height - 2)
    ensures IsXMas(Blocks(g)[k]) <==> XWindow(g, k)
  {
    var per := g.height - 2;
    Arith.DivBelow(k, per, g.width - 2);
    assert Blocks(g)[k] == Block(g, k % per, k / per);
    BlockXMasIff(g, k % per, k / per);
  }

  /** Counting blocks that pass the filter counts window positions, when block `k` passes exactly at position `k`. */
  lemma {:induction false} CountXMasCentres(g: Grid2D, bs: seq<Grid2D>, n: nat)
    requires Rectangular(g) && g.width >= 3 && g.height >= 3 && n <= |bs| == (g.width - 2) * (g.height - 2)
    requires forall k :: 0 <= k < |bs| ==> Square3(bs[k]) && (IsXMas(bs[k]) <==> XWindow(g, k))
    ensures CountXMas(bs[..n]) == XCentres(g, n)
  {
    if n > 0 {
      assert bs[..n][..n - 1] == bs[..n - 1];
      CountXMasCentres(g, bs, n - 1);
    }
  }

  /** The filter counts every 3-by-3 window whose centre is an X-MAS. */
  lemma BlocksCountXWindows(g: Grid2D)
    requires Rectangular(g)
    ensures CountXMas(Blocks(g)) == XWindows(g)
  {
    if g.width >= 3 && g.height >= 3 {
      var bs := Blocks(g);
      forall k | 0 <= k < |bs|
        ensures IsXMas(bs[k]) <==> XWindow(g, k)
      {
        BlockNumber(g, k);
      }
      assert bs[..|bs|] == bs;
      CountXMasCentres(g, bs, |bs|);
    }
  }

  /**
   * `part_2`: walk the blocks, take the diagonals of each and keep the
   * blocks where MAS and SAM match twice.
   */
  method Part2(g: Grid2D) returns (count: nat)
    requires Rectangular(g) && (g.width >= 3 ==> g.height >= 3)
    ensures count == XWindows(g)
  {
    var it := new BlockIterator(g);
    ghost var bs := Blocks(g);
    count := 0;
    while true
      invariant it.grid == g && it.Valid()
      invariant it.Position() <= |bs|
      invariant count == CountXMas(bs[..it.Position()])
      decreases |bs| - it.Position()
    {
      ghost var pos := it.Position();
      var item := it.Next();
      if item.None? {
        break;
      }
      var block := item.value;
      var diags := CollectDiagonals(block);
      CountXMasStep(bs, pos);
      if TotalMatches(diags, "MAS", "SAM") == 2 {
        count := count + 1;
      }
    }
    assert bs[..it.Position()] == bs;
    BlocksCountXWindows(g);
  }
}
