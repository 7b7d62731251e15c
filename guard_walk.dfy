/**
 * Day 6 (src/day06.rs), the walk: a `Map` of tiles with a guard who walks
 * straight ahead, turns clockwise in front of an obstruction, and marks every
 * tile it leaves until it steps off the grid. Part 1 counts the marked
 * tiles; part 2 replays the walk as straight lines and proposes an obstacle
 * wherever a line crosses an earlier (backwards-extended) line that runs one
 * quarter turn further on.
 *
 * The pure functions here are the specification of the state changes; the
 * class `Map` below does them in place on an array and is proved against them.
 */
module GuardWalk {
  import opened Options
  import opened GuardGeometry
  import Sorting
  import Arith

  datatype Tile = Empty | Obstructed | Marked | Guard(dir: Dir)

  /** What one `Map::step` did. */
  datatype StepEvent = Forward | Rotate(to: Dir) | Exit

  /** `Map::is_obstructed`: an obstacle, and also the guard's own tile, blocks a step; only empty and marked tiles are open. */
  function IsObstructed(t: Tile): (blocked: bool)
    ensures !blocked <==> t == Empty || t == Marked
  {
    t.Obstructed? || t.Guard?
  }

  predicate IsMarked(t: Tile) { t.Marked? }

  predicate IsGuard(t: Tile) { t.Guard? }

  /** The contents of a `Map`: the tiles row by row, the grid's size and the guard's tile index. */
  datatype Board = Board(tiles: seq<Tile>, width: nat, height: nat, guard: Option<nat>)

  /** The tiles fill the grid exactly, and the guard index, when present, names a guard tile. */
  predicate WellFormed(b: Board) {
    && b.width > 0
    && |b.tiles| == b.width * b.height
    && (b.guard.Some? ==> b.guard.value < |b.tiles| && b.tiles[b.guard.value].Guard?)
  }

  /** The tile at a coordinate, or `None` off the grid. */
  function TileAt(b: Board, c: Coord): (t: Option<Tile>)
    requires WellFormed(b)
    ensures t.Some? <==> !OutOfBounds(b.width, b.height, c)
  {
    if OutOfBounds(b.width, b.height, c) then None
    else
      IndexRoundTrip(b.width, b.height, c);
      Some(b.tiles[IndexFrom(b.width, c)])
  }

  /** Where the guard stands. */
  function GuardAt(b: Board): (c: Coord)
    requires WellFormed(b) && b.guard.Some?
    ensures !OutOfBounds(b.width, b.height, c)
    ensures TileAt(b, c) == Some(b.tiles[b.guard.value])
  {
    CoordinateRoundTrip(b.width, b.height, b.guard.value);
    CoordinateFrom(b.width, b.guard.value)
  }

  /** `Map::unsafe_guard_dir`: the direction on the guard's tile. */
  function GuardDir(b: Board): (d: Dir)
    requires WellFormed(b) && b.guard.Some?
    ensures TileAt(b, GuardAt(b)) == Some(Guard(d))
  {
    b.tiles[b.guard.value].dir
  }

  /** `Map::step` on a board: leave the grid, turn in place, or move one tile forward. */
  function NextState(b: Board): (r: (Board, StepEvent))
    requires WellFormed(b)
    ensures WellFormed(r.0)
    ensures r.0.width == b.width && r.0.height == b.height
  {
    if b.guard.None? then (b, Exit)
    else
      var i := b.guard.value;
      var d := b.tiles[i].dir;
      var next := d.Step(CoordinateFrom(b.width, i));
      if OutOfBounds(b.width, b.height, next) then
        (b.(tiles := b.tiles[i := Marked], guard := None), Exit)
      else
        IndexRoundTrip(b.width, b.height, next);
        var j := IndexFrom(b.width, next) as nat;
        if IsObstructed(b.tiles[j]) then
          (b.(tiles := b.tiles[i := Guard(d.Rotate())]), Rotate(d.Rotate()))
        else
          (b.(tiles := b.tiles[i := Marked][j := Guard(d)], guard := Some(j)), Forward)
  }

  /**
   * One step seen from the guard: it leaves the grid exactly when the tile
   * ahead is off it; it turns clockwise in place exactly when the tile ahead
   * is obstructed; otherwise it moves onto the tile ahead, keeping its
   * direction. Without a guard a step changes nothing.
   */
  lemma StepEffect(b: Board)
    requires WellFormed(b)
    ensures b.guard.None? ==> NextState(b) == (b, Exit)
    ensures b.guard.Some? ==>
      var (n, ev) := NextState(b);
      var ahead := GuardDir(b).Step(GuardAt(b));
      && (ev == Exit <==> TileAt(b, ahead).None?)
      && (ev == Exit ==> n.guard.None?)
      && (ev.Rotate? <==> TileAt(b, ahead).Some? && IsObstructed(TileAt(b, ahead).value))
      && (ev.Rotate? ==> ev.to == GuardDir(b).Rotate() && n.guard == b.guard && GuardDir(n) == ev.to)
      && (ev == Forward ==> n.guard.Some? && GuardAt(n) == ahead && GuardDir(n) == GuardDir(b))
      && (ev == Exit ==> n.tiles == b.tiles[b.guard.value := Marked])
      && (ev.Rotate? ==> n.tiles == b.tiles[b.guard.value := Guard(ev.to)])
      && (ev == Forward ==> n.tiles == b.tiles[b.guard.value := Marked][n.guard.value := Guard(GuardDir(b))])
  {
    if b.guard.Some? {
      var ahead := GuardDir(b).Step(GuardAt(b));
      if !OutOfBounds(b.width, b.height, ahead) {
        IndexRoundTrip(b.width, b.height, ahead);
        var j := IndexFrom(b.width, ahead) as nat;
        if !IsObstructed(b.tiles[j]) {
          CoordinateRoundTrip(b.width, b.height, j);
        }
      }
    }
  }

  /** How many tiles satisfy `p`. */
  function Count(tiles: seq<Tile>, p: Tile -> bool): (n: nat)
    ensures n <= |tiles|
  {
    if |tiles| == 0 then 0 else (if p(tiles[0]) then 1 else 0) + Count(tiles[1..], p)
  }

  /** Overwriting one tile changes a count by what the old and the new tile contribute. */
  lemma {:induction false} CountUpdate(tiles: seq<Tile>, i: nat, t: Tile, p: Tile -> bool)
    requires i < |tiles|
    ensures Count(tiles[i := t], p) + (if p(tiles[i]) then 1 else 0)
         == Count(tiles, p) + (if p(t) then 1 else 0)
  {
    if i > 0 {
      assert tiles[i := t][1..] == tiles[1..][i - 1 := t];
      CountUpdate(tiles[1..], i - 1, t, p);
    }
  }

  /** While the guard is on the grid exactly one tile shows it; after it left, none does. */
  predicate SingleGuard(b: Board) {
    Count(b.tiles, IsGuard) == if b.guard.Some? then 1 else 0
  }

  /** A step keeps the single guard tile in step with the guard index. */
  lemma StepKeepsSingleGuard(b: Board)
    requires WellFormed(b) && SingleGuard(b)
    ensures SingleGuard(NextState(b).0)
  {
    if b.guard.Some? {
      var i := b.guard.value;
      var d := b.tiles[i].dir;
      var next := d.Step(CoordinateFrom(b.width, i));
      if OutOfBounds(b.width, b.height, next) {
        CountUpdate(b.tiles, i, Marked, IsGuard);
      } else {
        IndexRoundTrip(b.width, b.height, next);
        var j := IndexFrom(b.width, next) as nat;
        if IsObstructed(b.tiles[j]) {
          CountUpdate(b.tiles, i, Guard(d.Rotate()), IsGuard);
        } else {
          CountUpdate(b.tiles, i, Marked, IsGuard);
          CountUpdate(b.tiles[i := Marked], j, Guard(d), IsGuard);
        }
      }
    }
  }

  /**
   * A step never lowers the number of marked tiles (the guard may step back
   * onto a marked tile, but marks the one it leaves), and leaving the grid
   * marks one more.
   */
  lemma StepKeepsMarks(b: Board)
    requires WellFormed(b)
    ensures Count(NextState(b).0.tiles, IsMarked) >= Count(b.tiles, IsMarked)
    ensures b.guard.Some? && NextState(b).1 == Exit ==>
      Count(NextState(b).0.tiles, IsMarked) == Count(b.tiles, IsMarked) + 1
  {
    if b.guard.Some? {
      var i := b.guard.value;
      var d := b.tiles[i].dir;
      var next := d.Step(CoordinateFrom(b.width, i));
      if OutOfBounds(b.width, b.height, next) {
        CountUpdate(b.tiles, i, Marked, IsMarked);
      } else {
        IndexRoundTrip(b.width, b.height, next);
        var j := IndexFrom(b.width, next) as nat;
        if IsObstructed(b.tiles[j]) {
          CountUpdate(b.tiles, i, Guard(d.Rotate()), IsMarked);
        } else {
          CountUpdate(b.tiles, i, Marked, IsMarked);
          CountUpdate(b.tiles[i := Marked], j, Guard(d), IsMarked);
        }
      }
    }
  }

  /**
   * The loop of `part_1`: step while the guard is on the grid. The source
   * loops without bound; here at most `fuel` steps are taken, and `None`
   * means the fuel ran out first.
   */
  function Run(b: Board, fuel: nat): (r: Option<Board>)
    requires WellFormed(b)
    ensures r.Some? ==> WellFormed(r.value) && r.value.guard.None?
    ensures r.Some? ==> r.value.width == b.width && r.value.height == b.height
    decreases fuel
  {
    if b.guard.None? then Some(b)
    else if fuel == 0 then None
    else Run(NextState(b).0, fuel - 1)
  }

  /** More fuel than needed does not change the outcome of a walk. */
  lemma {:induction false} RunFuelIrrelevant(b: Board, fuel: nat, more: nat)
    requires WellFormed(b) && Run(b, fuel).Some? && fuel <= more
    ensures Run(b, more) == Run(b, fuel)
    decreases fuel
  {
    if b.guard.Some? {
      RunFuelIrrelevant(NextState(b).0, fuel - 1, more - 1);
    }
  }

  /** Part 1's answer: the number of marked tiles once the guard has left. */
  function Part1Count(b: Board, fuel: nat): (count: Option<nat>)
    requires WellFormed(b)
    ensures count.Some? ==> Count(b.tiles, IsMarked) <= count.value <= b.width * b.height
    ensures count.Some? && b.guard.Some? ==> count.value >= 1
  {
    match Run(b, fuel)
    case None => None
    case Some(done) =>
      RunMarks(b, fuel);
      Some(Count(done.tiles, IsMarked))
  }

  /**
   * A finished walk keeps every tile marked before, marks at least the tile
   * the guard left from, and marks no more tiles than the grid has.
   */
  lemma {:induction false} RunMarks(b: Board, fuel: nat)
    requires WellFormed(b) && Run(b, fuel).Some?
    ensures Count(Run(b, fuel).value.tiles, IsMarked) >= Count(b.tiles, IsMarked)
    ensures b.guard.Some? ==> Count(Run(b, fuel).value.tiles, IsMarked) >= 1
    ensures Count(Run(b, fuel).value.tiles, IsMarked) <= b.width * b.height
    ensures |Run(b, fuel).value.tiles| == |b.tiles|
    decreases fuel
  {
    if b.guard.Some? {
      StepKeepsMarks(b);
      RunMarks(NextState(b).0, fuel - 1);
    }
  }

  /** A finished walk ends with no guard tile left on the grid when it started with one. */
  lemma {:induction false} RunClearsGuard(b: Board, fuel: nat)
    requires WellFormed(b) && SingleGuard(b) && Run(b, fuel).Some?
    ensures Count(Run(b, fuel).value.tiles, IsGuard) == 0
    decreases fuel
  {
    if b.guard.Some? {
      StepKeepsSingleGuard(b);
      RunClearsGuard(NextState(b).0, fuel - 1);
    }
  }

  /** `to` lies on the ray that starts at `from` and runs in direction `dir`. */
  predicate Ahead(dir: Dir, from: Coord, to: Coord) {
    match dir
    case Up => to.0 == from.0 && to.1 <= from.1
    case Down => to.0 == from.0 && to.1 >= from.1
    case Left => to.1 == from.1 && to.0 <= from.0
    case Right => to.1 == from.1 && to.0 >= from.0
  }

  /**
   * The last tile inside the grid on the ray from `c` in direction `dir`
   * (the `match` on `last_dir` in `get_all_lines`).
   */
  function EdgeAhead(width: nat, height: nat, dir: Dir, c: Coord): (e: Coord)
    ensures Axial(dir, c, e)
    ensures !OutOfBounds(width, height, c) ==>
      && !OutOfBounds(width, height, e)
      && Ahead(dir, c, e)
      && OutOfBounds(width, height, dir.Step(e))
  {
    match dir
    case Up => (c.0, 0)
    case Down => (c.0, height as int - 1)
    case Left => (0, c.1)
    case Right => (width as int - 1, c.1)
  }

  /** The tile is on the edge of the grid. */
  predicate OnBorder(width: nat, height: nat, c: Coord) {
    c.0 == 0 || c.1 == 0 || c.0 == width as int - 1 || c.1 == height as int - 1
  }

  /**
   * What `get_all_lines` knows between steps: the guard is on the grid,
   * facing `lastDir`, somewhere on the ray from `lastCoord` (where it last
   * turned) in that direction.
   */
  predicate Tracing(b: Board, lastDir: Dir, lastCoord: Coord) {
    && WellFormed(b)
    && b.guard.Some?
    && GuardDir(b) == lastDir
    && !OutOfBounds(b.width, b.height, lastCoord)
    && Ahead(lastDir, lastCoord, GuardAt(b))
  }

  /** A step keeps `Tracing`, with the turn's direction and tile after a turn. */
  lemma TracingAfterStep(b: Board, lastDir: Dir, lastCoord: Coord)
    requires Tracing(b, lastDir, lastCoord)
    ensures NextState(b).1 == Forward ==> Tracing(NextState(b).0, lastDir, lastCoord)
    ensures NextState(b).1.Rotate? ==>
      && GuardAt(NextState(b).0) == GuardAt(b)
      && Tracing(NextState(b).0, NextState(b).1.to, GuardAt(b))
    ensures NextState(b).1 == Exit ==>
      GuardAt(b) == EdgeAhead(b.width, b.height, lastDir, lastCoord)
  {
    StepEffect(b);
  }

  /**
   * The loop of `get_all_lines`, one step per call: after a turn, the line
   * walked since the previous turn is recorded unless it is empty; on leaving
   * the grid, the line from the last turn to the edge is recorded and the
   * lines are returned. At most `fuel` steps are taken; `None` means the fuel
   * ran out first.
   */
  function Trace(b: Board, lastDir: Dir, lastCoord: Coord, lines: seq<Line>, fuel: nat): (r: Option<seq<Line>>)
    requires Tracing(b, lastDir, lastCoord)
    ensures r.Some? ==> lines <= r.value
    decreases fuel
  {
    if fuel == 0 then None
    else
      TracingAfterStep(b, lastDir, lastCoord);
      var (next, event) := NextState(b);
      match event
      case Forward =>
        Trace(next, lastDir, lastCoord, lines, fuel - 1)
      case Rotate(to) =>
        var coord := GuardAt(next);
        var lines' := if coord != lastCoord then lines + [NewLine(lastDir, lastCoord, coord)] else lines;
        Trace(next, to, coord, lines', fuel - 1)
      case Exit =>
        var coord := EdgeAhead(b.width, b.height, lastDir, lastCoord);
        Some(if coord != lastCoord then lines + [NewLine(lastDir, lastCoord, coord)] else lines)
  }

  /**
   * `get_all_lines`, which starts where the guard stands, facing its way.
   * The lines of a finished walk form a path of non-empty straight lines
   * inside the grid, each one starting where the previous one ends, from the
   * guard's starting tile to a tile on the border.
   */
  function Lines(b: Board, fuel: nat): (ls: Option<seq<Line>>)
    requires WellFormed(b) && b.guard.Some?
    ensures ls.Some? ==>
      exists end :: Path(b.width, b.height, ls.value, GuardAt(b), end) && OnBorder(b.width, b.height, end)
    ensures ls.Some? ==> forall k :: 0 <= k < |ls.value| ==> Axial(ls.value[k].dir, ls.value[k].from, ls.value[k].to)
  {
    var r := Trace(b, GuardDir(b), GuardAt(b), [], fuel);
    if r.Some? then
      TraceIsPath(b, GuardDir(b), GuardAt(b), [], fuel, GuardAt(b));
      r
    else r
  }

  /** A recorded line: inside the grid, not empty, and running in its own direction. */
  predicate PathLine(width: nat, height: nat, line: Line) {
    && !OutOfBounds(width, height, line.from)
    && !OutOfBounds(width, height, line.to)
    && line.from != line.to
    && Ahead(line.dir, line.from, line.to)
  }

  /** `lines` is a path of recorded lines from `start` to `end`, each line beginning where the previous one ends. */
  predicate Path(width: nat, height: nat, lines: seq<Line>, start: Coord, end: Coord) {
    && (|lines| == 0 ==> start == end)
    && (|lines| > 0 ==> lines[0].from == start && lines[|lines| - 1].to == end)
    && (forall k :: 0 <= k < |lines| ==> PathLine(width, height, lines[k]))
    && (forall k :: 0 <= k < |lines| - 1 ==> lines[k + 1].from == lines[k].to)
  }

  /** Recording one more line that starts where the path ends extends the path. */
  lemma PathExtend(width: nat, height: nat, lines: seq<Line>, start: Coord, end: Coord, line: Line)
    requires Path(width, height, lines, start, end)
    requires PathLine(width, height, line) && line.from == end
    ensures Path(width, height, lines + [line], start, line.to)
  {
  }

  /** The lines recorded from any point on form a path that ends on the border of the grid. */
  lemma {:induction false} TraceIsPath(b: Board, lastDir: Dir, lastCoord: Coord, lines: seq<Line>, fuel: nat, start: Coord)
    requires Tracing(b, lastDir, lastCoord)
    requires Path(b.width, b.height, lines, start, lastCoord)
    requires Trace(b, lastDir, lastCoord, lines, fuel).Some?
    ensures var result := Trace(b, lastDir, lastCoord, lines, fuel).value;
      exists end :: Path(b.width, b.height, result, start, end) && OnBorder(b.width, b.height, end)
    decreases fuel
  {
    TracingAfterStep(b, lastDir, lastCoord);
    var event := NextState(b).1;
    if event == Exit {
      TraceExitIsPath(b, lastDir, lastCoord, lines, fuel, start);
    } else {
      var to, coord, lines' := TraceContinues(b, lastDir, lastCoord, lines, fuel, start);
      TraceIsPath(NextState(b).0, to, coord, lines', fuel - 1, start);
    }
  }

  /** The step that leaves the grid records the last line, ending on the border. */
  lemma TraceExitIsPath(b: Board, lastDir: Dir, lastCoord: Coord, lines: seq<Line>, fuel: nat, start: Coord)
    requires Tracing(b, lastDir, lastCoord) && fuel > 0 && NextState(b).1 == Exit
    requires Path(b.width, b.height, lines, start, lastCoord)
    ensures Trace(b, lastDir, lastCoord, lines, fuel).Some?
    ensures var result := Trace(b, lastDir, lastCoord, lines, fuel).value;
      exists end :: Path(b.width, b.height, result, start, end) && OnBorder(b.width, b.height, end)
  {
    TracingAfterStep(b, lastDir, lastCoord);
    var coord := EdgeAhead(b.width, b.height, lastDir, lastCoord);
    assert OnBorder(b.width, b.height, coord);
    if coord != lastCoord {
      PathExtend(b.width, b.height, lines, start, lastCoord, NewLine(lastDir, lastCoord, coord));
    }
  }

  /** A step inside the grid hands on to the rest of the trace, keeping the path so far. */
  lemma TraceContinues(b: Board, lastDir: Dir, lastCoord: Coord, lines: seq<Line>, fuel: nat, start: Coord)
    returns (to: Dir, coord: Coord, lines': seq<Line>)
    requires Tracing(b, lastDir, lastCoord) && fuel > 0 && NextState(b).1 != Exit
    requires Path(b.width, b.height, lines, start, lastCoord)
    ensures Tracing(NextState(b).0, to, coord)
    ensures Path(b.width, b.height, lines', start, coord)
    ensures Trace(b, lastDir, lastCoord, lines, fuel) == Trace(NextState(b).0, to, coord, lines', fuel - 1)
  {
    TracingAfterStep(b, lastDir, lastCoord);
    var next := NextState(b).0;
    match NextState(b).1
    case Forward =>
      to, coord, lines' := lastDir, lastCoord, lines;
    case Rotate(d) =>
      to, coord := d, GuardAt(next);
      lines' := if coord != lastCoord then lines + [NewLine(lastDir, lastCoord, coord)] else lines;
      if coord != lastCoord {
        PathExtend(b.width, b.height, lines, start, lastCoord, NewLine(lastDir, lastCoord, coord));
      }
  }

  /** A tile the guard may walk on: inside the grid and not an obstacle. */
  predicate Open(b: Board, c: Coord)
    requires WellFormed(b)
  {
    TileAt(b, c).Some? && TileAt(b, c).value != Obstructed
  }

  /**
   * The loop of `extend_line`: from `from`, keep stepping in direction `rev`
   * while the next tile is inside the grid and not an obstacle.
   */
  function ExtendFrom(b: Board, rev: Dir, from: Coord): (start: Coord)
    requires WellFormed(b)
    ensures Ahead(rev, from, start)
    ensures start == from || Open(b, start)
    ensures forall c :: Ahead(rev, from, c) && Ahead(rev, c, start) && c != from ==> Open(b, c)
    ensures !Open(b, rev.Step(start))
    decreases match rev
      case Up => from.1
      case Down => b.height - from.1
      case Left => from.0
      case Right => b.width - from.0
  {
    var next := rev.Step(from);
    if OutOfBounds(b.width, b.height, next) || TileAt(b, next) == Some(Obstructed) then from
    else ExtendFrom(b, rev, next)
  }

  /**
   * `extend_line`: the line lengthened backwards, up to the last open tile
   * before an obstacle or the edge.
   */
  function Extend(line: Line, b: Board): (ext: Line)
    requires WellFormed(b) && Axial(line.dir, line.from, line.to)
    ensures Axial(ext.dir, ext.from, ext.to)
  {
    var start := ExtendFrom(b, line.dir.Rotate().Rotate(), line.from);
    NewLine(line.dir, start, line.to)
  }

  /** The extension keeps the line's direction and end, and starts at or behind its start. */
  lemma ExtendKeepsLine(line: Line, b: Board)
    requires WellFormed(b) && Axial(line.dir, line.from, line.to)
    ensures var ext := Extend(line, b);
      && ext.dir == line.dir && ext.to == line.to
      && Ahead(line.dir, ext.from, line.from)
      && !Open(b, line.dir.Rotate().Rotate().Step(ext.from))
  {
    var rev := line.dir.Rotate().Rotate();
    var start := ExtendFrom(b, rev, line.from);
    match line.dir
    case Up =>
    case Down =>
    case Left =>
    case Right =>
  }

  /**
   * `try_get_obstacle`, checking that the proposed tile is inside the grid:
   * when the next line runs a quarter turn clockwise from the previous one
   * and crosses it, an obstacle one tile past the crossing would turn the
   * guard onto the previous line; it is proposed when that tile is open.
   */
  function TryGetObstacle(next: Line, prev: Line, b: Board): (obstacle: Option<Coord>)
    requires WellFormed(b)
    ensures obstacle.Some? <==>
      && next.dir.Rotate() == prev.dir
      && IntersectsWith(next, prev).Some?
      && Open(b, next.dir.Step(IntersectsWith(next, prev).value))
    ensures obstacle.Some? ==> obstacle.value == next.dir.Step(IntersectsWith(next, prev).value)
  {
    if next.dir.Rotate() != prev.dir then None
    else
      match IntersectsWith(next, prev)
      case None => None
      case Some(crossing) =>
        var candidate := next.dir.Step(crossing);
        if Open(b, candidate) then Some(candidate) else None
  }

  /** The outcome of `try_get_obstacle` as written, which can also panic. */
  datatype Probe = NoObstacle | Obstacle(at: Coord) | IndexPanic

  /**
   * `Map::index_from` on any coordinate, as a debug build evaluates it: a
   * negative component makes the `usize` arithmetic overflow (`None`);
   * otherwise the row-major index, even for a column past the right edge.
   */
  function UncheckedIndex(width: nat, c: Coord): (i: Option<nat>)
    ensures i.None? <==> c.0 < 0 || c.1 < 0
    ensures 0 <= c.0 < width && 0 <= c.1 ==> i.Some? && CoordinateFrom(width, i.value) == c
    ensures c.0 == width > 0 && 0 <= c.1 ==> i.Some? && CoordinateFrom(width, i.value) == (0, c.1 + 1)
  {
    if c.0 < 0 || c.1 < 0 then None
    else if c.0 < width then
      Arith.DivModOf(c.1, c.0, width);
      Some(c.1 * width + c.0)
    else if c.0 == width > 0 then
      assert c.1 * width + c.0 == (c.1 + 1) * width + 0;
      Arith.DivModOf(c.1 + 1, 0, width);
      Some(c.1 * width + c.0)
    else Some(c.1 * width + c.0)
  }

  /**
   * `try_get_obstacle` as written: the proposed tile is looked up without a
   * bounds check. It finds every obstacle the checked version finds, and it
   * panics only for a proposed tile outside the grid.
   */
  function TryGetObstacleAsWritten(next: Line, prev: Line, b: Board): (p: Probe)
    requires WellFormed(b)
    ensures TryGetObstacle(next, prev, b).Some? ==> p == Obstacle(TryGetObstacle(next, prev, b).value)
    ensures p == IndexPanic ==>
      && IntersectsWith(next, prev).Some?
      && OutOfBounds(b.width, b.height, next.dir.Step(IntersectsWith(next, prev).value))
  {
    if next.dir.Rotate() != prev.dir then NoObstacle
    else
      match IntersectsWith(next, prev)
      case None => NoObstacle
      case Some(crossing) =>
        var candidate := next.dir.Step(crossing);
        match UncheckedIndex(b.width, candidate)
        case None => IndexPanic
        case Some(i) =>
          if i >= |b.tiles| then IndexPanic
          else if b.tiles[i] != Obstructed then Obstacle(candidate)
          else NoObstacle
  }

  /** The two versions agree whenever the proposed tile is inside the grid. */
  lemma AsWrittenAgreesInside(next: Line, prev: Line, b: Board)
    requires WellFormed(b)
    requires IntersectsWith(next, prev).Some?
    requires !OutOfBounds(b.width, b.height, next.dir.Step(IntersectsWith(next, prev).value))
    ensures TryGetObstacleAsWritten(next, prev, b)
         == match TryGetObstacle(next, prev, b) case None => NoObstacle case Some(c) => Obstacle(c)
  {
    var candidate := next.dir.Step(IntersectsWith(next, prev).value);
    IndexRoundTrip(b.width, b.height, candidate);
  }

  /** The obstacles proposed for `next` against each earlier extended line, in order (the inner `for`). */
  function ObstaclesFor(next: Line, prevs: seq<Line>, b: Board): (obstacles: seq<Coord>)
    requires WellFormed(b)
    ensures |obstacles| <= |prevs|
  {
    if |prevs| == 0 then []
    else
      ObstaclesFor(next, prevs[..|prevs| - 1], b)
      + match TryGetObstacle(next, prevs[|prevs| - 1], b) case None => [] case Some(c) => [c]
  }

  /** Every line extended (the `prev_lines` of the fold). */
  function ExtendAll(lines: seq<Line>, b: Board): (exts: seq<Line>)
    requires WellFormed(b)
    requires forall k :: 0 <= k < |lines| ==> Axial(lines[k].dir, lines[k].from, lines[k].to)
    ensures |exts| == |lines|
  {
    if |lines| == 0 then [] else ExtendAll(lines[..|lines| - 1], b) + [Extend(lines[|lines| - 1], b)]
  }

  /** The `k`th extended line is the `k`th line extended. */
  lemma {:induction false} ExtendAllAt(lines: seq<Line>, b: Board, k: nat)
    requires WellFormed(b) && k < |lines|
    requires forall i :: 0 <= i < |lines| ==> Axial(lines[i].dir, lines[i].from, lines[i].to)
    ensures ExtendAll(lines, b)[k] == Extend(lines[k], b)
  {
    var n := |lines| - 1;
    if k < n {
      ExtendAllAt(lines[..n], b, k);
    }
  }

  /** The fold of `part_2`: for each line in turn, the obstacles against all earlier extended lines. */
  function Candidates(lines: seq<Line>, b: Board): (cs: seq<Coord>)
    requires WellFormed(b)
    requires forall k :: 0 <= k < |lines| ==> Axial(lines[k].dir, lines[k].from, lines[k].to)
  {
    if |lines| == 0 then []
    else
      var n := |lines| - 1;
      Candidates(lines[..n], b) + ObstaclesFor(lines[n], ExtendAll(lines[..n], b), b)
  }

  /** The obstacles for one line are exactly those proposed against one of the given lines. */
  lemma {:induction false} ObstaclesForExactly(next: Line, prevs: seq<Line>, b: Board, c: Coord)
    requires WellFormed(b)
    ensures c in ObstaclesFor(next, prevs, b) <==>
      exists k :: 0 <= k < |prevs| && TryGetObstacle(next, prevs[k], b) == Some(c)
  {
    if |prevs| > 0 {
      var n := |prevs| - 1;
      ObstaclesForExactly(next, prevs[..n], b, c);
      if exists k :: 0 <= k < |prevs| && TryGetObstacle(next, prevs[k], b) == Some(c) {
        var k :| 0 <= k < |prevs| && TryGetObstacle(next, prevs[k], b) == Some(c);
        if k < n {
          assert prevs[..n][k] == prevs[k];
        }
      }
      if exists k :: 0 <= k < n && TryGetObstacle(next, prevs[..n][k], b) == Some(c) {
        var k :| 0 <= k < n && TryGetObstacle(next, prevs[..n][k], b) == Some(c);
        assert prevs[..n][k] == prevs[k];
      }
    }
  }

  /** Some line proposes `c` against the extension of an earlier line. */
  ghost predicate Proposed(lines: seq<Line>, b: Board, c: Coord)
    requires WellFormed(b)
    requires forall k :: 0 <= k < |lines| ==> Axial(lines[k].dir, lines[k].from, lines[k].to)
  {
    exists k, m :: 0 <= k < m < |lines| && TryGetObstacle(lines[m], Extend(lines[k], b), b) == Some(c)
  }

  /** Every tile the fold collects is proposed by some pair of lines. */
  lemma {:induction false} CandidatesSound(lines: seq<Line>, b: Board, c: Coord)
    requires WellFormed(b)
    requires forall k :: 0 <= k < |lines| ==> Axial(lines[k].dir, lines[k].from, lines[k].to)
    requires c in Candidates(lines, b)
    ensures Proposed(lines, b, c)
  {
    var n := |lines| - 1;
    var init := lines[..n];
    if c in Candidates(init, b) {
      CandidatesSound(init, b, c);
      ProposedExtends(lines, b, c);
    } else {
      LastProposes(lines, b, c);
    }
  }

  /** A tile proposed among all but the last line is proposed among all of them. */
  lemma ProposedExtends(lines: seq<Line>, b: Board, c: Coord)
    requires WellFormed(b) && |lines| > 0
    requires forall k :: 0 <= k < |lines| ==> Axial(lines[k].dir, lines[k].from, lines[k].to)
    requires Proposed(lines[..|lines| - 1], b, c)
    ensures Proposed(lines, b, c)
  {
    var init := lines[..|lines| - 1];
    var k, m :| 0 <= k < m < |init| && TryGetObstacle(init[m], Extend(init[k], b), b) == Some(c);
    assert init[k] == lines[k] && init[m] == lines[m];
  }

  /** A tile that only the last line's obstacles collect is proposed by the last line. */
  lemma LastProposes(lines: seq<Line>, b: Board, c: Coord)
    requires WellFormed(b) && |lines| > 0
    requires forall k :: 0 <= k < |lines| ==> Axial(lines[k].dir, lines[k].from, lines[k].to)
    requires c in Candidates(lines, b) && c !in Candidates(lines[..|lines| - 1], b)
    ensures Proposed(lines, b, c)
  {
    var n := |lines| - 1;
    var exts := ExtendAll(lines[..n], b);
    assert c in ObstaclesFor(lines[n], exts, b);
    ObstaclesForExactly(lines[n], exts, b, c);
    var k :| 0 <= k < n && TryGetObstacle(lines[n], exts[k], b) == Some(c);
    ExtendAllAt(lines[..n], b, k);
    ProposedWitness(lines, b, c, k, exts[k]);
  }

  /** A line proposing `c` against the extension of an earlier line witnesses `Proposed`. */
  lemma ProposedWitness(lines: seq<Line>, b: Board, c: Coord, k: nat, ext: Line)
    requires WellFormed(b) && k < |lines| - 1
    requires forall i :: 0 <= i < |lines| ==> Axial(lines[i].dir, lines[i].from, lines[i].to)
    requires ext == Extend(lines[k], b) && TryGetObstacle(lines[|lines| - 1], ext, b) == Some(c)
    ensures Proposed(lines, b, c)
  {
  }

  /** Every tile proposed by a pair of lines is among the later line's obstacles. */
  lemma ProposalCollected(lines: seq<Line>, b: Board, c: Coord, k: nat, m: nat)
    requires WellFormed(b)
    requires forall i :: 0 <= i < |lines| ==> Axial(lines[i].dir, lines[i].from, lines[i].to)
    requires k < m < |lines| && TryGetObstacle(lines[m], Extend(lines[k], b), b) == Some(c)
    ensures c in ObstaclesFor(lines[m], ExtendAll(lines[..m], b), b)
  {
    var exts := ExtendAll(lines[..m], b);
    ExtendAllAt(lines[..m], b, k);
    ObstaclesForExactly(lines[m], exts, b, c);
  }

  /** Every tile among some line's obstacles against the earlier extended lines is collected by the fold. */
  lemma CandidatesComplete(lines: seq<Line>, b: Board, c: Coord, m: nat)
    requires WellFormed(b)
    requires forall i :: 0 <= i < |lines| ==> Axial(lines[i].dir, lines[i].from, lines[i].to)
    requires m < |lines| && c in ObstaclesFor(lines[m], ExtendAll(lines[..m], b), b)
    ensures c in Candidates(lines, b)
  {
    CandidatesThroughRound(lines, b, c, m);
    CandidatesPrefix(lines, b, m + 1, c);
  }

  /** The fold up to and including line `m` collects that line's obstacles. */
  lemma CandidatesThroughRound(lines: seq<Line>, b: Board, c: Coord, m: nat)
    requires WellFormed(b)
    requires forall i :: 0 <= i < |lines| ==> Axial(lines[i].dir, lines[i].from, lines[i].to)
    requires m < |lines| && c in ObstaclesFor(lines[m], ExtendAll(lines[..m], b), b)
    ensures c in Candidates(lines[..m + 1], b)
  {
    CandidatesRound(lines, b, m);
    InAppended(Candidates(lines[..m], b), ObstaclesFor(lines[m], ExtendAll(lines[..m], b), b), c);
  }

  lemma InAppended<T>(s: seq<T>, t: seq<T>, x: T)
    requires x in t
    ensures x in s + t
  {
    var i :| 0 <= i < |t| && t[i] == x;
    assert (s + t)[|s| + i] == x;
  }

  lemma InPrefix<T>(s: seq<T>, t: seq<T>, x: T)
    requires x in s
    ensures x in s + t
  {
    var i :| 0 <= i < |s| && s[i] == x;
    assert (s + t)[i] == x;
  }

  /** The fold over a prefix of the lines is a prefix of the fold over all of them. */
  lemma {:induction false} CandidatesPrefix(lines: seq<Line>, b: Board, j: nat, c: Coord)
    requires WellFormed(b) && j <= |lines|
    requires forall i :: 0 <= i < |lines| ==> Axial(lines[i].dir, lines[i].from, lines[i].to)
    requires c in Candidates(lines[..j], b)
    ensures c in Candidates(lines, b)
    decreases |lines| - j
  {
    if j < |lines| {
      CandidatesRound(lines, b, j);
      InPrefix(Candidates(lines[..j], b), ObstaclesFor(lines[j], ExtendAll(lines[..j], b), b), c);
      CandidatesPrefix(lines, b, j + 1, c);
    } else {
      assert lines[..j] == lines;
    }
  }

  /** The fold's last round adds the last line's obstacles to those of the earlier lines. */
  lemma CandidatesUnfold(lines: seq<Line>, b: Board)
    requires WellFormed(b) && |lines| > 0
    requires forall i :: 0 <= i < |lines| ==> Axial(lines[i].dir, lines[i].from, lines[i].to)
    ensures var n := |lines| - 1;
      Candidates(lines, b) == Candidates(lines[..n], b) + ObstaclesFor(lines[n], ExtendAll(lines[..n], b), b)
  {
  }

  /** Round `n` of the fold adds line `n`'s obstacles to those of the lines before it. */
  lemma CandidatesRound(lines: seq<Line>, b: Board, n: nat)
    requires WellFormed(b) && n < |lines|
    requires forall i :: 0 <= i < |lines| ==> Axial(lines[i].dir, lines[i].from, lines[i].to)
    ensures Candidates(lines[..n + 1], b) == Candidates(lines[..n], b) + ObstaclesFor(lines[n], ExtendAll(lines[..n], b), b)
  {
    PrefixOfPrefix(lines, n + 1, n);
    CandidatesUnfold(lines[..n + 1], b);
  }

  lemma PrefixOfPrefix<T>(s: seq<T>, n: nat, m: nat)
    requires m < n <= |s|
    ensures s[..n][m] == s[m] && s[..n][..m] == s[..m]
  {
  }

  /**
   * The proposed obstacles are exactly the tiles proposed for some line
   * against the extension of some earlier line.
   */
  lemma CandidatesExactly(lines: seq<Line>, b: Board, c: Coord)
    requires WellFormed(b)
    requires forall k :: 0 <= k < |lines| ==> Axial(lines[k].dir, lines[k].from, lines[k].to)
    ensures c in Candidates(lines, b) <==> Proposed(lines, b, c)
  {
    if c in Candidates(lines, b) {
      CandidatesSound(lines, b, c);
    }
    if Proposed(lines, b, c) {
      var k, m :| 0 <= k < m < |lines| && TryGetObstacle(lines[m], Extend(lines[k], b), b) == Some(c);
      ProposalCollected(lines, b, c, k, m);
      CandidatesComplete(lines, b, c, m);
    }
  }

  /** Every proposed obstacle is an open tile of the grid. */
  lemma CandidatesOpen(lines: seq<Line>, b: Board)
    requires WellFormed(b)
    requires forall k :: 0 <= k < |lines| ==> Axial(lines[k].dir, lines[k].from, lines[k].to)
    ensures forall c :: c in Candidates(lines, b) ==> Open(b, c)
  {
    forall c | c in Candidates(lines, b)
      ensures Open(b, c)
    {
      CandidatesSound(lines, b, c);
    }
  }

  /** The derived order on `(i64, i64)` that `sort` uses: by `x`, then by `y`. */
  function CoordLe(a: Coord, b: Coord): bool {
    a.0 < b.0 || (a.0 == b.0 && a.1 <= b.1)
  }

  lemma CoordLeIsTotalOrder()
    ensures Sorting.TotalOrder(CoordLe)
  {
  }

  /** `sort` on the proposed obstacles. */
  function SortCoords(s: seq<Coord>): (r: seq<Coord>)
    ensures Sorting.SortedBy(r, CoordLe)
    ensures multiset(r) == multiset(s)
  {
    CoordLeIsTotalOrder();
    Sorting.Sort(s, CoordLe)
  }

  /** `Vec::dedup`: of each run of equal neighbours, only the first is kept. */
  function Dedup(s: seq<Coord>): (r: seq<Coord>)
    ensures forall x :: x in r <==> x in s
    ensures |s| > 0 ==> |r| > 0 && r[0] == s[0]
    ensures forall i :: 0 <= i < |r| - 1 ==> r[i] != r[i + 1]
  {
    if |s| <= 1 then s
    else if s[0] == s[1] then Dedup(s[1..])
    else [s[0]] + Dedup(s[1..])
  }

  /** No element occurs twice. */
  predicate Distinct(s: seq<Coord>) {
    forall i, j :: 0 <= i < j < |s| ==> s[i] != s[j]
  }

  /** After sorting, removing equal neighbours leaves every element once. */
  lemma {:induction false} DedupSortedDistinct(s: seq<Coord>)
    requires Sorting.SortedBy(s, CoordLe)
    ensures Distinct(Dedup(s))
  {
    if |s| > 1 {
      assert Sorting.SortedBy(s[1..], CoordLe);
      DedupSortedDistinct(s[1..]);
      if s[0] != s[1] {
        var r := Dedup(s[1..]);
        forall j | 0 <= j < |r|
          ensures r[j] != s[0]
        {
          assert r[j] in r;
          var k :| 0 <= k < |s[1..]| && s[1..][k] == r[j];
          assert CoordLe(s[0], s[1]) && CoordLe(s[1], s[k + 1]);
        }
        assert Dedup(s) == [s[0]] + r;
      }
    }
  }

  /** A sequence without repetitions is as long as the set of its elements is large. */
  lemma {:induction false} DistinctCardinality(s: seq<Coord>)
    requires Distinct(s)
    ensures |set x | x in s| == |s|
  {
    if |s| > 0 {
      var tail := s[1..];
      assert Distinct(tail);
      DistinctCardinality(tail);
      assert (set x | x in s) == (set x | x in tail) + {s[0]};
      assert s[0] !in tail;
    }
  }

  /** Sorting and then removing equal neighbours counts the different elements. */
  lemma SortDedupCountsDistinct(s: seq<Coord>)
    ensures |Dedup(SortCoords(s))| == |set c | c in s|
  {
    var sorted := SortCoords(s);
    DedupSortedDistinct(sorted);
    DistinctCardinality(Dedup(sorted));
    assert forall x :: x in sorted <==> x in multiset(sorted);
    assert forall x :: x in s <==> x in multiset(s);
    assert (set x | x in Dedup(sorted)) == (set x | x in s);
  }

  /**
   * Part 2's answer: the number of different proposed obstacles (after
   * `sort` and `dedup`), for a walk that leaves the grid within `fuel` steps.
   */
  function Part2Count(b: Board, fuel: nat): (count: Option<nat>)
    requires WellFormed(b) && b.guard.Some?
    ensures count.Some? <==> Lines(b, fuel).Some?
    ensures count.Some? ==> count.value == |set c | c in Candidates(Lines(b, fuel).value, b)|
  {
    match Lines(b, fuel)
    case None => None
    case Some(lines) =>
      SortDedupCountsDistinct(Candidates(lines, b));
      Some(|Dedup(SortCoords(Candidates(lines, b)))|)
  }

  /** Part 2 counts each proposed obstacle once, and each one is an open tile of the grid. */
  lemma Part2CountsDistinct(b: Board, fuel: nat)
    requires WellFormed(b) && b.guard.Some? && Lines(b, fuel).Some?
    ensures var lines := Lines(b, fuel).value;
      && (forall k :: 0 <= k < |lines| ==> Axial(lines[k].dir, lines[k].from, lines[k].to))
      && Part2Count(b, fuel) == Some(|set c | c in Candidates(lines, b)|)
      && (forall c :: c in Candidates(lines, b) <==> Proposed(lines, b, c))
      && (forall c :: c in Candidates(lines, b) ==> Open(b, c))
  {
    var lines := Lines(b, fuel).value;
    SortDedupCountsDistinct(Candidates(lines, b));
    forall c
      ensures c in Candidates(lines, b) <==> Proposed(lines, b, c)
    {
      CandidatesExactly(lines, b, c);
    }
    CandidatesOpen(lines, b);
  }

  /** The `find_map` of `Map::new`: the index of the first guard tile, if any. */
  function FirstGuard(tiles: seq<Tile>): (g: Option<nat>)
    ensures g.Some? ==> g.value < |tiles| && tiles[g.value].Guard?
    ensures g.Some? ==> forall k :: 0 <= k < g.value ==> !tiles[k].Guard?
    ensures g.None? ==> forall k :: 0 <= k < |tiles| ==> !tiles[k].Guard?
  {
    if |tiles| == 0 then None
    else if tiles[0].Guard? then Some(0)
    else match FirstGuard(tiles[1..])
      case None => None
      case Some(i) => Some(i + 1)
  }

  /** The grid of day 6, changed in place as the guard walks. */
  class Map {
    var grid: array<Tile>
    const width: nat
    const height: nat
    var guardIdx: Option<nat>

    /** The map's contents as a value. */
    function State(): Board
      reads this, grid
    {
      Board(grid[..], width, height, guardIdx)
    }

    ghost predicate Valid()
      reads this, grid
    {
      WellFormed(State())
    }

    /** `Map::new`: the guard is at the first guard tile. */
    constructor (tiles: seq<Tile>, width: nat, height: nat)
      requires width > 0 && |tiles| == width * height
      ensures Valid() && fresh(grid)
      ensures State() == Board(tiles, width, height, FirstGuard(tiles))
    {
      this.width := width;
      this.height := height;
      guardIdx := FirstGuard(tiles);
      grid := new Tile[|tiles|](i requires 0 <= i < |tiles| => tiles[i]);
    }

    /** The derived `Clone`: a map with the same contents and its own grid. */
    constructor Clone(other: Map)
      requires other.Valid()
      ensures Valid() && fresh(grid)
      ensures State() == other.State()
    {
      width := other.width;
      height := other.height;
      guardIdx := other.guardIdx;
      grid := new Tile[other.grid.Length](i requires 0 <= i < other.grid.Length reads other, other.grid => other.grid[i]);
    }

    /** `Map::step`: one step of the guard, in place. */
    method Step() returns (event: StepEvent)
      requires Valid()
      modifies this, grid
      ensures Valid() && grid == old(grid)
      ensures (State(), event) == NextState(old(State()))
    {
      if guardIdx.None? {
        return Exit;
      }
      var g := guardIdx.value;
      var guardCoord := CoordinateFrom(width, g);
      var guardDir := grid[g].dir;
      var newCoord := guardDir.Step(guardCoord);

      if OutOfBounds(width, height, newCoord) {
        grid[g] := Marked;
        guardIdx := None;
        return Exit;
      }
      IndexRoundTrip(width, height, newCoord);
      var newIdx := IndexFrom(width, newCoord) as nat;
      if IsObstructed(grid[newIdx]) {
        var rotated := guardDir.Rotate();
        grid[g] := Guard(rotated);
        return Rotate(rotated);
      }
      grid[g] := Marked;
      grid[newIdx] := Guard(guardDir);
      guardIdx := Some(newIdx);
      return Forward;
    }

    /**
     * `part_1`: step until the guard has left, then count the marked tiles;
     * `None` when `fuel` steps do not suffice.
     */
    method Part1(fuel: nat) returns (count: Option<nat>)
      requires Valid()
      modifies this, grid
      ensures Valid() && grid == old(grid)
      ensures count == Part1Count(old(State()), fuel)
      ensures count.Some? ==> Some(State()) == Run(old(State()), fuel)
    {
      var steps := 0;
      while guardIdx.Some?
        invariant Valid() && grid == old(grid) && steps <= fuel
        invariant Run(State(), fuel - steps) == Run(old(State()), fuel)
        decreases fuel - steps
      {
        if steps == fuel {
          return None;
        }
        var _ := Step();
        steps := steps + 1;
      }
      count := Some(Count(grid[..], IsMarked));
    }

    /** `get_all_lines`: the lines of the guard's walk; `None` when `fuel` steps do not suffice. */
    method GetAllLines(fuel: nat) returns (lines: Option<seq<Line>>)
      requires Valid() && guardIdx.Some?
      modifies this, grid
      ensures lines == Lines(old(State()), fuel)
    {
      var lastDir := grid[guardIdx.value].dir;
      var lastCoord := CoordinateFrom(width, guardIdx.value);
      CoordinateRoundTrip(width, height, guardIdx.value);
      var acc: seq<Line> := [];
      var steps := 0;
      ghost var all := Trace(State(), GuardDir(State()), GuardAt(State()), [], fuel);
      while true
        invariant Valid() && grid == old(grid) && steps <= fuel
        invariant Tracing(State(), lastDir, lastCoord)
        invariant Trace(State(), lastDir, lastCoord, acc, fuel - steps) == all
        decreases fuel - steps
      {
        if steps == fuel {
          return None;
        }
        ghost var before := State();
        TracingAfterStep(before, lastDir, lastCoord);
        var event := Step();
        steps := steps + 1;
        match event
        case Forward =>
        case Rotate(to) =>
          var coord := CoordinateFrom(width, guardIdx.value);
          if coord != lastCoord {
            acc := acc + [NewLine(lastDir, lastCoord, coord)];
          }
          lastDir := to;
          lastCoord := coord;
        case Exit =>
          var coord := EdgeAhead(width, height, lastDir, lastCoord);
          if coord != lastCoord {
            acc := acc + [NewLine(lastDir, lastCoord, coord)];
          }
          return Some(acc);
      }
    }

    /** `extend_line` on this map's tiles, stepping backwards one tile at a time. */
    method ExtendLine(line: Line) returns (ext: Line)
      requires Valid() && Axial(line.dir, line.from, line.to)
      ensures ext == Extend(line, State())
    {
      var from := line.from;
      var rev := line.dir.Rotate().Rotate();
      while true
        invariant ExtendFrom(State(), rev, from) == ExtendFrom(State(), rev, line.from)
        decreases match rev
          case Up => from.1
          case Down => height - from.1
          case Left => from.0
          case Right => width - from.0
      {
        var newFrom := rev.Step(from);
        if OutOfBounds(width, height, newFrom) {
          break;
        }
        IndexRoundTrip(width, height, newFrom);
        if grid[IndexFrom(width, newFrom)] == Obstructed {
          break;
        }
        from := newFrom;
      }
      ext := NewLine(line.dir, from, line.to);
    }

    /** The inner `for` of `part_2`'s fold: the obstacles for `next` against each earlier extended line. */
    method ObstaclesAgainst(next: Line, prevLines: seq<Line>) returns (found: seq<Coord>)
      requires Valid()
      ensures found == ObstaclesFor(next, prevLines, State())
    {
      found := [];
      for p := 0 to |prevLines|
        invariant found == ObstaclesFor(next, prevLines[..p], State())
      {
        assert prevLines[..p + 1][..p] == prevLines[..p];
        var obstacle := TryGetObstacle(next, prevLines[p], State());
        if obstacle.Some? {
          found := found + [obstacle.value];
        }
      }
      assert prevLines[..|prevLines|] == prevLines;
    }

    /** The fold of `part_2`: extend each line in turn after probing it against the earlier ones. */
    method CollectObstacles(lines: seq<Line>) returns (obstacles: seq<Coord>)
      requires Valid()
      requires forall k :: 0 <= k < |lines| ==> Axial(lines[k].dir, lines[k].from, lines[k].to)
      ensures obstacles == Candidates(lines, State())
    {
      var prevLines: seq<Line> := [];
      obstacles := [];
      for k := 0 to |lines|
        invariant prevLines == ExtendAll(lines[..k], State())
        invariant obstacles == Candidates(lines[..k], State())
      {
        assert lines[..k + 1][..k] == lines[..k];
        var found := ObstaclesAgainst(lines[k], prevLines);
        obstacles := obstacles + found;
        var ext := ExtendLine(lines[k]);
        prevLines := prevLines + [ext];
      }
      assert lines[..|lines|] == lines;
    }

    /**
     * `part_2`: the lines of the walk (on a clone), then the fold over them,
     * then the number of different proposed obstacles.
     */
    method Part2(fuel: nat) returns (count: Option<nat>)
      requires Valid() && guardIdx.Some?
      ensures count == Part2Count(State(), fuel)
    {
      var copy := new Map.Clone(this);
      var traced := copy.GetAllLines(fuel);
      if traced.None? {
        return None;
      }
      var obstacles := CollectObstacles(traced.value);
      var sorted := SortCoords(obstacles);
      count := Some(|Dedup(sorted)|);
    }
  }

  /** The tile a puzzle character stands for; any other character is rejected (`unimplemented!`). */
  function ParseTile(c: char): Option<Tile> {
    match c
    case '.' => Some(Empty)
    case '#' => Some(Obstructed)
    case '^' => Some(Guard(Up))
    case 'v' => Some(Guard(Down))
    case '<' => Some(Guard(Left))
    case '>' => Some(Guard(Right))
    case _ => None
  }

  /** Every character of every row is a known tile. */
  predicate KnownChars(rows: seq<seq<char>>) {
    forall r, i :: 0 <= r < |rows| && 0 <= i < |rows[r]| ==> ParseTile(rows[r][i]).Some?
  }

  /** Every row is `width` characters long. */
  predicate RowsOfWidth(rows: seq<seq<char>>, width: nat) {
    forall r :: 0 <= r < |rows| ==> |rows[r]| == width
  }

  /** The `flat_map` of `parse`: the tiles of all rows, row after row. */
  function ParseTiles(rows: seq<seq<char>>, width: nat): (tiles: seq<Tile>)
    requires KnownChars(rows) && RowsOfWidth(rows, width)
    ensures |tiles| == |rows| * width
  {
    if |rows| == 0 then []
    else
      var n := |rows| - 1;
      assert KnownChars(rows[..n]) && RowsOfWidth(rows[..n], width);
      ParseTiles(rows[..n], width) + seq(width, i requires 0 <= i < width => ParseTile(rows[n][i]).value)
  }

  /** The tile at column `x` of row `y` is the one the character there stands for. */
  lemma {:induction false} ParseTilesAt(rows: seq<seq<char>>, width: nat, x: nat, y: nat)
    requires KnownChars(rows) && RowsOfWidth(rows, width)
    requires x < width && y < |rows|
    ensures IndexFrom(width, (x, y)) < |ParseTiles(rows, width)|
    ensures ParseTiles(rows, width)[IndexFrom(width, (x, y))] == ParseTile(rows[y][x]).value
  {
    var n := |rows| - 1;
    assert KnownChars(rows[..n]) && RowsOfWidth(rows[..n], width);
    if y < n {
      Arith.IndexBelow(x, y, width, n);
      ParseTilesAt(rows[..n], width, x, y);
      assert rows[..n][y] == rows[y];
    } else {
      Arith.IndexBelow(x, y, width, |rows|);
      assert IndexFrom(width, (x, y)) == n * width + x;
    }
  }

  /** `parse`: the grid of a rectangular puzzle input, one string per row. */
  method Parse(rows: seq<seq<char>>) returns (m: Map)
    requires |rows| > 0 && |rows[0]| > 0
    requires RowsOfWidth(rows, |rows[0]|) && KnownChars(rows)
    ensures fresh(m) && m.Valid()
    ensures m.width == |rows[0]| && m.height == |rows|
    ensures m.State() == Board(ParseTiles(rows, |rows[0]|), |rows[0]|, |rows|, FirstGuard(ParseTiles(rows, |rows[0]|)))
  {
    var width := |rows[0]|;
    var height := |rows|;
    var tiles := ParseTiles(rows, width);
    m := new Map(tiles, width, height);
  }
}
