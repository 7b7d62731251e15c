/**
 * Two small day 6 puzzles whose walks are worked out step by step, used to
 * show where `try_get_obstacle` (src/day06.rs) looks past the edge of the
 * grid. Each grid function gives the board after `k` steps of the walk.
 */
module GuardWalkExamples {
  import opened Options
  import opened GuardGeometry
  import opened GuardWalk

  /**
   * The 4-by-3 puzzle `.>.#` / `#...` / `..#.`: the guard walks right,
   * down, left, and up out of the top edge, through the tile it started on.
   */
  function PanicGrid(k: nat): Board
    requires k < 8
  {
    match k
    case 0 =>
      Board([Empty, Guard(Right), Empty, Obstructed,
             Obstructed, Empty, Empty, Empty,
             Empty, Empty, Obstructed, Empty],
            4, 3, Some(1))
    case 1 =>
      Board([Empty, Marked, Guard(Right), Obstructed,
             Obstructed, Empty, Empty, Empty,
             Empty, Empty, Obstructed, Empty],
            4, 3, Some(2))
    case 2 =>
      Board([Empty, Marked, Guard(Down), Obstructed,
             Obstructed, Empty, Empty, Empty,
             Empty, Empty, Obstructed, Empty],
            4, 3, Some(2))
    case 3 =>
      Board([Empty, Marked, Marked, Obstructed,
             Obstructed, Empty, Guard(Down), Empty,
             Empty, Empty, Obstructed, Empty],
            4, 3, Some(6))
    case 4 =>
      Board([Empty, Marked, Marked, Obstructed,
             Obstructed, Empty, Guard(Left), Empty,
             Empty, Empty, Obstructed, Empty],
            4, 3, Some(6))
    case 5 =>
      Board([Empty, Marked, Marked, Obstructed,
             Obstructed, Guard(Left), Marked, Empty,
             Empty, Empty, Obstructed, Empty],
            4, 3, Some(5))
    case 6 =>
      Board([Empty, Marked, Marked, Obstructed,
             Obstructed, Guard(Up), Marked, Empty,
             Empty, Empty, Obstructed, Empty],
            4, 3, Some(5))
    case _ =>
      Board([Empty, Guard(Up), Marked, Obstructed,
             Obstructed, Marked, Marked, Empty,
             Empty, Empty, Obstructed, Empty],
            4, 3, Some(1))
  }

  lemma PanicGridStep0()
    ensures NextState(PanicGrid(0)) == (PanicGrid(1), Forward)
  {
    assert NextState(PanicGrid(0)).0.tiles == PanicGrid(1).tiles;
  }

  lemma PanicGridStep1()
    ensures NextState(PanicGrid(1)) == (PanicGrid(2), Rotate(Down))
  {
    assert NextState(PanicGrid(1)).0.tiles == PanicGrid(2).tiles;
  }

  lemma PanicGridStep2()
    ensures NextState(PanicGrid(2)) == (PanicGrid(3), Forward)
  {
    assert NextState(PanicGrid(2)).0.tiles == PanicGrid(3).tiles;
  }

  lemma PanicGridStep3()
    ensures NextState(PanicGrid(3)) == (PanicGrid(4), Rotate(Left))
  {
    assert NextState(PanicGrid(3)).0.tiles == PanicGrid(4).tiles;
  }

  lemma PanicGridStep4()
    ensures NextState(PanicGrid(4)) == (PanicGrid(5), Forward)
  {
    assert NextState(PanicGrid(4)).0.tiles == PanicGrid(5).tiles;
  }

  lemma PanicGridStep5()
    ensures NextState(PanicGrid(5)) == (PanicGrid(6), Rotate(Up))
  {
    assert NextState(PanicGrid(5)).0.tiles == PanicGrid(6).tiles;
  }

  lemma PanicGridStep6()
    ensures NextState(PanicGrid(6)) == (PanicGrid(7), Forward)
  {
    assert NextState(PanicGrid(6)).0.tiles == PanicGrid(7).tiles;
  }

  lemma PanicGridTrace7()
    ensures Tracing(PanicGrid(7), Up, (1, 1))
    ensures Trace(PanicGrid(7), Up, (1, 1), [Line(Right, (1, 0), (2, 0)), Line(Down, (2, 0), (2, 1)), Line(Left, (2, 1), (1, 1))], 2) == Some([Line(Right, (1, 0), (2, 0)), Line(Down, (2, 0), (2, 1)), Line(Left, (2, 1), (1, 1)), Line(Up, (1, 1), (1, 0))])
  {
    assert GuardAt(PanicGrid(7)) == (1, 0);
    assert NextState(PanicGrid(7)).1 == Exit;
    assert EdgeAhead(4, 3, Up, (1, 1)) == (1, 0);
    assert [Line(Right, (1, 0), (2, 0)), Line(Down, (2, 0), (2, 1)), Line(Left, (2, 1), (1, 1))] + [Line(Up, (1, 1), (1, 0))] == [Line(Right, (1, 0), (2, 0)), Line(Down, (2, 0), (2, 1)), Line(Left, (2, 1), (1, 1)), Line(Up, (1, 1), (1, 0))];
  }

  lemma PanicGridTrace6()
    ensures Tracing(PanicGrid(6), Up, (1, 1))
    ensures Trace(PanicGrid(6), Up, (1, 1), [Line(Right, (1, 0), (2, 0)), Line(Down, (2, 0), (2, 1)), Line(Left, (2, 1), (1, 1))], 3) == Some([Line(Right, (1, 0), (2, 0)), Line(Down, (2, 0), (2, 1)), Line(Left, (2, 1), (1, 1)), Line(Up, (1, 1), (1, 0))])
  {
    assert GuardAt(PanicGrid(6)) == (1, 1);
    PanicGridStep6();
    PanicGridTrace7();
  }

  lemma PanicGridTrace5()
    ensures Tracing(PanicGrid(5), Left, (2, 1))
    ensures Trace(PanicGrid(5), Left, (2, 1), [Line(Right, (1, 0), (2, 0)), Line(Down, (2, 0), (2, 1))], 4) == Some([Line(Right, (1, 0), (2, 0)), Line(Down, (2, 0), (2, 1)), Line(Left, (2, 1), (1, 1)), Line(Up, (1, 1), (1, 0))])
  {
    assert GuardAt(PanicGrid(5)) == (1, 1);
    PanicGridStep5();
    PanicGridTrace6();
    assert GuardAt(PanicGrid(6)) == (1, 1);
    assert [Line(Right, (1, 0), (2, 0)), Line(Down, (2, 0), (2, 1))] + [Line(Left, (2, 1), (1, 1))] == [Line(Right, (1, 0), (2, 0)), Line(Down, (2, 0), (2, 1)), Line(Left, (2, 1), (1, 1))];
  }

  lemma PanicGridTrace4()
    ensures Tracing(PanicGrid(4), Left, (2, 1))
    ensures Trace(PanicGrid(4), Left, (2, 1), [Line(Right, (1, 0), (2, 0)), Line(Down, (2, 0), (2, 1))], 5) == Some([Line(Right, (1, 0), (2, 0)), Line(Down, (2, 0), (2, 1)), Line(Left, (2, 1), (1, 1)), Line(Up, (1, 1), (1, 0))])
  {
    assert GuardAt(PanicGrid(4)) == (2, 1);
    PanicGridStep4();
    PanicGridTrace5();
  }

  lemma PanicGridTrace3()
    ensures Tracing(PanicGrid(3), Down, (2, 0))
    ensures Trace(PanicGrid(3), Down, (2, 0), [Line(Right, (1, 0), (2, 0))], 6) == Some([Line(Right, (1, 0), (2, 0)), Line(Down, (2, 0), (2, 1)), Line(Left, (2, 1), (1, 1)), Line(Up, (1, 1), (1, 0))])
  {
    assert GuardAt(PanicGrid(3)) == (2, 1);
    PanicGridStep3();
    PanicGridTrace4();
    assert GuardAt(PanicGrid(4)) == (2, 1);
    assert [Line(Right, (1, 0), (2, 0))] + [Line(Down, (2, 0), (2, 1))] == [Line(Right, (1, 0), (2, 0)), Line(Down, (2, 0), (2, 1))];
  }

  lemma PanicGridTrace2()
    ensures Tracing(PanicGrid(2), Down, (2, 0))
    ensures Trace(PanicGrid(2), Down, (2, 0), [Line(Right, (1, 0), (2, 0))], 7) == Some([Line(Right, (1, 0), (2, 0)), Line(Down, (2, 0), (2, 1)), Line(Left, (2, 1), (1, 1)), Line(Up, (1, 1), (1, 0))])
  {
    assert GuardAt(PanicGrid(2)) == (2, 0);
    PanicGridStep2();
    PanicGridTrace3();
  }

  lemma PanicGridTrace1()
    ensures Tracing(PanicGrid(1), Right, (1, 0))
    ensures Trace(PanicGrid(1), Right, (1, 0), [], 8) == Some([Line(Right, (1, 0), (2, 0)), Line(Down, (2, 0), (2, 1)), Line(Left, (2, 1), (1, 1)), Line(Up, (1, 1), (1, 0))])
  {
    assert GuardAt(PanicGrid(1)) == (2, 0);
    PanicGridStep1();
    PanicGridTrace2();
    assert GuardAt(PanicGrid(2)) == (2, 0);
    assert [] + [Line(Right, (1, 0), (2, 0))] == [Line(Right, (1, 0), (2, 0))];
  }

  lemma PanicGridTrace0()
    ensures Tracing(PanicGrid(0), Right, (1, 0))
    ensures Trace(PanicGrid(0), Right, (1, 0), [], 9) == Some([Line(Right, (1, 0), (2, 0)), Line(Down, (2, 0), (2, 1)), Line(Left, (2, 1), (1, 1)), Line(Up, (1, 1), (1, 0))])
  {
    assert GuardAt(PanicGrid(0)) == (1, 0);
    PanicGridStep0();
    PanicGridTrace1();
  }

  /**
   * The 4-by-4 puzzle `..#.` / `...v` / `.#..` / `...#`: the guard walks
   * down, left, up, and right out of the right edge, through the tile it
   * started on.
   */
  function WrapGrid(k: nat): Board
    requires k < 8
  {
    match k
    case 0 =>
      Board([Empty, Empty, Obstructed, Empty,
             Empty, Empty, Empty, Guard(Down),
             Empty, Obstructed, Empty, Empty,
             Empty, Empty, Empty, Obstructed],
            4, 4, Some(7))
    case 1 =>
      Board([Empty, Empty, Obstructed, Empty,
             Empty, Empty, Empty, Marked,
             Empty, Obstructed, Empty, Guard(Down),
             Empty, Empty, Empty, Obstructed],
            4, 4, Some(11))
    case 2 =>
      Board([Empty, Empty, Obstructed, Empty,
             Empty, Empty, Empty, Marked,
             Empty, Obstructed, Empty, Guard(Left),
             Empty, Empty, Empty, Obstructed],
            4, 4, Some(11))
    case 3 =>
      Board([Empty, Empty, Obstructed, Empty,
             Empty, Empty, Empty, Marked,
             Empty, Obstructed, Guard(Left), Marked,
             Empty, Empty, Empty, Obstructed],
            4, 4, Some(10))
    case 4 =>
      Board([Empty, Empty, Obstructed, Empty,
             Empty, Empty, Empty, Marked,
             Empty, Obstructed, Guard(Up), Marked,
             Empty, Empty, Empty, Obstructed],
            4, 4, Some(10))
    case 5 =>
      Board([Empty, Empty, Obstructed, Empty,
             Empty, Empty, Guard(Up), Marked,
             Empty, Obstructed, Marked, Marked,
             Empty, Empty, Empty, Obstructed],
            4, 4, Some(6))
    case 6 =>
      Board([Empty, Empty, Obstructed, Empty,
             Empty, Empty, Guard(Right), Marked,
             Empty, Obstructed, Marked, Marked,
             Empty, Empty, Empty, Obstructed],
            4, 4, Some(6))
    case _ =>
      Board([Empty, Empty, Obstructed, Empty,
             Empty, Empty, Marked, Guard(Right),
             Empty, Obstructed, Marked, Marked,
             Empty, Empty, Empty, Obstructed],
            4, 4, Some(7))
  }

  lemma WrapGridStep0()
    ensures NextState(WrapGrid(0)) == (WrapGrid(1), Forward)
  {
    assert NextState(WrapGrid(0)).0.tiles == WrapGrid(1).tiles;
  }

  lemma WrapGridStep1()
    ensures NextState(WrapGrid(1)) == (WrapGrid(2), Rotate(Left))
  {
    assert NextState(WrapGrid(1)).0.tiles == WrapGrid(2).tiles;
  }

  lemma WrapGridStep2()
    ensures NextState(WrapGrid(2)) == (WrapGrid(3), Forward)
  {
    assert NextState(WrapGrid(2)).0.tiles == WrapGrid(3).tiles;
  }

  lemma WrapGridStep3()
    ensures NextState(WrapGrid(3)) == (WrapGrid(4), Rotate(Up))
  {
    assert NextState(WrapGrid(3)).0.tiles == WrapGrid(4).tiles;
  }

  lemma WrapGridStep4()
    ensures NextState(WrapGrid(4)) == (WrapGrid(5), Forward)
  {
    assert NextState(WrapGrid(4)).0.tiles == WrapGrid(5).tiles;
  }

  lemma WrapGridStep5()
    ensures NextState(WrapGrid(5)) == (WrapGrid(6), Rotate(Right))
  {
    assert NextState(WrapGrid(5)).0.tiles == WrapGrid(6).tiles;
  }

  lemma WrapGridStep6()
    ensures NextState(WrapGrid(6)) == (WrapGrid(7), Forward)
  {
    assert NextState(WrapGrid(6)).0.tiles == WrapGrid(7).tiles;
  }

  lemma WrapGridTrace7()
    ensures Tracing(WrapGrid(7), Right, (2, 1))
    ensures Trace(WrapGrid(7), Right, (2, 1), [Line(Down, (3, 1), (3, 2)), Line(Left, (3, 2), (2, 2)), Line(Up, (2, 2), (2, 1))], 2) == Some([Line(Down, (3, 1), (3, 2)), Line(Left, (3, 2), (2, 2)), Line(Up, (2, 2), (2, 1)), Line(Right, (2, 1), (3, 1))])
  {
    assert GuardAt(WrapGrid(7)) == (3, 1);
    assert NextState(WrapGrid(7)).1 == Exit;
    assert EdgeAhead(4, 4, Right, (2, 1)) == (3, 1);
    assert [Line(Down, (3, 1), (3, 2)), Line(Left, (3, 2), (2, 2)), Line(Up, (2, 2), (2, 1))] + [Line(Right, (2, 1), (3, 1))] == [Line(Down, (3, 1), (3, 2)), Line(Left, (3, 2), (2, 2)), Line(Up, (2, 2), (2, 1)), Line(Right, (2, 1), (3, 1))];
  }

  lemma WrapGridTrace6()
    ensures Tracing(WrapGrid(6), Right, (2, 1))
    ensures Trace(WrapGrid(6), Right, (2, 1), [Line(Down, (3, 1), (3, 2)), Line(Left, (3, 2), (2, 2)), Line(Up, (2, 2), (2, 1))], 3) == Some([Line(Down, (3, 1), (3, 2)), Line(Left, (3, 2), (2, 2)), Line(Up, (2, 2), (2, 1)), Line(Right, (2, 1), (3, 1))])
  {
    var lines := [Line(Down, (3, 1), (3, 2)), Line(Left, (3, 2), (2, 2)), Line(Up, (2, 2), (2, 1))];
    assert GuardAt(WrapGrid(6)) == (2, 1);
    assert Tracing(WrapGrid(6), Right, (2, 1));
    WrapGridStep6();
    WrapGridTrace7();
    assert Trace(WrapGrid(6), Right, (2, 1), lines, 3) == Trace(WrapGrid(7), Right, (2, 1), lines, 2);
  }

  lemma WrapGridTrace5()
    ensures Tracing(WrapGrid(5), Up, (2, 2))
    ensures Trace(WrapGrid(5), Up, (2, 2), [Line(Down, (3, 1), (3, 2)), Line(Left, (3, 2), (2, 2))], 4) == Some([Line(Down, (3, 1), (3, 2)), Line(Left, (3, 2), (2, 2)), Line(Up, (2, 2), (2, 1)), Line(Right, (2, 1), (3, 1))])
  {
    assert GuardAt(WrapGrid(5)) == (2, 1);
    WrapGridStep5();
    WrapGridTrace6();
    assert GuardAt(WrapGrid(6)) == (2, 1);
    assert [Line(Down, (3, 1), (3, 2)), Line(Left, (3, 2), (2, 2))] + [Line(Up, (2, 2), (2, 1))] == [Line(Down, (3, 1), (3, 2)), Line(Left, (3, 2), (2, 2)), Line(Up, (2, 2), (2, 1))];
  }

  lemma WrapGridTrace4()
    ensures Tracing(WrapGrid(4), Up, (2, 2))
    ensures Trace(WrapGrid(4), Up, (2, 2), [Line(Down, (3, 1), (3, 2)), Line(Left, (3, 2), (2, 2))], 5) == Some([Line(Down, (3, 1), (3, 2)), Line(Left, (3, 2), (2, 2)), Line(Up, (2, 2), (2, 1)), Line(Right, (2, 1), (3, 1))])
  {
    assert GuardAt(WrapGrid(4)) == (2, 2);
    WrapGridStep4();
    WrapGridTrace5();
  }

  lemma WrapGridTrace3()
    ensures Tracing(WrapGrid(3), Left, (3, 2))
    ensures Trace(WrapGrid(3), Left, (3, 2), [Line(Down, (3, 1), (3, 2))], 6) == Some([Line(Down, (3, 1), (3, 2)), Line(Left, (3, 2), (2, 2)), Line(Up, (2, 2), (2, 1)), Line(Right, (2, 1), (3, 1))])
  {
    assert GuardAt(WrapGrid(3)) == (2, 2);
    WrapGridStep3();
    WrapGridTrace4();
    assert GuardAt(WrapGrid(4)) == (2, 2);
    assert [Line(Down, (3, 1), (3, 2))] + [Line(Left, (3, 2), (2, 2))] == [Line(Down, (3, 1), (3, 2)), Line(Left, (3, 2), (2, 2))];
  }

  lemma WrapGridTrace2()
    ensures Tracing(WrapGrid(2), Left, (3, 2))
    ensures Trace(WrapGrid(2), Left, (3, 2), [Line(Down, (3, 1), (3, 2))], 7) == Some([Line(Down, (3, 1), (3, 2)), Line(Left, (3, 2), (2, 2)), Line(Up, (2, 2), (2, 1)), Line(Right, (2, 1), (3, 1))])
  {
    assert GuardAt(WrapGrid(2)) == (3, 2);
    WrapGridStep2();
    WrapGridTrace3();
  }

  lemma WrapGridTrace1()
    ensures Tracing(WrapGrid(1), Down, (3, 1))
    ensures Trace(WrapGrid(1), Down, (3, 1), [], 8) == Some([Line(Down, (3, 1), (3, 2)), Line(Left, (3, 2), (2, 2)), Line(Up, (2, 2), (2, 1)), Line(Right, (2, 1), (3, 1))])
  {
    assert GuardAt(WrapGrid(1)) == (3, 2);
    WrapGridStep1();
    WrapGridTrace2();
    assert GuardAt(WrapGrid(2)) == (3, 2);
    assert [] + [Line(Down, (3, 1), (3, 2))] == [Line(Down, (3, 1), (3, 2))];
  }

  lemma WrapGridTrace0()
    ensures Tracing(WrapGrid(0), Down, (3, 1))
    ensures Trace(WrapGrid(0), Down, (3, 1), [], 9) == Some([Line(Down, (3, 1), (3, 2)), Line(Left, (3, 2), (2, 2)), Line(Up, (2, 2), (2, 1)), Line(Right, (2, 1), (3, 1))])
  {
    assert GuardAt(WrapGrid(0)) == (3, 1);
    WrapGridStep0();
    WrapGridTrace1();
  }

  /** The first puzzle's text parses to the first board. */
  lemma PanicGridParsed()
    ensures KnownChars([".>.#", "#...", "..#."]) && RowsOfWidth([".>.#", "#...", "..#."], 4)
    ensures ParseTiles([".>.#", "#...", "..#."], 4) == PanicGrid(0).tiles
    ensures FirstGuard(PanicGrid(0).tiles) == PanicGrid(0).guard
  {
    var rows := [".>.#", "#...", "..#."];
    assert KnownChars(rows);
    assert rows[..2][..1] == rows[..1];
    assert KnownChars(rows[..2]) && KnownChars(rows[..1]);
    assert ParseTiles(rows[..1], 4) == PanicGrid(0).tiles[..4];
    assert ParseTiles(rows[..2], 4) == PanicGrid(0).tiles[..8];
    var tiles := PanicGrid(0).tiles;
    assert tiles[1].Guard? && !tiles[0].Guard?;
    FirstGuardAt(tiles, 1);
  }

  /** The second puzzle's text parses to the second board. */
  lemma WrapGridParsed()
    ensures KnownChars(["..#.", "...v", ".#..", "...#"]) && RowsOfWidth(["..#.", "...v", ".#..", "...#"], 4)
    ensures ParseTiles(["..#.", "...v", ".#..", "...#"], 4) == WrapGrid(0).tiles
  {
    var rows := ["..#.", "...v", ".#..", "...#"];
    assert KnownChars(rows);
    assert rows[..3][..2] == rows[..2] && rows[..2][..1] == rows[..1];
    assert KnownChars(rows[..3]) && KnownChars(rows[..2]) && KnownChars(rows[..1]);
    assert ParseTiles(rows[..1], 4) == WrapGrid(0).tiles[..4];
    assert ParseTiles(rows[..2], 4) == WrapGrid(0).tiles[..8];
    assert ParseTiles(rows[..3], 4) == WrapGrid(0).tiles[..12];
  }

  /** The guard of the second board is the first guard tile. */
  lemma WrapGridFirstGuard()
    ensures FirstGuard(WrapGrid(0).tiles) == WrapGrid(0).guard
  {
    var tiles := WrapGrid(0).tiles;
    assert tiles[7].Guard?;
    assert forall k :: 0 <= k < 7 ==> !tiles[k].Guard?;
    FirstGuardAt(tiles, 7);
  }

  /** The first guard tile is the one with no guard tile before it. */
  lemma FirstGuardAt(tiles: seq<Tile>, i: nat)
    requires i < |tiles| && tiles[i].Guard?
    requires forall k :: 0 <= k < i ==> !tiles[k].Guard?
    ensures FirstGuard(tiles) == Some(i)
  {
  }

  /** The lines of the first puzzle's walk: its last line leaves through the top edge above its first line. */
  lemma PanicGridLines()
    ensures Lines(PanicGrid(0), 9) == Some([Line(Right, (1, 0), (2, 0)), Line(Down, (2, 0), (2, 1)),
                                    Line(Left, (2, 1), (1, 1)), Line(Up, (1, 1), (1, 0))])
  {
    PanicGridTrace0();
  }

  /** The lines of the second puzzle's walk: its last line leaves through the right edge across its first line. */
  lemma WrapGridLines()
    ensures Lines(WrapGrid(0), 9) == Some([Line(Down, (3, 1), (3, 2)), Line(Left, (3, 2), (2, 2)),
                                   Line(Up, (2, 2), (2, 1)), Line(Right, (2, 1), (3, 1))])
  {
    WrapGridTrace0();
  }

  /**
   * In the first puzzle, the last line (up) crosses the extended first line
   * (right) at `(1, 0)`, so the proposed tile is `(1, -1)`, above the grid:
   * as written, looking it up panics; the corrected probe proposes nothing.
   */
  lemma AsWrittenPanicsAboveGrid()
    ensures var b := PanicGrid(0);
      var first := Extend(Line(Right, (1, 0), (2, 0)), b);
      var last := Line(Up, (1, 1), (1, 0));
      && first == Line(Right, (0, 0), (2, 0))
      && IntersectsWith(last, first) == Some((1, 0))
      && OutOfBounds(b.width, b.height, (1, -1))
      && TryGetObstacleAsWritten(last, first, b) == IndexPanic
      && TryGetObstacle(last, first, b) == None
  {
    var b := PanicGrid(0);
    assert TileAt(b, (0, 0)) == Some(Empty);
    assert ExtendFrom(b, Left, (1, 0)) == (0, 0);
  }

  /**
   * In the second puzzle, the last line (right) crosses the extended first
   * line (down) at `(3, 1)`, so the proposed tile is `(4, 1)`, right of the
   * grid: as written, its index `1 * 4 + 4` names the open tile `(0, 2)` and
   * an obstacle outside the grid is counted; the corrected probe proposes
   * nothing.
   */
  lemma AsWrittenCountsOutsideGrid()
    ensures var b := WrapGrid(0);
      var first := Extend(Line(Down, (3, 1), (3, 2)), b);
      var last := Line(Right, (2, 1), (3, 1));
      && first == Line(Down, (3, 0), (3, 2))
      && IntersectsWith(last, first) == Some((3, 1))
      && OutOfBounds(b.width, b.height, (4, 1))
      && TryGetObstacleAsWritten(last, first, b) == Obstacle((4, 1))
      && TryGetObstacle(last, first, b) == None
  {
    var b := WrapGrid(0);
    assert TileAt(b, (3, 0)) == Some(Empty);
    assert ExtendFrom(b, Up, (3, 1)) == (3, 0);
  }
}
