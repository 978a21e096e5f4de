/**
 * The perspective projection of a grid point with a height onto the
 * screen: rows recede from a near baseline toward a horizon line, columns
 * converge toward the horizontal centre, and heights shrink with depth.
 */
module Projection {
  import opened Grid

  /** Horizon position as a fraction of the screen height (`vanishingPointY`). */
  const VanishingPointY: real := 0.15
  /** Near baseline as a fraction of the screen height. */
  const BaseY: real := 0.95

  /** The instance fields `project` reads: screen size and cell width. */
  datatype Viewport = Viewport(width: real, height: real, cellSize: real)

  /** A projected point; `depthRatio` is 0 at the nearest row. */
  datatype ScreenPoint = ScreenPoint(x: real, y: real, depthRatio: real)

  /** Screen row of grid depth `z` before any height displacement. */
  function RowY(v: Viewport, z: real): (r: real)
    // the nearest row sits on the baseline, the far edge of the grid on the horizon
    ensures z == 0.0 ==> r == BaseY * v.height
    ensures z == GridDepth as real ==> r == VanishingPointY * v.height
  {
    var horizonY := v.height * VanishingPointY;
    var baseY := v.height * BaseY;
    baseY + (horizonY - baseY) * (z / GridDepth as real)
  }

  /** The source's `project(x, z, height)`. */
  function Project(v: Viewport, x: real, z: real, h: real): (p: ScreenPoint)
    ensures 0.0 <= z < GridDepth as real ==> 0.0 <= p.depthRatio < 1.0
  {
    var depthRatio := z / GridDepth as real;
    var y := RowY(v, z);
    var centerX := v.width / 2.0;
    var spreadFactor := 1.0 - depthRatio * 0.7;
    var screenX := centerX + (x - GridWidth as real / 2.0) * v.cellSize * spreadFactor;
    var heightScale := 1.0 - depthRatio * 0.8;
    var screenY := y - h * heightScale;
    ScreenPoint(screenX, screenY, depthRatio)
  }

  /** The nearest row at height 0 lies on the baseline at 95% of the screen height. */
  lemma NearRowOnBaseline(v: Viewport, x: real)
    ensures Project(v, x, 0.0, 0.0).y == 0.95 * v.height
  {
  }

  /** On a screen of positive height, rows further away are drawn strictly higher up. */
  lemma RowsRecede(v: Viewport, z1: real, z2: real)
    requires v.height > 0.0 && z1 < z2
    ensures RowY(v, z1) > RowY(v, z2)
    ensures RowY(v, z2) > 0.15 * v.height || z2 >= GridDepth as real
  {
    assert RowY(v, z1) - RowY(v, z2) == v.height * (0.8 * (z2 - z1) / 25.0);
    assert RowY(v, z2) - 0.15 * v.height == v.height * (0.8 * (25.0 - z2) / 25.0);
  }

  /** The centre column projects to the horizontal centre of the screen at every depth and height. */
  lemma CentreColumnStaysCentred(v: Viewport, z: real, h: real)
    ensures Project(v, GridWidth as real / 2.0, z, h).x == v.width / 2.0
  {
  }

  /**
   * Within the grid's depth a higher point is drawn no lower on the screen,
   * so peaks rise above their row.
   */
  lemma HeightRaises(v: Viewport, x: real, z: real, h1: real, h2: real)
    requires 0.0 <= z <= GridDepth as real && h1 <= h2
    ensures Project(v, x, z, h2).y <= Project(v, x, z, h1).y
  {
    var scale := 1.0 - (z / 25.0) * 0.8;
    assert scale >= 0.2;
    assert h2 * scale - h1 * scale == (h2 - h1) * scale;
  }

  /**
   * Columns converge toward the horizontal centre as depth grows: the
   * offset from the centre keeps its sign and never grows in size.
   */
  lemma ColumnsConverge(v: Viewport, x: real, z1: real, z2: real, h: real)
    requires 0.0 <= z1 <= z2 <= GridDepth as real
    ensures var o1, o2 := Project(v, x, z1, h).x - v.width / 2.0, Project(v, x, z2, h).x - v.width / 2.0;
            && (o1 > 0.0 ==> 0.0 < o2 <= o1)
            && (o1 < 0.0 ==> o1 <= o2 < 0.0)
            && (o1 == 0.0 ==> o2 == 0.0)
  {
    var c := (x - 25.0) * v.cellSize;
    var s1, s2 := 1.0 - (z1 / 25.0) * 0.7, 1.0 - (z2 / 25.0) * 0.7;
    assert s1 >= s2 >= 0.3;
    assert Project(v, x, z1, h).x - v.width / 2.0 == c * s1;
    assert Project(v, x, z2, h).x - v.width / 2.0 == c * s2;
    if c > 0.0 {
      assert c * s2 <= c * s1;
      assert c * s2 > 0.0;
    } else if c < 0.0 {
      assert c * s1 <= c * s2;
      assert c * s2 < 0.0;
    }
  }

  /**
   * Convergence stops short of the centre: at the far edge the spread
   * factor is 0.3, so with cells of positive width the first column is
   * still off centre.
   */
  lemma FarEdgeStillSpread(v: Viewport, h: real)
    requires v.cellSize > 0.0
    ensures Project(v, 0.0, GridDepth as real, h).x == v.width / 2.0 - 7.5 * v.cellSize
    ensures Project(v, 0.0, GridDepth as real, h).x != v.width / 2.0
  {
  }

  /**
   * Heights shrink with depth: within the grid, the same non-negative
   * height lifts a point above its row by no more at a greater depth.
   */
  lemma PeaksShrink(v: Viewport, x: real, z1: real, z2: real, h: real)
    requires h >= 0.0 && 0.0 <= z1 <= z2 <= GridDepth as real
    ensures RowY(v, z2) - Project(v, x, z2, h).y <= RowY(v, z1) - Project(v, x, z1, h).y
  {
    var s1, s2 := 1.0 - (z1 / 25.0) * 0.8, 1.0 - (z2 / 25.0) * 0.8;
    assert s2 <= s1;
    assert RowY(v, z1) - Project(v, x, z1, h).y == h * s1;
    assert RowY(v, z2) - Project(v, x, z2, h).y == h * s2;
    assert h * s1 - h * s2 == h * (s1 - s2);
  }
}
