/**
 * The `QuantumFoam` animation state: the fluctuation pool and the height
 * map it drives, updated in place once per animation frame.
 */
module Foam {
  import opened Options
  import opened Grid
  import opened Fluctuation
  import opened Pool
  import opened HeightField
  import opened Projection

  /** Chance per frame that a spawn is attempted. */
  const SpawnProbability: real := 0.03

  /** `gridDepth` rows of `gridWidth` cells each. */
  predicate GridShaped(hs: seq<seq<real>>) {
    |hs| == GridDepth && forall z :: 0 <= z < |hs| ==> |hs[z]| == GridWidth
  }

  /** One step of the back-to-front loop peels record `i` off the untouched prefix. */
  lemma UnfoldTickPool(s: seq<Gaussian>, i: nat)
    requires i < |s|
    ensures s[..i + 1] + TickPool(s[i + 1..]) == s[..i] + [s[i]] + TickPool(s[i + 1..])
    ensures s[..i] + TickPool(s[i..]) == s[..i] + Kept(Tick(s[i])) + TickPool(s[i + 1..])
  {
    assert s[i..][1..] == s[i + 1..];
    assert s[..i + 1] == s[..i] + [s[i]];
  }

  /**
   * Overwriting or splicing out the record between `prefix` and `rest`
   * leaves `prefix`, what the tick keeps of that record, and `rest`.
   */
  lemma SpliceAt(prefix: seq<Gaussian>, g: Gaussian, rest: seq<Gaussian>, after: seq<Gaussian>, o: Option<Gaussian>)
    requires var i, before := |prefix|, prefix + [g] + rest;
             match o
             case None => after == before[..i] + before[i + 1..]
             case Some(g') => after == before[i := g']
    ensures after == prefix + Kept(o) + rest
  {
    var i, before := |prefix|, prefix + [g] + rest;
    assert before[..i] == prefix && before[i + 1..] == rest;
  }

  class QuantumFoam {
    /** The window size and the cell width derived from it. */
    var width: real
    var height: real
    var cellSize: real
    /** `heights[z][x]` is the displacement of grid vertex (x, z). */
    var heights: seq<seq<real>>
    /** The fluctuation pool, in insertion order. */
    var gaussians: seq<Gaussian>
    /** The exponential `gaussian` evaluates. */
    const exp: real -> real

    /** The pool is within capacity and well formed, and the table has the grid's shape. */
    ghost predicate Valid()
      reads this
    {
      |gaussians| <= MaxGaussians && AllWellFormed(gaussians) && GridShaped(heights)
    }

    /** The fields `project` reads. */
    function View(): Viewport
      reads this
    {
      Viewport(width, height, cellSize)
    }

    /**
     * Sets up the state `init` leaves before its first frame: the size
     * from the window, an all-zero height map and an empty pool.
     */
    constructor (exp: real -> real, innerWidth: real, innerHeight: real)
      ensures Valid()
      ensures this.exp == exp && gaussians == [] && heights == ZeroMap()
      ensures width == innerWidth && height == innerHeight && cellSize == innerWidth / GridWidth as real
    {
      this.exp := exp;
      gaussians := [];
      heights := [];
      new;
      Resize(innerWidth, innerHeight);
      InitHeightMap();
    }

    /** Takes the new window size; the cell width follows the width. */
    method Resize(innerWidth: real, innerHeight: real)
      modifies this
      ensures width == innerWidth && height == innerHeight && cellSize == innerWidth / GridWidth as real
      ensures heights == old(heights) && gaussians == old(gaussians)
    {
      width := innerWidth;
      height := innerHeight;
      cellSize := width / GridWidth as real;
    }

    /** Rebuilds the height map as `gridDepth` rows of `gridWidth` zeros. */
    method InitHeightMap()
      modifies this
      ensures heights == ZeroMap()
      ensures gaussians == old(gaussians) && View() == old(View())
    {
      heights := [];
      for z := 0 to GridDepth
        invariant |heights| == z
        invariant forall zz :: 0 <= zz < z ==> heights[zz] == ZeroMap()[zz]
        invariant gaussians == old(gaussians) && View() == old(View())
      {
        heights := heights + [[]];
        for x := 0 to GridWidth
          invariant |heights| == z + 1
          invariant forall zz :: 0 <= zz < z ==> heights[zz] == ZeroMap()[zz]
          invariant heights[z] == seq(x, _ => 0.0)
          invariant gaussians == old(gaussians) && View() == old(View())
        {
          heights := heights[z := heights[z] + [0.0]];
        }
      }
    }

    /** `spawnGaussian`: pushes a fresh record unless the pool is full. */
    method SpawnGaussian(d: Draws)
      requires UnitDraws(d)
      modifies this
      ensures gaussians == Spawned(old(gaussians), d)
      ensures heights == old(heights) && View() == old(View())
    {
      if |gaussians| >= MaxGaussians {
        return;
      }
      gaussians := gaussians + [NewGaussian(d)];
    }

    /**
     * The aging loop of `updateGaussians`: runs back to front over the
     * pool, growing or fading each record in place and splicing out the
     * ones that have faded away. The result is one front-to-back tick of
     * every record.
     */
    method TickGaussians()
      modifies this
      ensures gaussians == TickPool(old(gaussians))
      ensures heights == old(heights) && View() == old(View())
    {
      ghost var s := gaussians;
      var i := |gaussians|;
      while i > 0
        invariant 0 <= i <= |s|
        invariant gaussians == s[..i] + TickPool(s[i..])
        invariant heights == old(heights) && View() == old(View())
      {
        i := i - 1;
        ghost var rest := TickPool(s[i + 1..]);
        UnfoldTickPool(s, i);
        var g := gaussians[i];
        assert gaussians == s[..i] + [g] + rest;
        if g.phase == Growing {
          var amplitude := g.amplitude + GrowStep(g);
          if amplitude >= g.maxAmplitude {
            assert Tick(g) == Some(g.(amplitude := g.maxAmplitude, phase := Fading));
            gaussians := gaussians[i := g.(amplitude := g.maxAmplitude, phase := Fading)];
          } else {
            assert Tick(g) == Some(g.(amplitude := amplitude));
            gaussians := gaussians[i := g.(amplitude := amplitude)];
          }
        } else {
          var amplitude := g.amplitude - FadeStep(g);
          if amplitude <= 0.0 {
            assert Tick(g) == None;
            gaussians := gaussians[..i] + gaussians[i + 1..];
          } else {
            assert Tick(g) == Some(g.(amplitude := amplitude));
            gaussians := gaussians[i := g.(amplitude := amplitude)];
          }
        }
        SpliceAt(s[..i], g, rest, gaussians, Tick(g));
      }
      assert s[0..] == s;
    }

    /** The height-map pass of `updateGaussians`: every cell becomes the pool's sum at it. */
    method RecomputeHeights()
      requires NonZeroSigmas(gaussians) && GridShaped(heights)
      modifies this
      ensures gaussians == old(gaussians) && View() == old(View())
      ensures heights == HeightMap(exp, gaussians)
    {
      for z := 0 to GridDepth
        invariant gaussians == old(gaussians) && View() == old(View())
        invariant GridShaped(heights)
        invariant forall zz :: 0 <= zz < z ==> heights[zz] == HeightMap(exp, gaussians)[zz]
      {
        for x := 0 to GridWidth
          invariant gaussians == old(gaussians) && View() == old(View())
          invariant GridShaped(heights)
          invariant forall zz :: 0 <= zz < z ==> heights[zz] == HeightMap(exp, gaussians)[zz]
          invariant forall xx :: 0 <= xx < x ==> heights[z][xx] == HeightAt(exp, gaussians, xx as real, z as real)
        {
          var h := 0.0;
          for k := 0 to |gaussians|
            invariant h == HeightAt(exp, gaussians[..k], x as real, z as real)
          {
            var g := gaussians[k];
            assert gaussians[..k + 1][..k] == gaussians[..k];
            h := h + Kernel(exp, x as real, z as real, g.x, g.z, g.amplitude, g.sigma);
          }
          assert gaussians[..|gaussians|] == gaussians;
          heights := heights[z := heights[z][x := h]];
        }
        assert heights[z] == HeightMap(exp, gaussians)[z];
      }
    }

    /**
     * `updateGaussians`: one spawn trial against `trial`, one tick of the
     * pool, then the height map of the pool that remains.
     */
    method UpdateGaussians(trial: real, d: Draws)
      requires Valid()
      requires 0.0 <= trial < 1.0 && UnitDraws(d)
      modifies this
      ensures Valid()
      ensures gaussians == TickPool(if trial < SpawnProbability then Spawned(old(gaussians), d) else old(gaussians))
      ensures heights == HeightMap(exp, gaussians)
      ensures View() == old(View())
    {
      if trial < SpawnProbability {
        SpawnGaussian(d);
      }
      TickGaussians();
      assert NonZeroSigmas(gaussians) by {
        forall g | g in gaussians ensures g.sigma != 0.0 {
          assert WellFormed(g);
        }
      }
      RecomputeHeights();
    }
  }
}
