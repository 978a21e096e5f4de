/**
 * The height map: every grid cell holds the sum, over the pool, of each
 * record's Gaussian bump evaluated at that cell.
 */
module HeightField {
  import opened Grid
  import opened Fluctuation

  /**
   * The source's `gaussian(x, z, cx, cz, amplitude, sigma)`; the
   * exponential is the parameter `exp`, about which nothing is assumed.
   */
  function Kernel(exp: real -> real, x: real, z: real, cx: real, cz: real, amplitude: real, sigma: real): (r: real)
    requires sigma != 0.0
    // a record at amplitude 0 contributes nothing
    ensures amplitude == 0.0 ==> r == 0.0
    // a non-negative exponential gives a non-negative amplitude a non-negative bump
    ensures (forall t :: exp(t) >= 0.0) && amplitude >= 0.0 ==> r >= 0.0
  {
    var dx := x - cx;
    var dz := z - cz;
    var dist2 := dx * dx + dz * dz;
    amplitude * exp(-dist2 / (2.0 * sigma * sigma))
  }

  /** Every record has a non-zero `sigma`, so its kernel is defined. */
  predicate NonZeroSigmas(pool: seq<Gaussian>) {
    forall g <- pool :: g.sigma != 0.0
  }

  /** The contribution of record `g` at cell (x, z). */
  function Bump(exp: real -> real, g: Gaussian, x: real, z: real): real
    requires g.sigma != 0.0
  {
    Kernel(exp, x, z, g.x, g.z, g.amplitude, g.sigma)
  }

  /** The height at cell (x, z): the running sum `h` over the pool, in pool order. */
  function HeightAt(exp: real -> real, pool: seq<Gaussian>, x: real, z: real): (r: real)
    requires NonZeroSigmas(pool)
    ensures (forall g <- pool :: g.amplitude == 0.0) ==> r == 0.0
  {
    if pool == [] then 0.0
    else HeightAt(exp, pool[..|pool| - 1], x, z) + Bump(exp, pool[|pool| - 1], x, z)
  }

  /** The whole `gridDepth x gridWidth` table, row `z`, column `x`. */
  function HeightMap(exp: real -> real, pool: seq<Gaussian>): (m: seq<seq<real>>)
    requires NonZeroSigmas(pool)
    ensures |m| == GridDepth
    ensures forall z :: 0 <= z < |m| ==> |m[z]| == GridWidth
  {
    seq(GridDepth, z => seq(GridWidth, x => HeightAt(exp, pool, x as real, z as real)))
  }

  /** The table `initHeightMap` builds: `gridDepth` rows of `gridWidth` zeros. */
  function ZeroMap(): seq<seq<real>> {
    seq(GridDepth, z => seq(GridWidth, x => 0.0))
  }

  /** The height of a pool split in two is the sum of the heights of its parts. */
  lemma {:induction false} HeightAppend(exp: real -> real, a: seq<Gaussian>, b: seq<Gaussian>, x: real, z: real)
    requires NonZeroSigmas(a) && NonZeroSigmas(b)
    ensures NonZeroSigmas(a + b)
    ensures HeightAt(exp, a + b, x, z) == HeightAt(exp, a, x, z) + HeightAt(exp, b, x, z)
    decreases |b|
  {
    if b != [] {
      var b' := b[..|b| - 1];
      assert (a + b)[..|a + b| - 1] == a + b';
      HeightAppend(exp, a, b', x, z);
    } else {
      assert a + b == a;
    }
  }

  /** Taking record `j` out of the pool takes its bump out of the height. */
  lemma HeightRemoveAt(exp: real -> real, t: seq<Gaussian>, j: nat, x: real, z: real)
    requires NonZeroSigmas(t) && j < |t|
    ensures NonZeroSigmas(t[..j] + t[j + 1..])
    ensures HeightAt(exp, t, x, z) == HeightAt(exp, t[..j] + t[j + 1..], x, z) + Bump(exp, t[j], x, z)
  {
    var front, back := t[..j], t[j + 1..];
    assert t == front + ([t[j]] + back);
    assert HeightAt(exp, [t[j]], x, z) == Bump(exp, t[j], x, z) by {
      assert [t[j]][..0] == [];
    }
    HeightAppend(exp, front, [t[j]] + back, x, z);
    HeightAppend(exp, [t[j]], back, x, z);
    HeightAppend(exp, front, back, x, z);
  }

  /** Taking `g` out of both sides keeps two sequences with equal multisets equal as multisets. */
  lemma MultisetRemoveAt(s': seq<Gaussian>, g: Gaussian, t: seq<Gaussian>, j: nat)
    requires j < |t| && t[j] == g && multiset(s' + [g]) == multiset(t)
    ensures multiset(s') == multiset(t[..j] + t[j + 1..])
  {
    var rest := t[..j] + t[j + 1..];
    assert t == t[..j] + [g] + t[j + 1..];
    assert multiset(t) == multiset(t[..j]) + multiset{g} + multiset(t[j + 1..]);
    assert multiset(rest) == multiset(t[..j]) + multiset(t[j + 1..]);
    assert multiset(t) == multiset(rest) + multiset{g};
    assert multiset(s' + [g]) == multiset(s') + multiset{g};
    assert multiset(s') == multiset(t) - multiset{g};
    assert multiset(rest) == multiset(t) - multiset{g};
  }

  /** The height does not depend on the order in which the pool holds its records. */
  lemma {:induction false} HeightIgnoresOrder(exp: real -> real, s: seq<Gaussian>, t: seq<Gaussian>, x: real, z: real)
    requires NonZeroSigmas(s) && multiset(s) == multiset(t)
    ensures NonZeroSigmas(t)
    ensures HeightAt(exp, s, x, z) == HeightAt(exp, t, x, z)
    decreases |s|
  {
    assert NonZeroSigmas(t) by {
      forall g | g in t ensures g.sigma != 0.0 {
        assert g in multiset(t);
      }
    }
    if s != [] {
      var g, s' := s[|s| - 1], s[..|s| - 1];
      assert s == s' + [g];
      assert g in multiset(t);
      var j :| 0 <= j < |t| && t[j] == g;
      MultisetRemoveAt(s', g, t, j);
      HeightIgnoresOrder(exp, s', t[..j] + t[j + 1..], x, z);
      HeightRemoveAt(exp, t, j, x, z);
    }
  }

  /**
   * With a non-negative exponential and non-negative amplitudes every cell
   * is non-negative.
   */
  lemma {:induction false} HeightNonNegative(exp: real -> real, pool: seq<Gaussian>, x: real, z: real)
    requires forall t :: exp(t) >= 0.0
    requires forall g <- pool :: g.sigma != 0.0 && g.amplitude >= 0.0
    ensures HeightAt(exp, pool, x, z) >= 0.0
    decreases |pool|
  {
    if pool != [] {
      var g := pool[|pool| - 1];
      assert g in pool;
      HeightNonNegative(exp, pool[..|pool| - 1], x, z);
    }
  }

  /** An empty pool gives the all-zero table. */
  lemma EmptyPoolIsFlat(exp: real -> real)
    ensures HeightMap(exp, []) == ZeroMap()
  {
    forall z | 0 <= z < GridDepth ensures HeightMap(exp, [])[z] == ZeroMap()[z] {
    }
  }
}
