/**
 * One Gaussian fluctuation of the quantum-foam background: a transient
 * radial bump that is spawned with amplitude 0, grows until it reaches its
 * own maximum amplitude, then fades and is dropped once its amplitude is
 * no longer positive.
 */
module Fluctuation {
  import opened Options
  import opened Grid

  /** Fraction of the growth step that a fading record loses per tick. */
  const FadeFactor: real := 0.7

  /** The source's `phase` field: 0 is growing, 1 is fading. */
  datatype Phase = Growing | Fading

  /** A record of the pool; `x` and `z` are its centre in grid coordinates. */
  datatype Gaussian = Gaussian(
    x: real,
    z: real,
    amplitude: real,
    maxAmplitude: real,
    sigma: real,
    phase: Phase,
    speed: real)

  /** The five `Math.random()` results that fill a new record's fields. */
  datatype Draws = Draws(rx: real, rz: real, rAmplitude: real, rSigma: real, rSpeed: real)

  /** Each draw lies in [0, 1), as `Math.random()` promises. */
  predicate UnitDraws(d: Draws) {
    && 0.0 <= d.rx < 1.0
    && 0.0 <= d.rz < 1.0
    && 0.0 <= d.rAmplitude < 1.0
    && 0.0 <= d.rSigma < 1.0
    && 0.0 <= d.rSpeed < 1.0
  }

  /**
   * What every record of the pool satisfies: the ranges its spawn draws
   * give its fixed fields, and an amplitude that lies in [0, maxAmplitude),
   * strictly below the maximum while growing and strictly positive while
   * fading.
   */
  predicate WellFormed(g: Gaussian) {
    && 0.0 <= g.x < GridWidth as real
    && 0.0 <= g.z < GridDepth as real
    && 80.0 <= g.maxAmplitude < 140.0
    && 2.0 <= g.sigma < 5.0
    && 0.005 <= g.speed < 0.015
    && match g.phase
       case Growing => 0.0 <= g.amplitude < g.maxAmplitude
       case Fading => 0.0 < g.amplitude <= g.maxAmplitude
  }

  /** The fields a tick never touches are equal in `a` and `b`. */
  predicate SameShape(a: Gaussian, b: Gaussian) {
    a.x == b.x && a.z == b.z && a.sigma == b.sigma && a.maxAmplitude == b.maxAmplitude && a.speed == b.speed
  }

  /** The record `spawnGaussian` pushes for the draws `d`. */
  function NewGaussian(d: Draws): (g: Gaussian)
    requires UnitDraws(d)
    ensures WellFormed(g)
    ensures g.amplitude == 0.0 && g.phase == Growing
  {
    Gaussian(
      x := d.rx * GridWidth as real,
      z := d.rz * GridDepth as real,
      amplitude := 0.0,
      maxAmplitude := 80.0 + d.rAmplitude * 60.0,
      sigma := 2.0 + d.rSigma * 3.0,
      phase := Growing,
      speed := 0.005 + d.rSpeed * 0.01)
  }

  /** Amplitude a growing record gains per tick. */
  function GrowStep(g: Gaussian): real {
    g.speed * g.maxAmplitude
  }

  /** Amplitude a fading record loses per tick. */
  function FadeStep(g: Gaussian): real {
    g.speed * g.maxAmplitude * FadeFactor
  }

  /** A well-formed record grows by at least 0.4 and fades by at least 0.28 per tick. */
  lemma StepsAreBounded(g: Gaussian)
    requires WellFormed(g)
    ensures GrowStep(g) >= 0.4
    ensures FadeStep(g) >= 0.28
  {
  }

  /**
   * One tick of a record in the update loop; `None` when the loop splices
   * the record out.
   */
  function Tick(g: Gaussian): (r: Option<Gaussian>)
    ensures r.Some? ==> SameShape(g, r.value)
    // growth: never removed, clamped at the maximum, flips once it is reached
    ensures g.phase == Growing ==>
              && r.Some?
              && (r.value.phase == Fading <==> g.amplitude + GrowStep(g) >= g.maxAmplitude)
              && r.value.amplitude == if g.amplitude + GrowStep(g) >= g.maxAmplitude then g.maxAmplitude
                                      else g.amplitude + GrowStep(g)
    // fading: one-way phase, removed exactly when the amplitude is used up
    ensures g.phase == Fading ==>
              && (r.None? <==> g.amplitude - FadeStep(g) <= 0.0)
              && (r.Some? ==> r.value.phase == Fading && r.value.amplitude == g.amplitude - FadeStep(g))
    ensures WellFormed(g) && r.Some? ==> WellFormed(r.value)
  {
    match g.phase
    case Growing =>
      var amplitude := g.amplitude + GrowStep(g);
      if amplitude >= g.maxAmplitude then
        Some(g.(amplitude := g.maxAmplitude, phase := Fading))
      else
        assert WellFormed(g) ==> GrowStep(g) >= 0.4 by {
          if WellFormed(g) { StepsAreBounded(g); }
        }
        Some(g.(amplitude := amplitude))
    case Fading =>
      var amplitude := g.amplitude - FadeStep(g);
      if amplitude <= 0.0 then None
      else
        assert WellFormed(g) ==> FadeStep(g) >= 0.28 by {
          if WellFormed(g) { StepsAreBounded(g); }
        }
        Some(g.(amplitude := amplitude))
  }

  /** The record after `n` ticks, or `None` once it has been removed. */
  function Ticks(g: Gaussian, n: nat): Option<Gaussian>
    decreases n
  {
    if n == 0 then Some(g)
    else match Tick(g)
      case None => None
      case Some(g') => Ticks(g', n - 1)
  }

  /** A fading record whose amplitude `n` minimal fade steps use up is gone after `n` ticks. */
  lemma {:induction false} FadesOut(g: Gaussian, n: nat)
    requires WellFormed(g) && g.phase == Fading
    requires n as real * 0.28 >= g.amplitude
    ensures Ticks(g, n) == None
    decreases n
  {
    StepsAreBounded(g);
    match Tick(g)
    case None =>
    case Some(g') =>
      FadesOut(g', n - 1);
  }

  /**
   * A growing record that `n` minimal growth steps bring to its maximum has
   * gone through its fading phase and been removed `n + 500` ticks later.
   */
  lemma {:induction false} GrowsThenFades(g: Gaussian, n: nat)
    requires WellFormed(g) && g.phase == Growing
    requires n as real * 0.4 >= g.maxAmplitude - g.amplitude
    ensures Ticks(g, n + 500) == None
    decreases n
  {
    StepsAreBounded(g);
    var g' := Tick(g).value;
    if g'.phase == Fading {
      FadesOut(g', n + 499);
    } else {
      GrowsThenFades(g', n - 1);
      assert n - 1 + 500 == n + 499;
    }
  }

  /** Every record of the pool disappears within 850 ticks. */
  lemma Lifespan(g: Gaussian)
    requires WellFormed(g)
    ensures Ticks(g, 850) == None
  {
    if g.phase == Growing {
      GrowsThenFades(g, 350);
    } else {
      FadesOut(g, 850);
    }
  }
}
