/**
 * The bounded fluctuation pool as a value: what one spawn attempt and one
 * pass of the update loop make of a sequence of records.
 */
module Pool {
  import opened Options
  import opened Grid
  import opened Fluctuation

  /** Every record of `pool` is well formed. */
  predicate AllWellFormed(pool: seq<Gaussian>) {
    forall g <- pool :: WellFormed(g)
  }

  /** The pool after `spawnGaussian` with the draws `d`. */
  function Spawned(pool: seq<Gaussian>, d: Draws): (r: seq<Gaussian>)
    requires UnitDraws(d)
    ensures r == pool <==> |pool| >= MaxGaussians
    ensures |pool| < MaxGaussians ==>
              && |r| == |pool| + 1
              && r[..|pool|] == pool
              && r[|pool|].amplitude == 0.0
              && r[|pool|].phase == Growing
    ensures |pool| <= MaxGaussians ==> |r| <= MaxGaussians
    ensures AllWellFormed(pool) ==> AllWellFormed(r)
  {
    if |pool| >= MaxGaussians then pool else pool + [NewGaussian(d)]
  }

  /** The records a tick leaves in place of one record. */
  function Kept(o: Option<Gaussian>): seq<Gaussian> {
    match o
    case None => []
    case Some(g) => [g]
  }

  /**
   * The pool after one pass of the update loop, stated front to back: each
   * record is ticked once, in order, and the removed ones leave no trace.
   */
  function TickPool(pool: seq<Gaussian>): (r: seq<Gaussian>)
    ensures |r| <= |pool|
    ensures AllWellFormed(pool) ==> AllWellFormed(r)
  {
    if pool == [] then [] else Kept(Tick(pool[0])) + TickPool(pool[1..])
  }

  /**
   * The indices, from `i` on, of the records of `pool` that survive a tick:
   * an independent description of which records the loop keeps.
   */
  function SurvivorIndices(pool: seq<Gaussian>, i: nat): seq<nat>
    requires i <= |pool|
    decreases |pool| - i
  {
    if i == |pool| then []
    else (if Tick(pool[i]).Some? then [i] else []) + SurvivorIndices(pool, i + 1)
  }

  /**
   * `TickPool(pool[i..])` holds exactly one ticked copy of each surviving
   * record from index `i` on, in the order of the records in `pool`.
   */
  lemma {:induction false} TickPoolFrom(pool: seq<Gaussian>, i: nat)
    requires i <= |pool|
    ensures var r, idx := TickPool(pool[i..]), SurvivorIndices(pool, i);
            && |r| == |idx|
            && (forall k :: 0 <= k < |idx| ==> i <= idx[k] < |pool| && Tick(pool[idx[k]]) == Some(r[k]))
            && (forall k, l :: 0 <= k < l < |idx| ==> idx[k] < idx[l])
            && (forall j :: i <= j < |pool| ==> (j in idx <==> Tick(pool[j]).Some?))
    decreases |pool| - i
  {
    if i < |pool| {
      TickPoolFrom(pool, i + 1);
      assert pool[i..][1..] == pool[i + 1..];
    }
  }

  /**
   * One pass of the update loop ticks every record exactly once: the
   * survivors are the records whose tick keeps them, in their original
   * relative order, each with its fixed fields unchanged.
   */
  lemma TickPoolSurvivors(pool: seq<Gaussian>)
    ensures var r, idx := TickPool(pool), SurvivorIndices(pool, 0);
            && |r| == |idx|
            && (forall k :: 0 <= k < |idx| ==> idx[k] < |pool| && Tick(pool[idx[k]]) == Some(r[k]))
            && (forall k :: 0 <= k < |idx| ==> SameShape(pool[idx[k]], r[k]))
            && (forall k, l :: 0 <= k < l < |idx| ==> idx[k] < idx[l])
            && (forall j :: 0 <= j < |pool| ==> (j in idx <==> Tick(pool[j]).Some?))
  {
    TickPoolFrom(pool, 0);
    assert pool[0..] == pool;
  }
}
