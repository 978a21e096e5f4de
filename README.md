# Quantum foam background: a verified model

The quantum-foam background draws a perspective grid whose vertices are
lifted by transient Gaussian bumps ("fluctuations"). Its state lives in one
`QuantumFoam` object:

- a pool of at most 8 fluctuation records. Each record has a centre, an
  amplitude, a maximum amplitude, a spread (`sigma`), a speed and a phase
  (0 = growing, 1 = fading);
- a `gridDepth x gridWidth` (25 x 50) height map, recomputed every frame
  from the pool.

Each frame does four things. It tries to spawn a record (chance 0.03). It
ticks every record back to front: growing ones gain `speed*maxAmplitude`,
are clamped at their maximum and switch to fading there; fading ones lose
`0.7*speed*maxAmplitude` and are spliced out once their amplitude is no
longer positive. It then rewrites every cell of the height map with the sum
of the records' kernels at that cell. Finally it draws the grid through a
perspective projection.

The model has a module of fixed sizes and five modules, one per component:

- `Grid` (`grid.dfy`): `gridWidth` 50, `gridDepth` 25 and `maxGaussians` 8,
  the constants the `QuantumFoam` constructor sets.
- `Fluctuation` (`fluctuation.dfy`): the record and the tick of one record.
  It proves the amplitude bounds, that the phase only goes one way, that
  the fixed fields never change, and that every record is gone within 850
  ticks.
- `Pool` (`pool.dfy`): the spawn attempt and one tick of the whole pool, as
  functions on sequences. It proves the capacity bound and that each record
  is ticked exactly once, with the survivors kept in order.
- `HeightField` (`heightfield.dfy`): the kernel and the height-map
  specification. It proves that heights add up over the pool, do not depend
  on pool order (a property of exact arithmetic: summing doubles in another
  order can change the last bits), and are non-negative when the
  exponential is.
- `Projection` (`projection.dfy`): the `project` function and its
  geometry: rows recede toward the horizon, columns converge toward the
  centre, and heights shrink with depth.
- `Foam` (`quantum_foam.dfy`): the `QuantumFoam` class. Its fields are
  updated in place by methods with loops. Each method's ensures give its
  new state in terms of the functions above. The constructor and
  `UpdateGaussians` also state the invariant `Valid()`: the pool is within
  capacity, every record is well formed, and the height map has the grid's
  shape.

All amplitudes and coordinates are `real`. Each `Math.random()` draw is a
method parameter in `[0, 1)`: `trial` for the spawn trial, and a `Draws`
record for the five field draws. The field formulas are the source's own,
so every record has `80 <= maxAmplitude < 140`, `2 <= sigma < 5` and
`0.005 <= speed < 0.015`. The kernel's `Math.exp` is the class constant
`exp`, given to the constructor; nothing is assumed about it.

Some versions of this effect behave differently; this script does as
follows, and so does the model:

- It has no static noise field.
- It does not clamp heights to be non-negative.
- `phase` becomes 1 at any amplitude that reaches or passes the maximum,
  and the amplitude is then set to exactly the maximum.
- A record spawned in a frame is ticked in that same frame, because the
  spawn attempt comes before the aging loop.
- Columns converge toward the horizontal centre but do not meet there:
  at the far edge (`z = gridDepth`) the spread factor is still 0.3, so
  only the centre column lands on `width/2`, whatever the comment at
  `assets/js/quantum-foam.js:149` says about converging at the horizon.

## Model

| member | source | states |
|---|---|---|
| `Fluctuation.NewGaussian` | assets/js/quantum-foam.js:88-96 | a spawned record starts growing at amplitude 0, with its centre inside the grid and its maximum, spread and speed in the ranges the random draws give |
| `Fluctuation.Tick` | assets/js/quantum-foam.js:110-123 | a growing record is never removed; its amplitude rises by `speed*maxAmplitude`, is clamped at `maxAmplitude`, and it turns fading exactly when the clamp is hit; a fading record stays fading, loses `0.7*speed*maxAmplitude`, and is removed exactly when that leaves it at or below 0; the fixed fields never change; the well-formedness invariant (amplitude in [0, max], positive while fading) is preserved |
| `Fluctuation.FadesOut` | assets/js/quantum-foam.js:117-123 | a fading record is removed within `n` ticks once `n` minimal fade steps (0.28 each) cover its amplitude |
| `Fluctuation.GrowsThenFades` | assets/js/quantum-foam.js:110-123 | a growing record that `n` minimal growth steps (0.4 each) bring to its maximum is removed within `n + 500` ticks |
| `Fluctuation.Lifespan` | assets/js/quantum-foam.js:86-124 | every well-formed record disappears within 850 ticks |
| `Pool.Spawned` | assets/js/quantum-foam.js:86-96 | the pool is unchanged exactly when it is at capacity; otherwise it gains exactly one record at the end, growing at amplitude 0, and the existing records are untouched; capacity and well-formedness are preserved |
| `Pool.TickPool` | assets/js/quantum-foam.js:107-124 | one pass of the aging loop never grows the pool and keeps every record well formed |
| `Pool.TickPoolFrom` | assets/js/quantum-foam.js:107-124 | from any index on, the ticked pool holds one ticked copy of each surviving record, in the original order, and a record survives exactly when its tick keeps it |
| `Pool.TickPoolSurvivors` | assets/js/quantum-foam.js:107-124 | the aging loop ticks each record exactly once; the survivors keep their relative order and their `x`, `z`, `sigma`, `maxAmplitude` and `speed`; exactly the records whose tick removes them are gone |
| `HeightField.HeightMap` | assets/js/quantum-foam.js:127-135 | the recomputed table has `gridDepth` rows of `gridWidth` cells |
| `HeightField.HeightAppend` | assets/js/quantum-foam.js:129-132 | the height of a pool split in two is the sum of the heights of the two parts |
| `HeightField.HeightRemoveAt` | assets/js/quantum-foam.js:129-132 | removing one record from the pool removes exactly its kernel from the height of every cell |
| `HeightField.HeightIgnoresOrder` | assets/js/quantum-foam.js:129-132 | two pools holding the same records in any order give the same height at every cell |
| `HeightField.Kernel` | assets/js/quantum-foam.js:77-82 | the source's `gaussian` expression with the exponential as the parameter `exp`; a record at amplitude 0 contributes 0, and a non-negative amplitude contributes a non-negative bump whenever the exponential is non-negative |
| `HeightField.HeightAt` | assets/js/quantum-foam.js:129-132 | the running sum `h` over the pool at one cell, in pool order; a pool whose records all have amplitude 0 gives height 0 |
| `HeightField.HeightNonNegative` | assets/js/quantum-foam.js:127-135 | with a non-negative exponential, a pool of non-negative amplitudes gives non-negative heights |
| `HeightField.EmptyPoolIsFlat` | assets/js/quantum-foam.js:127-135 | an empty pool gives the all-zero table that `initHeightMap` builds |
| `Projection.Project` | assets/js/quantum-foam.js:139-158 | the depth ratio lies in [0, 1) for every row `0 <= z < gridDepth` |
| `Projection.NearRowOnBaseline` | assets/js/quantum-foam.js:139-147 | row 0 at height 0 lands at 95% of the screen height |
| `Projection.RowY` | assets/js/quantum-foam.js:140-147 | the pre-height row position `y`; row 0 sits on the baseline at 95% of the screen height and the row at `z = gridDepth` on the horizon at 15% |
| `Projection.RowsRecede` | assets/js/quantum-foam.js:140-147 | on a screen of positive height, the pre-height row position strictly decreases as `z` grows, and stays above the horizon inside the grid |
| `Projection.CentreColumnStaysCentred` | assets/js/quantum-foam.js:150-152 | the column `x = gridWidth/2` projects to `width/2` at every depth and height |
| `Projection.ColumnsConverge` | assets/js/quantum-foam.js:149-152 | within the grid, a column's offset from the horizontal centre keeps its sign and never grows as depth grows |
| `Projection.FarEdgeStillSpread` | assets/js/quantum-foam.js:149-152 | at `z = gridDepth` the first column lands at `width/2 - 7.5*cellSize`, so with cells of positive width it is not at the centre |
| `Projection.PeaksShrink` | assets/js/quantum-foam.js:154-156 | within the grid, a non-negative height lifts a point above its row by no more at a greater depth |
| `Projection.HeightRaises` | assets/js/quantum-foam.js:155-156 | within the grid's depth a greater height is never drawn lower on the screen |
| `Foam.QuantumFoam.constructor` | assets/js/quantum-foam.js:8-26 | the new object is valid, with an empty pool, an all-zero height map and the window size taken |
| `Foam.QuantumFoam.Resize` | assets/js/quantum-foam.js:57-63 | width and height are the window's, `cellSize = width / gridWidth`, and the pool and the height map are unchanged |
| `Foam.QuantumFoam.InitHeightMap` | assets/js/quantum-foam.js:65-74 | the nested loops leave exactly `gridDepth` rows of `gridWidth` zeros and change nothing else |
| `Foam.QuantumFoam.SpawnGaussian` | assets/js/quantum-foam.js:85-97 | the pool becomes `Spawned` of the old pool; the height map and view are unchanged |
| `Foam.QuantumFoam.TickGaussians` | assets/js/quantum-foam.js:106-124 | the back-to-front loop, which updates in place and splices, leaves exactly the front-to-back tick of the old pool; the height map and view are unchanged |
| `Foam.QuantumFoam.RecomputeHeights` | assets/js/quantum-foam.js:126-135 | overwriting every cell with the running sum over the pool leaves the table equal to the height-map specification; the pool and view are unchanged |
| `Foam.QuantumFoam.UpdateGaussians` | assets/js/quantum-foam.js:100-136 | one frame: the pool is the tick of the pool after a spawn attempt taken when `trial < 0.03`; the height map is that pool's; the invariant (capacity 8, well-formed records, grid shape) is kept |

## Left out

- Canvas and DOM work is not modelled: creating and styling the canvas in `init`, the canvas size writes in `resize`, all of `draw`, and the canvas removal in `destroy`. These are rendering side effects with no state of the model behind them.
- The animation driver is not modelled: `animate`'s `requestAnimationFrame` self-scheduling, `cancelAnimationFrame`, the resize listener and the `window.quantumFoam` global. A caller calls `UpdateGaussians` once per frame. The constructor therefore stops before the first frame that `init` runs.
- `Math.random()` is not modelled: its results are parameters in `[0, 1)`.
- `Math.exp` is the abstract parameter `exp`, so nothing is stated about the kernel's numeric shape (its peak at distance 0, its fall-off with distance).
- IEEE-754 rounding is not modelled: all arithmetic is over `real`.
- `gridSize` (40) is set by the constructor and never read, so it is not modelled.
- The records are values in a sequence, not shared objects. The source never hands a record out, so no aliasing is lost.
