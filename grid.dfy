/** The fixed sizes a `QuantumFoam` object is built with. */
module Grid {
  /** Columns of the perspective grid (`gridWidth`). */
  const GridWidth: nat := 50
  /** Rows of the perspective grid going into the distance (`gridDepth`). */
  const GridDepth: nat := 25
  /** Capacity of the fluctuation pool (`maxGaussians`). */
  const MaxGaussians: nat := 8
}
