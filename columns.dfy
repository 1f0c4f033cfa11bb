/** Column identities shared by the measurement sink and the PLONK layout. */
module Columns {

  /** The three column classes (halo2's `Any`). */
  datatype Any = Instance | Advice | Fixed

  /** A column: its class, and its index among the columns of that class. */
  datatype Column = Column(kind: Any, index: nat)
}
