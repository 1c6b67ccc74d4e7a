/** Application-wide constants. */
module AppConstants {
  /** How many entries each live list keeps, unless the caller passes another bound. */
  const MaxBlocks: nat := 20
}
