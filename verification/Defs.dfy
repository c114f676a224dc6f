/** defs.h: the constants shared by all stages. */
module Defs {
  const UNDEFINED: int := -1

  const MAXSHORT: nat := 0x7FFFFFFF
}
