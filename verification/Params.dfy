/** Types and constants that the parts of the system share (param.h, riscv.h). */
module Params {
  type Byte = b: int | 0 <= b < 256

  const PGSIZE: nat := 4096

  /** The size of a disk block. */
  const BSIZE: nat := 1024

  /** The most blocks that an operation is meant to log, and the size of the log. */
  const MAXOPBLOCKS: nat := 10
  const LOGSIZE: nat := 3 * MAXOPBLOCKS
}
