/** Limits that the log and the file system share (kernel/param.h). */
module Params {
  /** The most blocks that one file-system operation may log. */
  const MAXOPBLOCKS: nat := 10
}
