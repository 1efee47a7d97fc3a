/** What the modules share of result shapes and of pwrapis/inc/common.h. */
module Outcomes {

  /** No entry, slot or task. */
  const INVALID_INDEX := -1

  datatype Option<+T> = None | Some(value: T)
}
