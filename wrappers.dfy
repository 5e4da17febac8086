/** The optional value used for "the source leaves this unassigned" and
    "this opcode is not implemented". */
module Wrappers {
  datatype Option<+T> = None | Some(value: T) {
    function GetOr(default: T): T {
      match this
      case Some(v) => v
      case None => default
    }
  }
}
