/** The option type used for absent hash fields, absent clips and refused steps. */
module Wrappers {
  datatype Option<+T> = None | Some(value: T)
  {
    function GetOr(default: T): T {
      match this
      case Some(v) => v
      case None => default
    }
  }
}
