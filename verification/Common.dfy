/** Values that may be missing, and operations that may fail. */
module Common {

  datatype Option<+T> = None | Some(value: T) {
    function GetOr(other: T): T {
      if Some? then value else other
    }
  }

  datatype Result<+T> = Ok(value: T) | Err(error: string)
}
