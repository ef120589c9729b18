/** Failure-carrying values shared by every module of the model. A PHP
    exception that a caller may catch becomes an `Err` carrying the
    exception's message; a nullable return becomes an `Option`. */
module Base {

  datatype Option<+T> = None | Some(value: T) {
    function GetOr(default: T): T {
      match this
      case Some(v) => v
      case None => default
    }
  }

  datatype Result<+T> = Ok(value: T) | Err(error: string)
}
