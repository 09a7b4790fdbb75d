/** A value that JavaScript may leave undefined, or that Java may leave null. */
module Optional {
  datatype Option<T> = None | Some(value: T)

  function GetOr<T>(o: Option<T>, default: T): T
  {
    match o
    case Some(v) => v
    case None => default
  }
}
