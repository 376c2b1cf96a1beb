/** An optional value, standing in for Java's nullable references. */
module Optional {

  datatype Option<+T> = None | Some(value: T)

  /** The values an option carries, as a sequence of length zero or one. */
  function Values<T>(o: Option<T>): seq<T>
  {
    match o
    case None => []
    case Some(v) => [v]
  }
}
