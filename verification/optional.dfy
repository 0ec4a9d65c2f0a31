/** The optional values of the C++ source (`std::optional`). */
module Optional {

  datatype Option<+T> = None | Some(value: T) {

    /** `std::optional::value_or`. */
    function ValueOr(default: T): (r: T)
      ensures Some? ==> r == value
      ensures None? ==> r == default
    {
      match this
      case Some(v) => v
      case None => default
    }
  }
}
