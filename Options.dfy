/** The conventional optional value: `None` stands for JavaScript's
    `undefined`/`null`, `Some(v)` for a present value. */
module Options {

  datatype Option<+T> = None | Some(value: T) {

    /** The value if present, otherwise `default` (a defaulted parameter). */
    function GetOr(default: T): (v: T)
      ensures Some? ==> v == value
      ensures None? ==> v == default
    {
      match this
      case Some(x) => x
      case None => default
    }
  }
}
