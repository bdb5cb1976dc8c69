/** The optional value used wherever the source returns `null` or reads a missing field. */
module Options {

  datatype Option<+T> = None | Some(value: T) {

    /** The carried value, or `default` when there is none (the `x || default` idiom). */
    function GetOr(default: T): T {
      if Some? then value else default
    }
  }
}
