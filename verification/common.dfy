/** Value wrappers shared by every module of the model. */
module Common {

  /** A value that may be absent (`undefined`, `null` or `NaN` in the source). */
  datatype Option<+T> = None | Some(value: T) {
    function GetOr(default: T): T {
      match this
      case Some(v) => v
      case None => default
    }
  }

  /**
   * The outcome of a source routine that either returns a value or throws
   * (every throw in the modelled code is a TypeError from reading a property
   * of `undefined`).
   */
  datatype Outcome<+T> = Returns(value: T) | Throws
}
