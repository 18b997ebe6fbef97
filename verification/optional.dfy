/** Optional values: a key that is absent from a JavaScript object, an
    `undefined` optional field, or the `undefined` that `Array.prototype.find`
    returns when nothing matches. */
module Optional {

  datatype Option<+T> = None | Some(value: T) {

    /** The carried value, or `default` when there is none (the `??` idiom). */
    function GetOr(default: T): T {
      match this
      case Some(v) => v
      case None => default
    }
  }

  /** Success or an error value, for operations that throw in the JavaScript code. */
  datatype Result<+T, +E> = Success(value: T) | Failure(error: E)
}
