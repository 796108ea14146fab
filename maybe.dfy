/** Optional values: the model's rendering of C# `null` / JavaScript `null` and `undefined`. */
module Maybe {

  datatype Option<+T> = None | Some(value: T) {

    /** The carried value, or `default` when there is none. */
    function GetOr(default: T): T {
      match this
      case Some(v) => v
      case None => default
    }
  }
}
