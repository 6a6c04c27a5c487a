/** Optional values: the model's stand-in for JavaScript's `null`/`undefined`. */
module Wrappers {

  datatype Option<+T> = None | Some(value: T) {

    /** The value, or `default` when absent (JavaScript's `x ?? default`). */
    function GetOr(default: T): T {
      match this
      case Some(v) => v
      case None => default
    }
  }

  /** JavaScript truthiness of an optional string. */
  predicate Truthy(o: Option<string>) { o.Some? && |o.value| > 0 }

  /** JavaScript truthiness of an optional number. */
  predicate TruthyNum(o: Option<real>) { o.Some? && o.value != 0.0 }

  /** JavaScript truthiness of an optional integer. */
  predicate TruthyInt(o: Option<int>) { o.Some? && o.value != 0 }
}
