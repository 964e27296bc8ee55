/** Optional values: the model's stand-in for `undefined`, `null` and a failed `find`. */
module Wrappers {

  datatype Option<+T> = None | Some(value: T)

  /** `o || ""` for an optional string field: a missing value reads as the empty string. */
  function OrEmpty(o: Option<string>): string
  {
    match o
    case Some(v) => v
    case None => ""
  }
}
