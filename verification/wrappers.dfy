/** Optional values: a missing dictionary key is `None`. */
module Wrappers {

  datatype Option<+T> = None | Some(value: T) {

    /** `dict.get(key, default)`: the stored value, or `default` when the key is missing. */
    function GetOr(default: T): T
    {
      match this
      case Some(v) => v
      case None => default
    }
  }

  /** Python truthiness of an optional string: present and not empty. */
  predicate Truthy(o: Option<string>)
  {
    o.Some? && o.value != ""
  }
}
