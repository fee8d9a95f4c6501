/** Optional values: the model's stand-in for a Python field that may be `None`. */
module Wrappers {

  datatype Option<+T> = None | Some(value: T)

  /**
   * An optional name argument that is truthy in Python: given and not
   * empty. Both `None` and the empty string count as absent.
   */
  predicate Given(name: Option<string>)
  {
    name.Some? && name.value != []
  }
}
