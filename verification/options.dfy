/** Optional values and the Python notion of truthiness used by the dashboard code. */
module Options {

  /** `None` stands for Python's `None`. */
  datatype Option<T> = None | Some(value: T)

  /** `bool(x)` for an optional float: `None` and `0.0` are false. */
  predicate Truthy(x: Option<real>)
  {
    x.Some? && x.value != 0.0
  }

  /** `bool(s)` for an optional string: `None` and `""` are false. */
  predicate TruthyText(s: Option<string>)
  {
    s.Some? && s.value != ""
  }

  /** Python's `(x or 0) > 0` for an optional float. */
  predicate Positive(x: Option<real>)
  {
    x.Some? && x.value > 0.0
  }
}
