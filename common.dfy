/** Python's "a value or None", and the truthiness rules the pipeline relies on. */
module Common {

  datatype Option<+T> = None | Some(value: T)

  /** `bool(x)` for an optional string: None and "" are falsy, every other string is truthy. */
  predicate Truthy(s: Option<string>) {
    s.Some? && s.value != ""
  }

  /** `x or y` for optional strings: x when x is truthy, otherwise y. */
  function OrElse(x: Option<string>, y: Option<string>): (r: Option<string>)
    ensures Truthy(r) <==> Truthy(x) || Truthy(y)
    ensures Truthy(x) ==> r == x
  {
    if Truthy(x) then x else y
  }

  /** `d.get(k)` on a dict whose values may themselves be None. */
  function Get(d: map<string, Option<string>>, k: string): Option<string> {
    if k in d then d[k] else None
  }
}
