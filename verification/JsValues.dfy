/** Values as the TypeScript sources see them: optional values, and the `||` operator on
    numbers, for which both `undefined` and `0` count as absent. */
module JsValues {

  datatype Option<+T> = None | Some(value: T) {
    /** The `??` operator. */
    function GetOr(default: T): T {
      match this
      case Some(v) => v
      case None => default
    }
  }

  type Id = string

  predicate Truthy(x: Option<int>) {
    x.Some? && x.value != 0
  }

  /** `x || y` for an optional number. */
  function Or(x: Option<int>, y: int): int {
    if Truthy(x) then x.value else y
  }

  /** `x || y` for a number. */
  function OrNum(x: int, y: int): int {
    if x != 0 then x else y
  }

  function Max(a: int, b: int): int {
    if a < b then b else a
  }

  function Min(a: int, b: int): int {
    if a < b then a else b
  }

  /** Reading a `Record<string, number>` with `?? 0` (or `|| 0`, which is the same on numbers). */
  function Lookup<K>(m: map<K, int>, k: K): int {
    if k in m then m[k] else 0
  }
}
