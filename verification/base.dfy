/** Values shared by every part of the dashboard model: optional values
    (JavaScript's `null` / `undefined`) and the truthiness rule JavaScript
    applies to strings in `if (x)` and `x || y`. */
module Base {

  /** An optional value; `None` stands for `null` or `undefined`. */
  datatype Option<+T> = None | Some(value: T)

  /** JavaScript truthiness of a possibly-missing string: `null`,
      `undefined` and `''` are falsy, every other string is truthy. */
  predicate Truthy(s: Option<string>) {
    s.Some? && s.value != ""
  }

  /** JavaScript `a || b` where `a` is a possibly-missing string and `b`
      a string: the first operand when it is truthy, else the second. */
  function OrElse(a: Option<string>, b: string): string
  {
    if Truthy(a) then a.value else b
  }

  /** JavaScript truthiness of a possibly-missing number: `undefined` and
      `0` are falsy (NaN is not modelled). */
  predicate TruthyNumber(n: Option<int>) {
    n.Some? && n.value != 0
  }
}
