/** The few JavaScript semantics the frontend code depends on: truthiness of an optional
    string and the strict comparison of an error's `code` field with a number. */
module Js {
  import opened Wrappers

  /** An optional string used as a condition: `null`/`undefined` and `""` are falsy. */
  predicate Truthy(o: Option<string>) {
    o.Some? && o.value != ""
  }

  /** The `code` field of a thrown error: absent, a number, or a string (`code?: number | string`). */
  datatype JsCode = NoCode | NumCode(n: int) | StrCode(text: string)

  /** `code === n` for a number `n`: only a numeric code can be strictly equal to it. */
  predicate CodeIs(code: JsCode, n: int) {
    code.NumCode? && code.n == n
  }

  /** `a || b` over optional strings: `a` when it is truthy, `b` otherwise. */
  function OrElse(a: Option<string>, b: string): (r: string)
    ensures Truthy(a) ==> r == a.value
    ensures !Truthy(a) ==> r == b
  {
    if Truthy(a) then a.value else b
  }

  /** `s.substring(0, n)`: the first `n` characters, or all of `s` when it is shorter. */
  function Substring(s: string, n: nat): (r: string)
    ensures |r| <= n && |r| <= |s| && r == s[..|r|]
    ensures |s| >= n ==> |r| == n
  {
    if |s| <= n then s else s[..n]
  }
}
