/** The two pieces of JavaScript semantics the hotel code leans on:
    `Object.keys` of an array, and the falsiness of a converted number. */
module JsRuntime {
  import opened Records

  /** The decimal digit for `d`. */
  function DecimalDigit(d: nat): (c: char)
    requires d < 10
    ensures '0' <= c <= '9'
  {
    (48 + d) as char
  }

  /** The canonical decimal spelling of an array index, the key under which
      an array holds its element. */
  function IndexKey(i: nat): (k: string)
    ensures |k| > 0
    ensures forall j :: 0 <= j < |k| ==> '0' <= k[j] <= '9'
    decreases i
  {
    if i < 10 then [DecimalDigit(i)] else IndexKey(i / 10) + [DecimalDigit(i % 10)]
  }

  /** `Object.keys` of a dense array: one key per element, the indices in
      ascending order. */
  function ArrayKeys<T>(a: seq<T>): (keys: seq<string>)
    ensures |keys| == |a|
    ensures forall i :: 0 <= i < |keys| ==> keys[i] == IndexKey(i)
  {
    if a == [] then [] else ArrayKeys(a[..|a| - 1]) + [IndexKey(|a| - 1)]
  }

  /** Whether the result of `Number(...)` is falsy: NaN (None) and zero are,
      every other integer is not. */
  predicate Falsy(n: Option<int>)
  {
    n.None? || n.value == 0
  }
}
