/** The values that templates, payloads and schemas are made of, and the usual result types. */
module Values {

  datatype Option<+T> = None | Some(value: T)

  datatype Result<+T, +E> = Ok(value: T) | Err(error: E)

  const INT64_LIMIT: int := 0x8000_0000_0000_0000

  /** Go's `int` and `int64`. */
  type int64 = x: int | -INT64_LIMIT <= x < INT64_LIMIT

  /**
    What a Go `any` holds here: decoded JSON (numbers are floats) or YAML (which also has
    integers), and the 64-bit integers that type conversion produces.
   */
  datatype Value =
    | Null
    | Bool(b: bool)
    | Int(i: int64)
    | Int64(n: int64)
    | Float(r: real)
    | Str(s: string)
    | Arr(elems: seq<Value>)
    | Obj(fields: map<string, Value>)

  /** `strings.HasPrefix(s[i:], p)`. */
  predicate StartsAt(s: string, i: nat, p: string) {
    i + |p| <= |s| && s[i..i + |p|] == p
  }

  /** `strings.IndexByte(s[from:], c)`, as an absolute position. */
  function IndexOf(s: string, c: char, from: nat): (r: Option<nat>)
    requires from <= |s|
    ensures r.Some? ==> from <= r.value < |s| && s[r.value] == c && forall k :: from <= k < r.value ==> s[k] != c
    ensures r.None? ==> forall k :: from <= k < |s| ==> s[k] != c
    decreases |s| - from
  {
    if from == |s| then None else if s[from] == c then Some(from) else IndexOf(s, c, from + 1)
  }
}
