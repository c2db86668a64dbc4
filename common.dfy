/** Shared vocabulary of the model: optional values, the dynamically typed
    values that Go code receives as `interface{}`, and Go's truncating
    integer division. */
module Common {

  datatype Option<T> = None | Some(value: T)

  /** A Go value seen through `interface{}` / `any`, one constructor per
      dynamic type the exporter and the processor distinguish. Integers keep
      their mathematical value; floats are modelled as reals. */
  datatype GoValue =
    | GoInt(i: int)
    | GoInt32(i: int)
    | GoInt64(i: int)
    | GoUint64(i: int)
    | GoFloat32(r: real)
    | GoFloat64(r: real)
    | GoBool(b: bool)
    | GoString(s: string)
    | GoNil
    | GoOther

  /** Go map lookup: a missing key yields the zero value of `any`, nil. */
  function Lookup(m: map<string, GoValue>, k: string): (v: GoValue)
    ensures k !in m ==> v == GoNil
    ensures k in m ==> v == m[k]
  {
    if k in m then m[k] else GoNil
  }

  /** `convert` / `convert2`: only float64, int64 and uint64 are accepted. */
  function Convert(v: GoValue): (r: Option<real>)
    ensures r.Some? <==> (v.GoFloat64? || v.GoInt64? || v.GoUint64?)
    ensures v.GoFloat64? ==> r == Some(v.r)
    ensures (v.GoInt64? || v.GoUint64?) ==> r == Some(v.i as real)
  {
    match v
    case GoFloat64(f) => Some(f)
    case GoInt64(i) => Some(i as real)
    case GoUint64(i) => Some(i as real)
    case _ => None
  }

  /** Go's `/` on integers truncates toward zero, unlike Dafny's Euclidean `/`;
      a zero divisor is a run-time panic in Go and is left to the caller. */
  function TruncDiv(a: int, b: int): (q: int)
    requires b != 0
    decreases if b < 0 then 1 else 0
    ensures a >= 0 && b > 0 ==> q == a / b
    ensures a >= 0 ==> q * b <= a < q * b + Abs(b)
    ensures a < 0 ==> q * b >= a > q * b - Abs(b)
  {
    if b < 0 then -TruncDiv(a, -b)
    else if a >= 0 then a / b
    else -((-a) / b)
  }

  function Abs(x: int): nat { if x < 0 then -x else x }

  function Min(a: int, b: int): int { if a <= b then a else b }
}
