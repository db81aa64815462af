/** Scalar state values, flat records and the parsed query string shared by both hooks. */
module Values {

  datatype Option<T> = None | Some(value: T)

  /** A scalar JSON value; nested arrays and objects are not modelled. */
  datatype Value = Str(s: string) | Num(n: int) | Bool(b: bool) | Null

  /** A state object: field name to scalar value. */
  type Record = map<string, Value>

  /** The search part of a URL after parsing: parameter name to raw string. */
  type Query = map<string, string>

  function DigitChar(d: nat): char
    requires d < 10
  {
    "0123456789"[d]
  }

  function NatToString(n: nat): string
    decreases n
  {
    if n < 10 then [DigitChar(n)] else NatToString(n / 10) + [DigitChar(n % 10)]
  }

  /** The string a scalar becomes once it is written into the query string and read back. */
  function Render(v: Value): string
  {
    match v
    case Str(s) => s
    case Num(n) => if n < 0 then "-" + NatToString(-n) else NatToString(n)
    case Bool(b) => if b then "true" else "false"
    case Null => ""
  }

  /** The raw query parameters seen as string-valued fields. */
  function Lift(q: Query): Record
  {
    map k | k in q :: Str(q[k])
  }

  /** The value of parameter `name`, absent when the query does not carry it. */
  function Lookup(q: Query, name: string): Option<string>
  {
    if name in q then Some(q[name]) else None
  }
}
