/** The slice of Python's runtime that the experience cache relies on:
    values, their truthiness, `type(x).__name__`, `str(x)`, and raised exceptions. */
module Python {

  /** A Python value as the cache layer sees it. Any value that is not None, a
      bool, an int or a str is summarised by what the three built-ins the layer
      applies to it give: `type(x).__name__`, `bool(x)` and `str(x)`, the last
      of which may raise. */
  datatype Value =
    | NoneV
    | BoolV(b: bool)
    | IntV(i: int)
    | StrV(s: string)
    | ObjV(cls: string, truth: bool, text: Result<string>)

  /** Positional and keyword arguments of one call. */
  type Args = seq<Value>
  type Kwargs = map<string, Value>

  /** A raised exception: its class name and message. */
  datatype Exc = Exc(kind: string, msg: string)

  /** What a Python call does: return a value or raise. */
  datatype Result<T> = Ok(value: T) | Raise(exc: Exc)

  datatype Option<T> = None | Some(value: T)

  /** A step that returns nothing useful, or raises. */
  datatype Outcome = Pass | Fail(exc: Exc)

  /** Python's `bool(v)`. */
  predicate Truthy(v: Value)
  {
    match v
    case NoneV => false
    case BoolV(b) => b
    case IntV(i) => i != 0
    case StrV(s) => s != ""
    case ObjV(_, truth, _) => truth
  }

  /** Python's `type(v).__name__`. */
  function TypeName(v: Value): string
  {
    match v
    case NoneV => "NoneType"
    case BoolV(_) => "bool"
    case IntV(_) => "int"
    case StrV(_) => "str"
    case ObjV(cls, _, _) => cls
  }

  /** CPython's default `sys.get_int_max_str_digits()`: `str` of an int whose
      decimal text, without its sign, has more digits raises. */
  const IntMaxStrDigits: nat := 4300

  const IntStrLimitError := Exc("ValueError",
    "Exceeds the limit (4300 digits) for integer string conversion; use sys.set_int_max_str_digits() to increase the limit")

  /** Python's `str(v)`. */
  function Str(v: Value): Result<string>
  {
    match v
    case NoneV => Ok("None")
    case BoolV(b) => Ok(if b then "True" else "False")
    case IntV(i) =>
      if |NatToDecimal(if i < 0 then -i else i)| > IntMaxStrDigits then Raise(IntStrLimitError)
      else Ok(IntToDecimal(i))
    case StrV(s) => Ok(s)
    case ObjV(_, _, text) => text
  }

  /** The integer a decimal text denotes, with an optional leading `-`. */
  function DecimalValue(s: string): int
  {
    if |s| > 0 && s[0] == '-' then -DigitsValue(s[1..]) else DigitsValue(s)
  }

  /** The number a string of decimal digits denotes. */
  function DigitsValue(s: string): int
  {
    if s == [] then 0 else DigitsValue(s[..|s| - 1]) * 10 + (s[|s| - 1] as int - '0' as int)
  }

  /** Decimal text of an integer, as `str(int)` writes it: it denotes `n`, and
      its digits have no leading zero. */
  function IntToDecimal(n: int): (r: string)
    ensures |r| > 0
    ensures (n < 0) == (r[0] == '-')
    ensures forall k :: (if n < 0 then 1 else 0) <= k < |r| ==> '0' <= r[k] <= '9'
    ensures n < 0 ==> |r| >= 2
    ensures n == 0 ==> r == "0"
    ensures n != 0 ==> r[if n < 0 then 1 else 0] != '0'
    ensures DecimalValue(r) == n
  {
    if n < 0 then
      var r := "-" + NatToDecimal(-n);
      assert r[1..] == NatToDecimal(-n);
      r
    else NatToDecimal(n)
  }

  /** Decimal digits of a natural number, most significant first, without
      leading zeros: they denote `n`. */
  function NatToDecimal(n: nat): (r: string)
    ensures |r| > 0
    ensures forall k :: 0 <= k < |r| ==> '0' <= r[k] <= '9'
    ensures n > 0 ==> r[0] != '0'
    ensures DigitsValue(r) == n
  {
    var d := ['0' + (n % 10) as char];
    assert DigitsValue(d) == n % 10 by {
      assert d[..0] == [];
    }
    if n < 10 then d
    else
      var r := NatToDecimal(n / 10) + d;
      assert r[..|r| - 1] == NatToDecimal(n / 10);
      r
  }

  /** Distinct integers have distinct decimal texts. */
  lemma DecimalInjective(a: int, b: int)
    ensures IntToDecimal(a) == IntToDecimal(b) ==> a == b
  {
  }
}
