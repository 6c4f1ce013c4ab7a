/** Python values as they travel through the service's dictionaries: decoded JSON
    from the recognition service, the text of XML elements, configuration flags.
    A dictionary is a `map` from string keys to such values. */
module PyValue {
  import opened Wrappers
  import opened PyString

  /** A float or a container (list, nested dict) is carried with its `str()`
      rendering and its truthiness; nothing in the core computes with them. */
  datatype Value =
    | Null
    | Bool(b: bool)
    | Int(i: int)
    | Float(text: string, isZero: bool)
    | Str(s: string)
    | Container(text: string, isEmpty: bool)

  type Dict = map<string, Value>

  /** Python truthiness: what `if v:` and `not v` test. */
  predicate Truthy(v: Value) {
    match v
    case Null => false
    case Bool(b) => b
    case Int(i) => i != 0
    case Float(_, zero) => !zero
    case Str(s) => s != ""
    case Container(_, empty) => !empty
  }

  /** `d.get(key, default)` */
  function Get(d: Dict, key: string, default: Value): Value {
    if key in d then d[key] else default
  }

  /** The text of a string value; "" for any other value. */
  function TextOf(v: Value): (t: string)
    ensures v.Str? ==> t == v.s
  {
    if v.Str? then v.s else ""
  }

  /** `a or b`: the first operand when it is truthy, otherwise the second. */
  function Or(a: Value, b: Value): (r: Value)
    ensures Truthy(r) <==> Truthy(a) || Truthy(b)
    ensures r == a || r == b
    ensures Truthy(a) ==> r == a
  {
    if Truthy(a) then a else b
  }

  /** `str(v)`, which is also what an f-string inserts for `{v}`. */
  function Show(v: Value): string {
    match v
    case Null => "None"
    case Bool(b) => if b then "True" else "False"
    case Int(i) => IntToString(i)
    case Float(text, _) => text
    case Str(s) => s
    case Container(text, _) => text
  }

  predicate IsDigit(c: char) {
    '0' <= c <= '9'
  }

  function DigitChar(d: nat): (c: char)
    requires d < 10
    ensures IsDigit(c) && c as int - '0' as int == d
  {
    ('0' as int + d) as char
  }

  /** Decimal digits of `n`, most significant first, without leading zeros. */
  function NatToString(n: nat): (s: string)
    ensures |s| >= 1
    ensures forall i :: 0 <= i < |s| ==> IsDigit(s[i])
    ensures s[0] == '0' ==> n == 0
    decreases n
  {
    if n < 10 then [DigitChar(n)] else NatToString(n / 10) + [DigitChar(n % 10)]
  }

  /** `str(i)` for a Python `int`. */
  function IntToString(i: int): (s: string)
    ensures s != [] && !IsSpace(s[0]) && !IsSpace(s[|s| - 1])
    ensures i < 0 <==> s[0] == '-'
  {
    if i < 0 then "-" + NatToString(-i) else NatToString(i)
  }

  predicate DigitsOrUnderscores(s: string) {
    forall i :: 0 <= i < |s| ==> IsDigit(s[i]) || s[i] == '_'
  }

  /** Python's grammar for the digits of a decimal literal: digits, with single
      underscores allowed only between two digits. */
  predicate WellFormedDigits(s: string) {
    && |s| > 0
    && DigitsOrUnderscores(s)
    && IsDigit(s[0]) && IsDigit(s[|s| - 1])
    && forall i :: 0 <= i < |s| - 1 ==> !(s[i] == '_' && s[i + 1] == '_')
  }

  /** The value of a digit string, underscores skipped. */
  function DigitsValue(s: string): nat
    requires DigitsOrUnderscores(s)
  {
    if s == [] then 0
    else if s[|s| - 1] == '_' then DigitsValue(s[..|s| - 1])
    else DigitsValue(s[..|s| - 1]) * 10 + (s[|s| - 1] as int - '0' as int)
  }

  /** `int(text)` on a `str` in base 10, with ASCII digits: surrounding
      whitespace is ignored, one optional sign, then well-formed digits; any
      other text makes Python raise `ValueError`, here `None`. */
  function ParseInt(text: string): (r: Option<int>)
    ensures r.Some? ==> exists k :: 0 <= k < |Strip(text)| && IsDigit(Strip(text)[k])
  {
    var t := Strip(text);
    if t == [] then None
    else
      var negative := t[0] == '-';
      var digits := if t[0] == '-' || t[0] == '+' then t[1..] else t;
      if WellFormedDigits(digits) then
        var magnitude: int := DigitsValue(digits);
        assert IsDigit(t[|t| - 1]);
        Some(if negative then -magnitude else magnitude)
      else None
  }

  lemma {:induction false} NatToStringValue(n: nat)
    ensures DigitsOrUnderscores(NatToString(n)) && DigitsValue(NatToString(n)) == n
    decreases n
  {
    var s := NatToString(n);
    if n >= 10 {
      NatToStringValue(n / 10);
      assert s[..|s| - 1] == NatToString(n / 10);
    }
  }

  /** `int(str(i)) == i`: the decimal rendering reads back as the same integer. */
  lemma IntToStringRoundTrip(i: int)
    ensures ParseInt(IntToString(i)) == Some(i)
  {
    var s := IntToString(i);
    StripUnpadded(s);
    var digits := NatToString(if i < 0 then -i else i);
    NatToStringValue(if i < 0 then -i else i);
    if i < 0 {
      assert s[1..] == digits;
    } else {
      assert s == digits;
      assert s[0] != '-' && s[0] != '+';
    }
  }
}
