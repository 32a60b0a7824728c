/** The JSON-like values the cloud delivers and the two Python conversions
    the core applies to them: `int(v)` and `str(v)`. */
module Values {
  import opened Base

  /** A value stored under one key of a batch record. Lists and objects nested
      inside a record are `Nested`, carrying the text `str()` gives for them;
      `int()` of them raises TypeError. */
  datatype Value = VInt(i: int) | VBool(b: bool) | VStr(s: string) | VNone | Nested(text: string)

  /** A decoded JSON object (a Python dict with string keys). */
  type Record = map<string, Value>

  /** One element of a JSON array: an object or anything else. */
  datatype Entry = Object(fields: Record) | NonObject(v: Value)

  /** A whole decoded JSON document. */
  datatype Payload = Array(entries: seq<Entry>) | Single(fields: Record) | Scalar(v: Value)

  predicate IsDigit(c: char) { '0' <= c <= '9' }

  /** The digits of a Python integer literal: digits, with single underscores
      allowed only between two digits. */
  predicate WellFormedDigits(d: string)
  {
    && |d| > 0
    && IsDigit(d[0]) && IsDigit(d[|d| - 1])
    && (forall i :: 0 <= i < |d| ==> IsDigit(d[i]) || d[i] == '_')
    && (forall i :: 0 <= i < |d| - 1 ==> !(d[i] == '_' && d[i + 1] == '_'))
  }

  function DigitValue(c: char): nat
    requires IsDigit(c)
  {
    c as int - '0' as int
  }

  /** The number a string of digits and underscores denotes. */
  function DecimalValue(d: string): nat
    requires forall i :: 0 <= i < |d| ==> IsDigit(d[i]) || d[i] == '_'
  {
    if d == [] then 0
    else if d[|d| - 1] == '_' then DecimalValue(d[..|d| - 1])
    else DecimalValue(d[..|d| - 1]) * 10 + DigitValue(d[|d| - 1])
  }

  /** Python's `int(s)` for a string: surrounding whitespace, an optional
      sign, then a well-formed digit string; None where Python raises ValueError. */
  function ParseIntLiteral(s: string): (r: Option<int>)
    ensures r.Some? ==> !AllSpace(s)
  {
    ParseSigned(Strip(s))
  }

  /** `int(s)` once the whitespace is stripped. */
  function ParseSigned(t: string): (r: Option<int>)
    ensures r.Some? ==> t != []
  {
    if |t| > 0 && (t[0] == '+' || t[0] == '-') then
      var d := t[1..];
      var m: int := if WellFormedDigits(d) then DecimalValue(d) else 0;
      if WellFormedDigits(d) then Some(if t[0] == '-' then -m else m)
      else None
    else if WellFormedDigits(t) then Some(DecimalValue(t))
    else None
  }

  /** Python's `int(v)`; None where Python raises ValueError or TypeError. */
  function ToInt(v: Value): Option<int>
  {
    match v
    case VInt(i) => Some(i)
    case VBool(b) => Some(if b then 1 else 0)
    case VStr(s) => ParseIntLiteral(s)
    case VNone => None
    case Nested(_) => None
  }

  /** Python's `str(v)`. */
  function ToStr(v: Value): string
  {
    match v
    case VInt(i) => IntToDecimal(i)
    case VBool(b) => if b then "True" else "False"
    case VStr(s) => s
    case VNone => "None"
    case Nested(t) => t
  }

  /** Python's `d.get(key, default)`. */
  function Get(r: Record, key: string, default: Value): Value
  {
    if key in r then r[key] else default
  }

  lemma {:induction false} DecimalValueOfDecimal(n: nat)
    ensures WellFormedDigits(NatToDecimal(n))
    ensures DecimalValue(NatToDecimal(n)) == n
    decreases n
  {
    var d := NatToDecimal(n);
    if n >= 10 {
      DecimalValueOfDecimal(n / 10);
      assert d[..|d| - 1] == NatToDecimal(n / 10);
    }
  }

  lemma DigitNotSpace(c: char)
    requires IsDigit(c)
    ensures !IsSpace(c)
  {
  }

  lemma {:induction false} ParseDecimal(n: nat)
    ensures ParseIntLiteral(NatToDecimal(n)) == Some(n)
  {
    var d := NatToDecimal(n);
    DecimalValueOfDecimal(n);
    DigitNotSpace(d[0]);
    DigitNotSpace(d[|d| - 1]);
    ParseUnsignedLiteral(d);
  }

  lemma ParseUnsignedLiteral(s: string)
    requires Trimmed(s) && WellFormedDigits(s) && s[0] != '+' && s[0] != '-'
    ensures ParseIntLiteral(s) == Some(DecimalValue(s))
  {
    StripTrimmed(s);
    ParseUnsignedDigits(s);
  }

  lemma ParseUnsignedDigits(t: string)
    requires WellFormedDigits(t) && t[0] != '+' && t[0] != '-'
    ensures ParseSigned(t) == Some(DecimalValue(t))
  {
  }

  lemma ParseNegativeLiteral(s: string)
    requires |s| > 1 && s[0] == '-' && Trimmed(s)
    requires WellFormedDigits(s[1..])
    ensures ParseIntLiteral(s) == Some(-(DecimalValue(s[1..]) as int))
  {
    assert Strip(s) == s;
  }

  /** A minus sign before a digit string gives a trimmed text. */
  lemma MinusDigitsTrimmed(d: string)
    requires d != [] && IsDigit(d[|d| - 1])
    ensures var s := ['-'] + d; |s| > 1 && Trimmed(s) && s[1..] == d
  {
    var s := ['-'] + d;
    DigitNotSpace(d[|d| - 1]);
    assert s[|s| - 1] == d[|d| - 1];
  }

  lemma ParseNegativeDecimal(i: int)
    requires i < 0
    ensures ParseIntLiteral(IntToDecimal(i)) == Some(i)
  {
    var n: nat := -i;
    var d := NatToDecimal(n);
    assert ['-'] + d == IntToDecimal(i);
    DecimalValueOfDecimal(n);
    MinusDigitsTrimmed(d);
    ParseNegativeLiteral(['-'] + d);
  }

  /** `int(str(i)) == i`: the decimal text of an integer parses back to it. */
  lemma IntOfStrOfInt(i: int)
    ensures ToInt(VStr(ToStr(VInt(i)))) == Some(i)
  {
    if i < 0 {
      ParseNegativeDecimal(i);
    } else {
      ParseDecimal(i);
    }
  }

  /** What a successful `int(s)` saw: the stripped text is an optional sign
      before a well-formed digit string, and the value is that string's,
      negated after a minus. */
  lemma ParsedLiteralShape(s: string)
    requires ParseIntLiteral(s).Some?
    ensures var t := Strip(s);
            var signed := t[0] == '+' || t[0] == '-';
            var d := if signed then t[1..] else t;
            WellFormedDigits(d)
            && ParseIntLiteral(s).value == (if t[0] == '-' then -(DecimalValue(d) as int) else DecimalValue(d) as int)
  {
  }

  /** Conversely, whatever surrounds it, an optional sign before a
      well-formed digit string parses to the digits' value, negated after a
      minus. */
  lemma SignedLiteralParses(s: string, sign: string, d: string)
    requires sign == "" || sign == "+" || sign == "-"
    requires WellFormedDigits(d) && Strip(s) == sign + d
    ensures ParseIntLiteral(s) == Some(if sign == "-" then -(DecimalValue(d) as int) else DecimalValue(d) as int)
  {
    SignedDigitsParse(Strip(s), sign, d);
  }

  lemma SignedDigitsParse(t: string, sign: string, d: string)
    requires sign == "" || sign == "+" || sign == "-"
    requires WellFormedDigits(d) && t == sign + d
    ensures ParseSigned(t) == Some(if sign == "-" then -(DecimalValue(d) as int) else DecimalValue(d) as int)
  {
    if sign == "" {
      assert t == d && IsDigit(t[0]);
    } else {
      assert t[0] == sign[0] && t[1..] == d;
    }
  }
}
