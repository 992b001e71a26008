/** The JavaScript values that reach the whiteboard through its option
    objects, with the two coercions the code applies to them: truthiness
    (`if (x)`) and `parseInt(x, 10)`. Floating-point numbers are exact reals;
    `NaN` and the infinities never occur as option values. */
module JsValues {
  import opened Wrappers

  datatype Value =
    | Undefined
    | Null
    | Bool(b: bool)
    | Number(n: real)
    | Str(s: string)

  /** JavaScript truthiness, as tested by `if (options.timeout)` and
      `options.drawOffsetX ? … : 0`. */
  predicate Truthy(v: Value) {
    match v
    case Undefined => false
    case Null => false
    case Bool(b) => b
    case Number(n) => n != 0.0
    case Str(s) => |s| > 0
  }

  /** Rounds toward zero, as `parseInt` does with the decimal text of a number. */
  function Trunc(r: real): (i: int)
    ensures 0.0 <= r ==> i as real <= r < i as real + 1.0
    ensures r < 0.0 ==> i as real - 1.0 < r <= i as real
  {
    if r >= 0.0 then r.Floor else -((-r).Floor)
  }

  /** The white-space characters `parseInt` skips before the number (the
      ASCII ones plus no-break space and the byte-order mark). */
  predicate IsWhiteSpace(c: char) {
    c == ' ' || c == '\t' || c == '\n' || c == '\r' || c == '\U{000B}'
    || c == '\U{000C}' || c == '\U{00A0}' || c == '\U{FEFF}'
  }

  predicate IsDigit(c: char) {
    '0' <= c <= '9'
  }

  predicate AllDigits(s: string) {
    forall i :: 0 <= i < |s| ==> IsDigit(s[i])
  }

  /** `s` with its leading white space removed. */
  function TrimStart(s: string): (t: string)
    ensures |t| <= |s| && t == s[|s| - |t|..]
    ensures |t| > 0 ==> !IsWhiteSpace(t[0])
  {
    if |s| > 0 && IsWhiteSpace(s[0]) then TrimStart(s[1..]) else s
  }

  /** The longest prefix of `s` made only of decimal digits. */
  function LeadingDigits(s: string): (ds: string)
    ensures |ds| <= |s| && ds == s[..|ds|]
    ensures AllDigits(ds)
    ensures |ds| < |s| ==> !IsDigit(s[|ds|])
  {
    if |s| > 0 && IsDigit(s[0]) then [s[0]] + LeadingDigits(s[1..]) else []
  }

  function DigitValue(c: char): (d: nat)
    requires IsDigit(c)
    ensures d < 10
  {
    (c as int) - ('0' as int)
  }

  /** The number a string of decimal digits denotes, most significant first. */
  function DigitsValue(ds: string): nat
    requires AllDigits(ds)
  {
    if |ds| == 0 then 0 else DigitsValue(ds[..|ds| - 1]) * 10 + DigitValue(ds[|ds| - 1])
  }

  /** `parseInt(s, 10)` on a string: skip white space, read an optional sign,
      then as many decimal digits as follow; `None` is `NaN`, returned when no
      digit follows. */
  function ParseDecimal(s: string): Option<int>
  {
    ParseSigned(TrimStart(s))
  }

  /** `parseInt` after the white space: an optional sign, then digits. */
  function ParseSigned(t: string): Option<int>
  {
    var ds := LeadingDigits(Unsigned(t));
    if |ds| == 0 then None
    else if |t| > 0 && t[0] == '-' then Some(-(DigitsValue(ds) as int))
    else Some(DigitsValue(ds))
  }

  /** `t` without one leading sign character. */
  function Unsigned(t: string): (u: string)
    ensures u == t || (|t| > 0 && (t[0] == '-' || t[0] == '+') && u == t[1..])
  {
    if |t| > 0 && (t[0] == '-' || t[0] == '+') then t[1..] else t
  }

  /** The text `String(v)` of a value that is not a number. */
  function ToText(v: Value): string
    requires !v.Number?
  {
    match v
    case Undefined => "undefined"
    case Null => "null"
    case Bool(b) => if b then "true" else "false"
    case Str(s) => s
  }

  /** `parseInt(v, 10)`: a number is truncated toward zero; anything else is
      converted to text and parsed. `undefined`, `null`, the booleans and the
      empty string have no leading digit and give `NaN`. */
  function ParseInt(v: Value): (r: Option<int>)
    ensures v.Number? ==> r.Some?
    ensures v.Undefined? || v.Null? || v.Bool? ==> r.None?
    ensures v.Str? && |v.s| == 0 ==> r.None?
  {
    match v
    case Number(n) => Some(Trunc(n))
    case _ => NoDigitInText(v); ParseDecimal(ToText(v))
  }

  /** The texts of `undefined`, `null`, `true` and `false` start with a
      letter, and the empty string has no character at all. */
  lemma NoDigitInText(v: Value)
    requires !v.Number?
    ensures v.Undefined? || v.Null? || v.Bool? || |v.s| == 0 ==> ParseDecimal(ToText(v)).None?
  {
    var text := ToText(v);
    if !v.Str? {
      assert text[0] in "untf";
      NoLeadingDigitText(text);
    }
  }

  function DigitChar(d: nat): (c: char)
    requires d < 10
    ensures IsDigit(c) && DigitValue(c) == d
  {
    (('0' as int) + d) as char
  }

  /** The decimal digits of `n`, most significant first, without leading zeros. */
  function Digits(n: nat): (ds: string)
    ensures |ds| > 0 && AllDigits(ds)
  {
    if n < 10 then [DigitChar(n)] else Digits(n / 10) + [DigitChar(n % 10)]
  }

  /** `String(n)` for an integer `n`. */
  function Decimal(n: int): (s: string)
    ensures |s| > 0
  {
    if n < 0 then "-" + Digits(-n) else Digits(n)
  }

  lemma {:induction false} DigitsValueOfDigits(n: nat)
    ensures DigitsValue(Digits(n)) == n
  {
    if n >= 10 {
      var ds := Digits(n);
      assert ds[..|ds| - 1] == Digits(n / 10);
      DigitsValueOfDigits(n / 10);
    }
  }

  lemma {:induction false} LeadingDigitsOfDigits(ds: string)
    requires AllDigits(ds)
    ensures LeadingDigits(ds) == ds
  {
    if |ds| > 0 {
      LeadingDigitsOfDigits(ds[1..]);
    }
  }

  /** Reading back the decimal text of an integer gives that integer: the
      offset `parseInt` extracts from a numeric string is the number written. */
  lemma ParseDecimalRoundTrip(n: int)
    ensures ParseInt(Str(Decimal(n))) == Some(n)
  {
    var m: nat := if n < 0 then -n else n;
    var ds := Digits(m);
    DigitsValueOfDigits(m);
    var text := Decimal(n);
    if n < 0 {
      assert text[0] == '-' && text[1..] == ds;
      ParseNegative(text);
    } else {
      assert text == ds;
      ParseUnsigned(text);
    }
  }

  lemma ParseUnsigned(text: string)
    requires |text| > 0 && AllDigits(text)
    ensures ParseDecimal(text) == Some(DigitsValue(text))
  {
    UnsignedDigitsParse(text);
  }

  lemma ParseNegative(text: string)
    requires |text| > 1 && text[0] == '-' && AllDigits(text[1..])
    ensures ParseDecimal(text) == Some(-(DigitsValue(text[1..]) as int))
  {
    var ds := text[1..];
    assert !IsWhiteSpace(text[0]);
    assert TrimStart(text) == text;
    assert Unsigned(text) == ds;
    UnsignedDigitsParse(ds);
  }

  /** Digits followed by anything that is not a digit: the digits are read
      and the rest is ignored. */
  lemma {:induction false} LeadingDigitsStop(ds: string, rest: string)
    requires AllDigits(ds)
    requires |rest| == 0 || !IsDigit(rest[0])
    ensures LeadingDigits(ds + rest) == ds
  {
    if |ds| == 0 {
      assert ds + rest == rest;
    } else {
      assert (ds + rest)[0] == ds[0];
      assert (ds + rest)[1..] == ds[1..] + rest;
      LeadingDigitsStop(ds[1..], rest);
    }
  }

  /** `parseInt` reads an unsigned run of digits and stops at the first
      character that is not a digit, as in `"12px"`. */
  lemma DigitsThenText(ds: string, rest: string)
    requires |ds| > 0 && AllDigits(ds)
    requires |rest| == 0 || !IsDigit(rest[0])
    ensures ParseDecimal(ds + rest) == Some(DigitsValue(ds))
  {
    var text := ds + rest;
    assert text[0] == ds[0] && IsDigit(ds[0]);
    assert TrimStart(text) == text;
    assert Unsigned(text) == text;
    LeadingDigitsStop(ds, rest);
  }

  /** The same after a minus sign: the value is negated. */
  lemma NegativeDigitsThenText(ds: string, rest: string)
    requires |ds| > 0 && AllDigits(ds)
    requires |rest| == 0 || !IsDigit(rest[0])
    ensures ParseDecimal("-" + ds + rest) == Some(-(DigitsValue(ds) as int))
  {
    var u := ds + rest;
    var text := "-" + u;
    assert text == "-" + ds + rest;
    assert text[0] == '-' && text[1..] == u;
    LeadingDigitsStop(ds, rest);
    NegativeText(text, ds);
  }

  /** Reading after a minus sign negates the digits read. */
  lemma NegativeText(t: string, ds: string)
    requires |t| > 0 && t[0] == '-' && LeadingDigits(t[1..]) == ds && |ds| > 0
    ensures ParseDecimal(t) == Some(-(DigitsValue(ds) as int))
  {
    assert TrimStart(t) == t;
    assert Unsigned(t) == t[1..];
    assert ParseDecimal(t) == ParseSigned(t);
  }

  /** The decimal text of an integer followed by text that does not start
      with a digit parses to that integer: trailing units such as `px` are
      ignored. */
  lemma ParsePrefix(n: int, rest: string)
    requires |rest| == 0 || !IsDigit(rest[0])
    ensures ParseDecimal(Decimal(n) + rest) == Some(n)
  {
    var m: nat := if n < 0 then -n else n;
    var ds := Digits(m);
    DigitsValueOfDigits(m);
    if n < 0 {
      assert Decimal(n) + rest == "-" + ds + rest;
      NegativeDigitsThenText(ds, rest);
    } else {
      DigitsThenText(ds, rest);
    }
  }

  /** Leading white space does not change what `parseInt` reads. */
  lemma ParseSkipsWhiteSpace(c: char, s: string)
    requires IsWhiteSpace(c)
    ensures ParseDecimal([c] + s) == ParseDecimal(s)
  {
    assert ([c] + s)[1..] == s;
    assert TrimStart([c] + s) == TrimStart(s);
  }

  /** Text whose first character is neither white space, a sign nor a digit
      gives `NaN`. */
  lemma ParseNoLeadingDigit(c: char, rest: string)
    requires !IsWhiteSpace(c) && !IsDigit(c) && c != '-' && c != '+'
    ensures ParseDecimal([c] + rest) == None
  {
    var text := [c] + rest;
    assert text[0] == c;
    NoLeadingDigitText(text);
  }

  lemma NoLeadingDigitText(text: string)
    requires |text| > 0
    requires !IsWhiteSpace(text[0]) && !IsDigit(text[0]) && text[0] != '-' && text[0] != '+'
    ensures ParseDecimal(text) == None
  {
    assert TrimStart(text) == text;
    assert Unsigned(text) == text;
  }

  /** A sign with no digit after it gives `NaN`, as in `"-"` or `"+x"`. */
  lemma ParseSignWithoutDigit(c: char, rest: string)
    requires c == '-' || c == '+'
    requires |rest| == 0 || !IsDigit(rest[0])
    ensures ParseDecimal([c] + rest) == None
  {
    var text := [c] + rest;
    assert text[0] == c && text[1..] == rest;
    SignWithoutDigitText(text);
  }

  lemma SignWithoutDigitText(text: string)
    requires |text| > 0 && (text[0] == '-' || text[0] == '+')
    requires |text| == 1 || !IsDigit(text[1])
    ensures ParseDecimal(text) == None
  {
    assert TrimStart(text) == text;
    assert Unsigned(text) == text[1..];
  }

  /** A digit string starts with neither white space nor a sign, and its
      leading digits are all of it. */
  lemma UnsignedDigitsParse(ds: string)
    requires |ds| > 0 && AllDigits(ds)
    ensures TrimStart(ds) == ds && Unsigned(ds) == ds
    ensures LeadingDigits(ds) == ds
  {
    assert IsDigit(ds[0]);
    assert !IsWhiteSpace(ds[0]) && ds[0] != '-' && ds[0] != '+';
    LeadingDigitsOfDigits(ds);
  }
}
