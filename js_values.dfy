/**
 * The JavaScript values the Node.js handlers see once a request body has
 * been parsed: JSON values, with a field that is absent from an object
 * (JavaScript `undefined`) written as `None`.  Numbers are JavaScript
 * numbers restricted to integers: the handlers' prices are whole units of
 * currency, and a fractional price cannot be represented.
 */
module JsValues {
  import opened Wrappers
  import Text

  datatype Json =
    | JNull
    | JBool(b: bool)
    | JNum(n: int)
    | JStr(s: string)
    | JArr(elems: seq<Json>)
    | JObj(fields: map<string, Json>)

  /** A JSON object field, `None` when the object has no such field (or is no object). */
  function Field(v: Json, name: string): (r: Option<Json>)
    ensures r.Some? <==> v.JObj? && name in v.fields
  {
    if v.JObj? && name in v.fields then Some(v.fields[name]) else None
  }

  /** JavaScript truthiness: what `!x` negates. */
  predicate Truthy(v: Json)
    ensures !Truthy(v) <==> v == JNull || v == JBool(false) || v == JNum(0) || v == JStr("")
  {
    match v
    case JNull => false
    case JBool(b) => b
    case JNum(n) => n != 0
    case JStr(s) => s != ""
    case JArr(_) => true
    case JObj(_) => true
  }

  /** Truthiness of a value that may be `undefined`. */
  predicate Present(v: Option<Json>) {
    v.Some? && Truthy(v.value)
  }

  /** Truthiness of a string field that may be `undefined`: present and not empty. */
  predicate Filled(s: Option<string>) {
    s.Some? && s.value != ""
  }

  /** `a || b`: `a` when it is truthy, otherwise `b`. */
  function Or(a: Option<Json>, b: Json): (r: Json)
    ensures Present(a) ==> r == a.value
    ensures !Present(a) ==> r == b
  {
    if Present(a) then a.value else b
  }

  // ------------------------------------------------------------ numerals

  predicate IsDigit(c: char) {
    '0' <= c <= '9'
  }

  /**
   * The white space `parseInt`, `parseFloat` and `Number` skip: the
   * ECMAScript WhiteSpace and LineTerminator characters (tab, line feed,
   * vertical tab, form feed and carriage return, which are '\t' to '\r',
   * space, no-break space, the
   * byte order mark, the line and paragraph separators and the other
   * Unicode space separators).
   */
  predicate IsSpace(c: char) {
    if c <= ' ' then c == ' ' || '\t' <= c <= '\r'
    else if c < '\U{00A0}' then false
    else
      || c == '\U{00A0}' || c == '\U{1680}' || '\U{2000}' <= c <= '\U{200A}'
      || c == '\U{2028}' || c == '\U{2029}' || c == '\U{202F}' || c == '\U{205F}'
      || c == '\U{3000}' || c == '\U{FEFF}'
  }

  /** The value of `c` as a digit in bases up to 36; 36 for a character that is no digit at all. */
  function DigitVal(c: char): nat {
    if '0' <= c <= '9' then (c as int) - ('0' as int)
    else if 'a' <= c <= 'z' then (c as int) - ('a' as int) + 10
    else if 'A' <= c <= 'Z' then (c as int) - ('A' as int) + 10
    else 36
  }

  /** The number of leading digits of `s` in base `radix`. */
  function DigitRun(s: string, radix: nat): (k: nat)
    ensures k <= |s|
  {
    if s == [] || DigitVal(s[0]) >= radix then 0 else 1 + DigitRun(s[1..], radix)
  }

  /** `DigitRun` is the longest run of digits: every character in it is a digit, and the one after it is not. */
  lemma {:induction false} DigitRunLongest(s: string, radix: nat)
    ensures var k := DigitRun(s, radix);
      && (forall i :: 0 <= i < k ==> DigitVal(s[i]) < radix)
      && (k < |s| ==> DigitVal(s[k]) >= radix)
  {
    if s != [] && DigitVal(s[0]) < radix {
      DigitRunLongest(s[1..], radix);
    }
  }

  /** The value of a string of digits in base `radix`. */
  function DigitsValue(s: string, radix: nat): nat {
    if s == [] then 0
    else radix * DigitsValue(s[..|s| - 1], radix) + DigitVal(s[|s| - 1])
  }

  /** `s` with its leading white space removed. */
  function TrimStart(s: string): (t: string)
    ensures |t| <= |s|
    ensures t != [] ==> !IsSpace(t[0])
  {
    if s != [] && IsSpace(s[0]) then TrimStart(s[1..]) else s
  }

  /** `s` with its trailing white space removed. */
  function TrimEnd(s: string): (t: string)
    ensures |t| <= |s|
    ensures t != [] ==> !IsSpace(t[|t| - 1])
  {
    if s != [] && IsSpace(s[|s| - 1]) then TrimEnd(s[..|s| - 1]) else s
  }

  /** `TrimStart` drops exactly the leading white space: what it removes is all space, and it keeps the rest. */
  lemma {:induction false} TrimStartDrops(s: string)
    ensures var t := TrimStart(s);
      && t == s[|s| - |t|..]
      && forall i :: 0 <= i < |s| - |t| ==> IsSpace(s[i])
  {
    if s != [] && IsSpace(s[0]) {
      TrimStartDrops(s[1..]);
    }
  }

  /** `TrimEnd` drops exactly the trailing white space. */
  lemma {:induction false} TrimEndDrops(s: string)
    ensures var t := TrimEnd(s);
      && t == s[..|t|]
      && forall i :: |t| <= i < |s| ==> IsSpace(s[i])
  {
    if s != [] && IsSpace(s[|s| - 1]) {
      TrimEndDrops(s[..|s| - 1]);
    }
  }

  /** `s` without a leading sign. */
  function Unsigned(s: string): string {
    if |s| > 0 && (s[0] == '-' || s[0] == '+') then s[1..] else s
  }

  /** `v` negated when `s` starts with a minus sign. */
  function Signed(s: string, v: nat): int {
    if |s| > 0 && s[0] == '-' then -(v as int) else v
  }

  /** `t` starts with the hexadecimal prefix `0x` or `0X`. */
  predicate HexPrefixed(t: string) {
    |t| >= 2 && t[0] == '0' && (t[1] == 'x' || t[1] == 'X')
  }

  /**
   * The integer a leading signed decimal numeral of `s` denotes, `None`
   * (NaN) when `s` does not start with one: `parseFloat` on integers.
   */
  function LeadingDecimal(s: string): (r: Option<int>)
    ensures r.Some? <==> DigitRun(Unsigned(s), 10) > 0
  {
    var m := Unsigned(s);
    var k := DigitRun(m, 10);
    if k > 0 then Some(Signed(s, DigitsValue(m[..k], 10))) else None
  }

  /**
   * `parseInt` with no radix on a string with no leading white space: after
   * an optional sign, `0x`/`0X` selects base 16 and at least one hexadecimal
   * digit must follow; otherwise the leading decimal numeral is read.
   */
  function LeadingInt(s: string): (r: Option<int>)
    ensures !HexPrefixed(Unsigned(s)) ==> r == LeadingDecimal(s)
    ensures HexPrefixed(Unsigned(s)) ==> (r.Some? <==> DigitRun(Unsigned(s)[2..], 16) > 0)
  {
    var m := Unsigned(s);
    if HexPrefixed(m) then
      var k := DigitRun(m[2..], 16);
      if k > 0 then Some(Signed(s, DigitsValue(m[2..][..k], 16))) else None
    else LeadingDecimal(s)
  }

  /**
   * `parseInt(v)`: the value's string form, leading white space skipped,
   * read as `LeadingInt` reads it; `None` is NaN.  `null`, booleans and
   * objects render as words that are no numerals; an array renders as its
   * elements joined by commas, so only its first element counts.
   */
  function ParseInt(v: Json): (r: Option<int>)
    ensures v.JNum? ==> r == Some(v.n)
    ensures v.JNull? || v.JBool? || v.JObj? ==> r.None?
  {
    match v
    case JNum(n) => Some(n)
    case JStr(s) => LeadingInt(TrimStart(s))
    case JArr(a) => if |a| == 0 then None else ParseInt(a[0])
    case _ => None
  }

  /** `parseFloat(v)` on integers: as `parseInt`, but decimal only, so "0x10" reads as 0. */
  function ParseFloat(v: Json): (r: Option<int>)
    ensures v.JNum? ==> r == Some(v.n)
    ensures v.JNull? || v.JBool? || v.JObj? ==> r.None?
  {
    match v
    case JNum(n) => Some(n)
    case JStr(s) => LeadingDecimal(TrimStart(s))
    case JArr(a) => if |a| == 0 then None else ParseFloat(a[0])
    case _ => None
  }

  /** The two parsers differ only on a hexadecimal prefix. */
  lemma {:induction false} IntFloatAgree(v: Json)
    requires v.JStr? ==> !HexPrefixed(Unsigned(TrimStart(v.s)))
    requires v.JArr? ==> forall i :: 0 <= i < |v.elems| ==> !v.elems[i].JStr? && !v.elems[i].JArr?
    ensures ParseInt(v) == ParseFloat(v)
  {
  }

  /** The decimal numeral of `n` reads back as `n`. */
  lemma {:induction false} DigitsRoundTrip(n: nat)
    ensures forall i :: 0 <= i < |Text.NatToString(n)| ==> IsDigit(Text.NatToString(n)[i])
    ensures DigitRun(Text.NatToString(n), 10) == |Text.NatToString(n)|
    ensures DigitsValue(Text.NatToString(n), 10) == n
    decreases n
  {
    var s := Text.NatToString(n);
    if n < 10 {
      DigitOf(n);
      assert s == [Text.Digit(n)];
      assert s[..0] == [];
    } else {
      DigitsRoundTrip(n / 10);
      DigitOf(n % 10);
      var p := Text.NatToString(n / 10);
      assert s == p + [Text.Digit(n % 10)];
      assert s[..|s| - 1] == p;
    }
    DigitRunAll(s);
  }

  /** The character `Text.Digit` writes for `d` is a decimal digit worth `d`. */
  lemma DigitOf(d: nat)
    requires d < 10
    ensures IsDigit(Text.Digit(d)) && DigitVal(Text.Digit(d)) == d
  {
  }

  /** A string of decimal digits is one run of digits. */
  lemma {:induction false} DigitRunAll(s: string)
    requires forall i :: 0 <= i < |s| ==> IsDigit(s[i])
    ensures DigitRun(s, 10) == |s|
  {
    if s != [] {
      DigitRunAll(s[1..]);
    }
  }

  /** A number rendered as a decimal string parses back to itself: `parseInt(String(n)) == n`. */
  lemma ParseRendered(n: int)
    ensures ParseInt(JStr(Text.IntToString(n))) == Some(n)
  {
    var k: nat := if n < 0 then -n else n;
    DigitsRoundTrip(k);
    var m := Text.NatToString(k);
    if n < 0 {
      ReadNegated(m);
      assert Text.IntToString(n) == "-" + m;
    } else {
      ReadDigits(m);
    }
  }

  /** And so does `parseFloat(String(n)) == n`. */
  lemma ParseFloatRendered(n: int)
    ensures ParseFloat(JStr(Text.IntToString(n))) == Some(n)
  {
    var k: nat := if n < 0 then -n else n;
    DigitsRoundTrip(k);
    var m := Text.NatToString(k);
    if n < 0 {
      ReadNegated(m);
      assert Text.IntToString(n) == "-" + m;
    } else {
      ReadDigits(m);
    }
  }

  /** A non-empty run of decimal digits with no hexadecimal prefix is read whole, with nothing trimmed. */
  lemma ReadDigits(s: string)
    requires |s| > 0 && DigitRun(s, 10) == |s| && (|s| >= 2 ==> s[1] != 'x' && s[1] != 'X')
    ensures TrimStart(s) == s && LeadingInt(s) == Some(DigitsValue(s, 10)) && LeadingDecimal(s) == LeadingInt(s)
  {
    assert DigitVal(s[0]) < 10;
    assert s[..|s|] == s;
  }

  /** A minus sign before a non-empty run of decimal digits negates its value. */
  lemma ReadNegated(s: string)
    requires |s| > 0 && DigitRun(s, 10) == |s| && (|s| >= 2 ==> s[1] != 'x' && s[1] != 'X')
    ensures TrimStart("-" + s) == "-" + s
    ensures LeadingInt("-" + s) == Some(-(DigitsValue(s, 10) as int)) && LeadingDecimal("-" + s) == LeadingInt("-" + s)
  {
    var t := "-" + s;
    assert t[0] == '-' && t[1..] == s;
    NoLeadingSpace(t);
    DecimalRun(s, t);
    assert !HexPrefixed(s);
  }

  /** A string that does not start with white space is its own start-trim. */
  lemma NoLeadingSpace(t: string)
    requires |t| > 0 && !IsSpace(t[0])
    ensures TrimStart(t) == t
  {
  }

  /** When the unsigned part `s` of `t` is all decimal digits, `t` reads as their signed value. */
  lemma DecimalRun(s: string, t: string)
    requires Unsigned(t) == s && |s| > 0 && DigitRun(s, 10) == |s|
    ensures LeadingDecimal(t) == Some(Signed(t, DigitsValue(s, 10)))
  {
    assert s[..|s|] == s;
  }

  /** Where the two parsers part: `parseInt` reads "0x10" as 16, `parseFloat` stops at the `x` and reads 0. */
  lemma HexPrefix()
    ensures ParseInt(JStr("0x10")) == Some(16) && ParseFloat(JStr("0x10")) == Some(0)
  {
    assert TrimStart("0x10") == "0x10";
    assert Unsigned("0x10") == "0x10" && "0x10"[2..] == "10";
    assert DigitRun("10", 16) == 2 && "10"[..2] == "10";
    assert DigitsValue("10", 16) == 16 by { assert "10"[..1] == "1"; }
    assert DigitRun("0x10", 10) == 1 && "0x10"[..1] == "0";
    assert DigitsValue("0", 10) == 0 by { assert "0"[..0] == ""; }
  }

  /** The sign comes before the prefix, "-0x10" is -16, and a prefix with no digit after it is NaN. */
  lemma SignedHex()
    ensures ParseInt(JStr("-0x10")) == Some(-16)
    ensures ParseInt(JStr("0x")).None?
  {
    assert TrimStart("-0x10") == "-0x10";
    assert Unsigned("-0x10") == "0x10" && "0x10"[2..] == "10";
    assert DigitRun("10", 16) == 2 && "10"[..2] == "10";
    assert DigitsValue("10", 16) == 16 by { assert "10"[..1] == "1"; }
    assert TrimStart("0x") == "0x" && "0x"[2..] == "";
  }

  /** A vertical tab before a numeral is white space and is skipped. */
  lemma VerticalTab()
    ensures ParseInt(JStr("\U{000B}5")) == Some(5)
  {
    assert TrimStart("\U{000B}5") == "5" by { assert "\U{000B}5"[1..] == "5"; }
    assert DigitRun("5", 10) == 1 && "5"[..1] == "5";
    assert DigitsValue("5", 10) == 5 by { assert "5"[..0] == ""; }
  }

  /**
   * `Number(s)` for a string: white space around it is ignored and a blank
   * string is 0; otherwise the whole rest must be one numeral: a signed
   * decimal, or an unsigned one with a `0x`, `0o` or `0b` prefix.
   */
  function WholeNumeral(s: string): (r: Option<int>)
    ensures TrimEnd(TrimStart(s)) == [] ==> r == Some(0)
  {
    var t := TrimEnd(TrimStart(s));
    if t == [] then Some(0) else Numeral(t)
  }

  /** A trimmed, non-blank string read as one `Number` literal. */
  function Numeral(t: string): (r: Option<int>)
    ensures Radix(t) == 10 && WholeIn(Unsigned(t), 10).Some? ==> r == Some(Signed(t, WholeIn(Unsigned(t), 10).value))
  {
    if Radix(t) != 10 then WholeIn(t[2..], Radix(t))
    else
      var v := WholeIn(Unsigned(t), 10);
      if v.Some? then Some(Signed(t, v.value)) else None
  }

  /** `d` read as a whole in base `radix`: at least one digit and nothing else. */
  function WholeIn(d: string, radix: nat): (r: Option<nat>)
    ensures r.Some? <==> |d| > 0 && DigitRun(d, radix) == |d|
  {
    if |d| > 0 && DigitRun(d, radix) == |d| then Some(DigitsValue(d, radix)) else None
  }

  /** The base a `Number` literal's prefix selects: 16, 8 or 2 for `0x`, `0o`, `0b` (either case), else 10. */
  function Radix(t: string): nat {
    if |t| >= 2 && t[0] == '0' then
      if t[1] == 'x' || t[1] == 'X' then 16
      else if t[1] == 'o' || t[1] == 'O' then 8
      else if t[1] == 'b' || t[1] == 'B' then 2
      else 10
    else 10
  }

  /**
   * The number `Number(v)` gives for a JSON value, `None` for NaN: `null`
   * is 0, booleans 1 and 0, a string is read by `WholeNumeral`, an object
   * is NaN.  An array goes through its string form: the empty array is 0,
   * an array of two or more elements contains a comma and is NaN, and a
   * one-element array converts as its element does, except that `null`
   * renders as "" (0) and a boolean as a word (NaN).
   */
  function JsNumber(v: Json): (r: Option<int>)
    ensures v == JNull || v == JArr([]) || v == JArr([JNull]) ==> r == Some(0)
    ensures v.JNum? ==> r == Some(v.n)
    ensures v.JObj? || (v.JArr? && |v.elems| > 1) ==> r.None?
    ensures v.JBool? ==> r == Some(if v.b then 1 else 0)
  {
    match v
    case JNull => Some(0)
    case JBool(b) => Some(if b then 1 else 0)
    case JNum(n) => Some(n)
    case JStr(s) => WholeNumeral(s)
    case JArr(a) =>
      if |a| == 0 then Some(0)
      else if |a| == 1 && !a[0].JBool? then JsNumber(a[0])
      else None
    case JObj(_) => None
  }

  /** The number a relational comparison with a number converts a possibly `undefined` value to; `undefined` is NaN. */
  function ToNumber(v: Option<Json>): (r: Option<int>)
    ensures v.None? ==> r.None?
    ensures v.Some? ==> r == JsNumber(v.value)
  {
    if v.Some? then JsNumber(v.value) else None
  }

  /** `Number` reads a one-element array as its element, `[null]` as 0 and `[true]` as NaN. */
  lemma ArrayExamples()
    ensures ToNumber(Some(JArr([JNum(5)]))) == Some(5)
    ensures ToNumber(Some(JArr([JNull]))) == Some(0)
    ensures ToNumber(Some(JArr([JBool(true)]))).None?
  {
  }

  /** `Number` reads "0x10" as 16 and "0b11" as 3. */
  lemma PrefixExamples()
    ensures ToNumber(Some(JStr("0x10"))) == Some(16) && ToNumber(Some(JStr("0b11"))) == Some(3)
  {
    assert TrimStart("0x10") == "0x10" && TrimEnd("0x10") == "0x10";
    assert Radix("0x10") == 16 && "0x10"[2..] == "10" && DigitRun("10", 16) == 2;
    assert DigitsValue("10", 16) == 16 by { assert "10"[..1] == "1"; }
    assert TrimStart("0b11") == "0b11" && TrimEnd("0b11") == "0b11";
    assert Radix("0b11") == 2 && "0b11"[2..] == "11" && DigitRun("11", 2) == 2;
    assert DigitsValue("11", 2) == 3 by { assert "11"[..1] == "1"; }
  }

  /** Trailing text makes `Number` NaN, where `parseInt` reads the numeral in front of it. */
  lemma TrailingText()
    ensures ToNumber(Some(JStr("5px"))).None? && ParseInt(JStr("5px")) == Some(5)
  {
    assert TrimStart("5px") == "5px" && TrimEnd("5px") == "5px";
    assert Radix("5px") == 10 && Unsigned("5px") == "5px";
    assert DigitRun("5px", 10) == 1 && "5px"[..1] == "5";
    assert DigitsValue("5", 10) == 5 by { assert "5"[..0] == ""; }
  }

  /** A number rendered as a decimal string converts back to itself: `Number(String(n)) == n`. */
  lemma NumberRendered(n: int)
    ensures ToNumber(Some(JStr(Text.IntToString(n)))) == Some(n)
  {
    var k: nat := if n < 0 then -n else n;
    DigitsRoundTrip(k);
    if n < 0 {
      WholeNegated(Text.NatToString(k));
    } else {
      WholeDigits(Text.NatToString(k));
    }
  }

  /** A non-empty string of decimal digits is read whole by `Number`. */
  lemma WholeDigits(m: string)
    requires |m| > 0 && forall i :: 0 <= i < |m| ==> IsDigit(m[i])
    ensures WholeNumeral(m) == Some(DigitsValue(m, 10))
  {
    DigitRunAll(m);
    assert IsDigit(m[0]) && IsDigit(m[|m| - 1]) && (|m| >= 2 ==> IsDigit(m[1]));
    ReadWhole(m);
  }

  /** The step of `WholeDigits` past the quantifier: digits at both ends and in second place. */
  lemma ReadWhole(m: string)
    requires |m| > 0 && DigitRun(m, 10) == |m|
    requires IsDigit(m[0]) && IsDigit(m[|m| - 1]) && (|m| >= 2 ==> IsDigit(m[1]))
    ensures WholeNumeral(m) == Some(DigitsValue(m, 10))
  {
    SpaceFree(m);
    DecimalRadix(m);
    assert Unsigned(m) == m && m[0] != '-';
  }

  /** A string that starts with two decimal digits has no radix prefix. */
  lemma DecimalRadix(t: string)
    requires |t| > 0 && IsDigit(t[0]) && (|t| >= 2 ==> IsDigit(t[1]))
    ensures Radix(t) == 10
  {
  }

  /** A minus sign before a non-empty string of decimal digits: `Number` negates its value. */
  lemma WholeNegated(m: string)
    requires |m| > 0 && forall i :: 0 <= i < |m| ==> IsDigit(m[i])
    ensures WholeNumeral("-" + m) == Some(-(DigitsValue(m, 10) as int))
  {
    DigitRunAll(m);
    assert IsDigit(m[|m| - 1]);
    ReadWholeNegated(m);
  }

  /** The step of `WholeNegated` past the quantifier. */
  lemma ReadWholeNegated(m: string)
    requires |m| > 0 && DigitRun(m, 10) == |m| && IsDigit(m[|m| - 1])
    ensures WholeNumeral("-" + m) == Some(-(DigitsValue(m, 10) as int))
  {
    var s := "-" + m;
    assert s[0] == '-' && s[|s| - 1] == m[|m| - 1] && s[1..] == m;
    SpaceFree(s);
    DecimalNumeral(s, m);
  }

  /** A literal with no radix prefix whose unsigned part `m` is all decimal digits is their signed value. */
  lemma DecimalNumeral(t: string, m: string)
    requires Radix(t) == 10 && Unsigned(t) == m && |m| > 0 && DigitRun(m, 10) == |m|
    ensures Numeral(t) == Some(Signed(t, DigitsValue(m, 10)))
  {
  }

  /** A string with no white space at either end is its own trim. */
  lemma SpaceFree(s: string)
    requires |s| > 0 && !IsSpace(s[0]) && !IsSpace(s[|s| - 1])
    ensures TrimEnd(TrimStart(s)) == s
  {
  }

  /**
   * `a < b` for a value `a` and a number `b`: `a` converted by `ToNumber`,
   * and false whenever that is NaN.
   */
  predicate LessThan(a: Option<Json>, b: int)
    ensures a.Some? && a.value.JNum? ==> (LessThan(a, b) <==> a.value.n < b)
    ensures ToNumber(a).None? ==> !LessThan(a, b)
  {
    var x := ToNumber(a);
    x.Some? && x.value < b
  }
}
