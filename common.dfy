/**
 * Values and JavaScript semantics shared by every module of the model:
 * optional values and results, the string operations the handlers use
 * (`trim`, `includes`, `startsWith`, `split(':')[0]`), `parseInt` and
 * `Number` on strings, decimal printing, and parsed JSON with truthiness,
 * property access and object spread.
 */
module Common {

  datatype Option<T> = None | Some(value: T)

  datatype Result<T> = Ok(value: T) | Err(error: string)

  // ---------------------------------------------------------------------
  // Strings
  // ---------------------------------------------------------------------

  /** White space and line terminators that String.prototype.trim removes
    * (sections 12.2 and 12.3 of ECMA-262). */
  predicate IsJsWhitespace(c: char)
  {
    c in {'\t', '\n', '\U{000B}', '\U{000C}', '\r', ' ', '\U{00A0}', '\U{1680}',
          '\U{2000}', '\U{2001}', '\U{2002}', '\U{2003}', '\U{2004}', '\U{2005}',
          '\U{2006}', '\U{2007}', '\U{2008}', '\U{2009}', '\U{200A}', '\U{2028}',
          '\U{2029}', '\U{202F}', '\U{205F}', '\U{3000}', '\U{FEFF}'}
  }

  /** Every character is white space (so `!s.trim()` holds). */
  predicate IsBlank(s: string)
  {
    forall i :: 0 <= i < |s| ==> IsJsWhitespace(s[i])
  }

  /** String.prototype.trimStart: drops the leading white space, keeps the rest. */
  function TrimStart(s: string): (r: string)
    ensures |r| <= |s| && r == s[|s| - |r|..]
    ensures IsBlank(s[..|s| - |r|])
    ensures r != [] ==> !IsJsWhitespace(r[0])
  {
    if |s| > 0 && IsJsWhitespace(s[0]) then TrimStart(s[1..]) else s
  }

  /** String.prototype.trimEnd: drops the trailing white space, keeps the rest. */
  function TrimEnd(s: string): (r: string)
    ensures r <= s
    ensures IsBlank(s[|r|..])
    ensures r != [] ==> !IsJsWhitespace(r[|r| - 1])
  {
    if |s| > 0 && IsJsWhitespace(s[|s| - 1]) then TrimEnd(s[..|s| - 1]) else s
  }

  /** String.prototype.trim. */
  function Trim(s: string): (r: string)
  {
    TrimEnd(TrimStart(s))
  }

  /** `s.trim()` is empty exactly when `s` is all white space, and a trimmed
    * string neither starts nor ends with white space. */
  lemma TrimProperties(s: string)
    ensures Trim(s) == "" <==> IsBlank(s)
    ensures Trim(s) != "" ==> !IsJsWhitespace(Trim(s)[0]) && !IsJsWhitespace(Trim(s)[|Trim(s)| - 1])
  {
    var t := TrimStart(s);
    var u := TrimEnd(t);
    if u == "" {
      assert IsBlank(t[|u|..]);
      assert t[|u|..] == t;
      assert t == "";
      forall i | 0 <= i < |s| ensures IsJsWhitespace(s[i]) {
        assert s[..|s| - |t|][i] == s[i];
      }
    } else {
      assert u[0] == t[0];
    }
  }

  /** A trimmed string is its own trim. */
  lemma TrimIdempotent(s: string)
    ensures Trim(Trim(s)) == Trim(s)
  {
    TrimProperties(s);
    var t := Trim(s);
    if t != "" {
      assert TrimStart(t) == t;
      assert TrimEnd(t) == t;
    }
  }

  /** String.prototype.startsWith. */
  predicate StartsWith(s: string, prefix: string)
  {
    prefix <= s
  }

  /** String.prototype.includes. */
  predicate Contains(s: string, sub: string)
    decreases |s|
  {
    StartsWith(s, sub) || (|s| > 0 && Contains(s[1..], sub))
  }

  /** `s.split(':')[0]`: the text before the first colon, or all of `s`. */
  function BeforeColon(s: string): (r: string)
    ensures r <= s && ':' !in r
    ensures |r| < |s| ==> s[|r|] == ':'
  {
    if |s| == 0 || s[0] == ':' then "" else [s[0]] + BeforeColon(s[1..])
  }

  // ---------------------------------------------------------------------
  // Digits and decimal printing
  // ---------------------------------------------------------------------

  predicate IsDigit(c: char)
  {
    '0' <= c <= '9'
  }

  predicate AllDigits(s: string)
  {
    forall i :: 0 <= i < |s| ==> IsDigit(s[i])
  }

  function DigitValue(c: char): (d: nat)
    requires IsDigit(c)
    ensures d < 10
  {
    (c as int) - ('0' as int)
  }

  function DigitChar(d: nat): (c: char)
    requires d < 10
    ensures IsDigit(c) && DigitValue(c) == d
  {
    (('0' as int) + d) as char
  }

  /** The value of a string of decimal digits, most significant first. */
  function DigitsValue(s: string): nat
    requires AllDigits(s)
  {
    if |s| == 0 then 0 else 10 * DigitsValue(s[..|s| - 1]) + DigitValue(s[|s| - 1])
  }

  /** `String(n)` for a natural number: its shortest decimal form. */
  function NatToString(n: nat): (r: string)
    ensures |r| >= 1 && AllDigits(r)
    ensures n > 0 ==> r[0] != '0'
  {
    if n < 10 then [DigitChar(n)] else NatToString(n / 10) + [DigitChar(n % 10)]
  }

  /** `String(i)` for an integer. */
  function IntToString(i: int): string
  {
    if i < 0 then "-" + NatToString(-i) else NatToString(i)
  }

  /** Reading back a printed natural number gives the number. */
  lemma {:induction false} NatToStringRoundTrip(n: nat)
    ensures DigitsValue(NatToString(n)) == n
  {
    if n >= 10 {
      NatToStringRoundTrip(n / 10);
      var s := NatToString(n);
      assert s[..|s| - 1] == NatToString(n / 10);
    }
  }

  /** Printing is injective: different numbers print differently. */
  lemma NatToStringInjective(m: nat, n: nat)
    ensures NatToString(m) == NatToString(n) ==> m == n
  {
    NatToStringRoundTrip(m);
    NatToStringRoundTrip(n);
  }

  // ---------------------------------------------------------------------
  // parseInt and Number
  // ---------------------------------------------------------------------

  /** The longest prefix of `s` made of decimal digits. */
  function LeadingDigits(s: string): (r: string)
    ensures r <= s && AllDigits(r)
    ensures |r| < |s| ==> !IsDigit(s[|r|])
  {
    if |s| > 0 && IsDigit(s[0]) then [s[0]] + LeadingDigits(s[1..]) else ""
  }

  predicate IsHexDigit(c: char)
  {
    IsDigit(c) || 'a' <= c <= 'f' || 'A' <= c <= 'F'
  }

  function HexDigitValue(c: char): nat
    requires IsHexDigit(c)
  {
    if IsDigit(c) then DigitValue(c)
    else if 'a' <= c <= 'f' then 10 + ((c as int) - ('a' as int))
    else 10 + ((c as int) - ('A' as int))
  }

  /** The longest prefix of `s` made of hexadecimal digits. */
  function LeadingHexDigits(s: string): (r: string)
    ensures r <= s
    ensures forall i :: 0 <= i < |r| ==> IsHexDigit(r[i])
    ensures |r| < |s| ==> !IsHexDigit(s[|r|])
  {
    if |s| > 0 && IsHexDigit(s[0]) then [s[0]] + LeadingHexDigits(s[1..]) else ""
  }

  function HexValue(s: string): nat
    requires forall i :: 0 <= i < |s| ==> IsHexDigit(s[i])
  {
    if |s| == 0 then 0 else 16 * HexValue(s[..|s| - 1]) + HexDigitValue(s[|s| - 1])
  }

  function Signed(negative: bool, magnitude: nat): int
  {
    if negative then -(magnitude as int) else magnitude
  }

  /** The global `parseInt(s)` with no radix: leading white space is skipped,
    * one sign is read, a `0x`/`0X` prefix selects base 16, and the longest
    * run of digits that follows is the value. No digits at all gives NaN,
    * written `None`. */
  function ParseInt(s: string): Option<int>
  {
    var t := TrimStart(s);
    var negative := |t| > 0 && t[0] == '-';
    var u := if |t| > 0 && (t[0] == '-' || t[0] == '+') then t[1..] else t;
    if |u| >= 2 && u[0] == '0' && (u[1] == 'x' || u[1] == 'X') then
      var h := LeadingHexDigits(u[2..]);
      if h == "" then None else Some(Signed(negative, HexValue(h)))
    else
      var d := LeadingDigits(u);
      if d == "" then None else Some(DigitsValueSigned(negative, d))
  }

  function DigitsValueSigned(negative: bool, d: string): int
    requires AllDigits(d)
  {
    Signed(negative, DigitsValue(d))
  }

  /** `parseInt` of a string that starts with a run of decimal digits
    * reads exactly that run, whatever non-digit follows it (an `x` after a
    * lone `0` would make it hexadecimal). */
  lemma ParseIntLeadingDigits(d: string, rest: string)
    requires d != "" && AllDigits(d)
    requires rest == "" || !(IsDigit(rest[0]) || rest[0] == 'x' || rest[0] == 'X')
    ensures ParseInt(d + rest) == Some(DigitsValue(d))
  {
    var s := d + rest;
    assert s[0] == d[0];
    assert !IsJsWhitespace(s[0]);
    assert TrimStart(s) == s;
    assert s[0] != '-' && s[0] != '+';
    assert !(|s| >= 2 && s[0] == '0' && (s[1] == 'x' || s[1] == 'X')) by {
      if |s| >= 2 {
        if |d| >= 2 { assert s[1] == d[1]; } else { assert s[1] == rest[0]; }
      }
    }
    LeadingDigitsOf(d, rest);
    assert ParseInt(s) == Some(DigitsValueSigned(false, d));
  }

  lemma {:induction false} LeadingDigitsOf(d: string, rest: string)
    requires AllDigits(d)
    requires rest == "" || !IsDigit(rest[0])
    ensures LeadingDigits(d + rest) == d
  {
    if d != "" {
      assert (d + rest)[1..] == d[1..] + rest;
      LeadingDigitsOf(d[1..], rest);
    } else {
      assert d + rest == rest;
    }
  }

  /** `parseInt` reads back what `String(n)` printed. */
  lemma ParseIntOfNatToString(n: nat, rest: string)
    requires rest == "" || !(IsDigit(rest[0]) || rest[0] == 'x' || rest[0] == 'X')
    ensures ParseInt(NatToString(n) + rest) == Some(n)
  {
    ParseIntLeadingDigits(NatToString(n), rest);
    NatToStringRoundTrip(n);
  }

  /** `Number(s)` on the integer forms: the trimmed string is empty (0), or
    * an optional sign followed by decimal digits. Every other string is
    * read as NaN, written `None`. */
  function NumberValue(s: string): Option<int>
  {
    var t := Trim(s);
    if t == "" then Some(0)
    else if t[0] == '-' || t[0] == '+' then
      var u := t[1..];
      if u != "" && AllDigits(u) then Some(DigitsValueSigned(t[0] == '-', u)) else None
    else if AllDigits(t) then Some(DigitsValue(t))
    else None
  }

  /** `Number` reads back what `String(n)` printed. */
  lemma NumberValueOfNatToString(n: nat)
    ensures NumberValue(NatToString(n)) == Some(n)
  {
    NumberValueOfDigits(NatToString(n));
    NatToStringRoundTrip(n);
  }

  /** `Number` of a non-empty run of decimal digits is its value. */
  lemma NumberValueOfDigits(s: string)
    requires s != "" && AllDigits(s)
    ensures NumberValue(s) == Some(DigitsValue(s))
  {
    TrimOfDigits(s);
    assert IsDigit(s[0]);
  }

  /** A digit is not white space. */
  lemma DigitIsNotWhitespace(c: char)
    requires IsDigit(c)
    ensures !IsJsWhitespace(c)
  {
  }

  /** Trimming a string of digits leaves it as it is. */
  lemma TrimOfDigits(s: string)
    requires AllDigits(s)
    ensures Trim(s) == s
  {
    if |s| > 0 {
      DigitIsNotWhitespace(s[0]);
      assert TrimStart(s) == s;
      DigitIsNotWhitespace(s[|s| - 1]);
      assert TrimEnd(s) == s;
    }
  }

  // ---------------------------------------------------------------------
  // Parsed JSON
  // ---------------------------------------------------------------------

  /** A value produced by JSON.parse. Numbers are reals: JSON has no NaN. */
  datatype Json =
    | JNull
    | JBool(b: bool)
    | JNum(n: real)
    | JStr(s: string)
    | JArr(items: seq<Json>)
    | JObj(fields: map<string, Json>)

  /** JavaScript truthiness: null, false, 0 and "" are falsy. */
  predicate Truthy(j: Json)
  {
    match j
    case JNull => false
    case JBool(b) => b
    case JNum(n) => n != 0.0
    case JStr(s) => s != ""
    case JArr(_) => true
    case JObj(_) => true
  }

  /** `j[key]` for a key that is not an array index nor `length`: the field
    * of an object, `undefined` (None) for every other non-null value. On
    * null the access throws a TypeError (Err). */
  function Member(j: Json, key: string): (r: Result<Option<Json>>)
    ensures r.Err? <==> j.JNull?
    ensures r == Ok(None) <==> !j.JNull? && !(j.JObj? && key in j.fields)
  {
    match j
    case JNull => Err("TypeError: Cannot read properties of null")
    case JObj(m) => if key in m then Ok(Some(m[key])) else Ok(None)
    case _ => Ok(None)
  }

  /** The own enumerable properties `{...j}` copies: an object's fields, the
    * indices of an array or string, nothing for null, booleans and numbers. */
  function Spread(j: Json): map<string, Json>
  {
    match j
    case JObj(m) => m
    case JArr(a) => IndexMap(a)
    case JStr(s) => IndexMap(seq(|s|, i requires 0 <= i < |s| => JStr([s[i]])))
    case _ => map[]
  }

  function IndexMap(a: seq<Json>): map<string, Json>
  {
    if |a| == 0 then map[] else IndexMap(a[..|a| - 1])[NatToString(|a| - 1) := a[|a| - 1]]
  }

  /** `Object.keys(j)`, as a set: the model does not keep their order. */
  function Keys(j: Json): set<string>
  {
    Spread(j).Keys
  }

  /** `{ ...base, ...patch }` of two spread objects: the patch's keys win,
    * the base's other keys stay. */
  function Overlay(base: map<string, Json>, patch: map<string, Json>): (r: map<string, Json>)
    ensures r.Keys == base.Keys + patch.Keys
    ensures forall k :: k in patch ==> r[k] == patch[k]
    ensures forall k :: k in base && k !in patch ==> r[k] == base[k]
  {
    base + patch
  }

  /** `session?.userId` or `user?.id` is truthy: a user is signed in. */
  predicate SignedIn(userId: Option<string>)
  {
    userId.Some? && userId.value != ""
  }

  // ---------------------------------------------------------------------
  // Dates
  // ---------------------------------------------------------------------

  /** The current time as `new Date()` gives it: the time value of today's
    * local midnight and the seconds and milliseconds of the current minute. */
  datatype Clock = Clock(midnight: int, subMinute: nat)

  /** `new Date().setHours(h, m)`: today at h:m, the seconds and milliseconds
    * of the current time kept. Time zones and daylight saving are not
    * modelled. */
  function At(c: Clock, h: nat, m: nat): int
  {
    c.midnight + h * 3600000 + m * 60000 + c.subMinute
  }
}
