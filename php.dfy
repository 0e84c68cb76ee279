/**
 * The slice of the PHP and WordPress runtime that the plugin's logic leans on:
 * decoded JSON values, PHP truthiness, `isset` on an array key, `intval`,
 * integer-to-string conversion, `strtoupper` and `untrailingslashit`.
 */
module Php {

  datatype Option<+T> = None | Some(value: T)

  datatype Result<+T, +E> = Success(value: T) | Failure(error: E)

  /** A value as `json_decode($body, true)` yields it: JSON objects become keyed arrays. */
  datatype Json =
    | JNull
    | JBool(b: bool)
    | JInt(i: int)
    | JString(s: string)
    | JList(items: seq<Json>)
    | JObject(fields: map<string, Json>)

  /** `is_array($v)`: both JSON lists and JSON objects decode to PHP arrays. */
  predicate IsArray(v: Json)
  {
    v.JList? || v.JObject?
  }

  /** PHP's truth value of a string: every string but "" and "0" is true. */
  predicate TruthyString(s: string)
  {
    s != "" && s != "0"
  }

  /** PHP's truth value of a decoded value; `empty($v)` is its negation. */
  predicate Truthy(v: Json)
  {
    match v
    case JNull => false
    case JBool(b) => b
    case JInt(i) => i != 0
    case JString(s) => TruthyString(s)
    case JList(items) => |items| != 0
    case JObject(fields) => |fields| != 0
  }

  /** `isset($v[key]) ? $v[key] : …`: only a keyed array holding a non-null value at `key` has it set. */
  function Field(v: Json, key: string): Option<Json>
  {
    if v.JObject? && key in v.fields && v.fields[key] != JNull then Some(v.fields[key]) else None
  }

  // ---------------------------------------------------------------------------
  // intval and string conversion of integers
  // ---------------------------------------------------------------------------

  predicate IsDigit(c: char)
  {
    '0' <= c <= '9'
  }

  predicate AllDigits(s: string)
  {
    forall i :: 0 <= i < |s| ==> IsDigit(s[i])
  }

  /** The characters PHP skips before a number: space, \t, \n, \r, \v and \f. */
  predicate IsNumericSpace(c: char)
  {
    c == ' ' || c == '\t' || c == '\n' || c == '\r' || c == '\U{000B}' || c == '\U{000C}'
  }

  function SkipSpace(s: string): (r: string)
    ensures |r| <= |s| && r == s[|s| - |r|..]
    ensures r == [] || !IsNumericSpace(r[0])
  {
    if |s| > 0 && IsNumericSpace(s[0]) then SkipSpace(s[1..]) else s
  }

  /** The longest prefix of `s` made of decimal digits. */
  function LeadingDigits(s: string): (r: string)
    ensures r <= s && AllDigits(r)
    ensures |r| == |s| || !IsDigit(s[|r|])
  {
    if |s| > 0 && IsDigit(s[0]) then [s[0]] + LeadingDigits(s[1..]) else []
  }

  /** The value of a string of decimal digits, most significant digit first. */
  function DigitsValue(s: string): nat
    requires AllDigits(s)
  {
    if s == [] then 0 else 10 * DigitsValue(s[..|s| - 1]) + (s[|s| - 1] as int - '0' as int)
  }

  /** `intval($s)` on a string: optional leading white space and sign, then the leading decimal digits. */
  function StringIntVal(s: string): (n: int)
    ensures |s| > 0 && AllDigits(s) ==> n == DigitsValue(s)
    ensures |s| > 1 && s[0] == '-' && AllDigits(s[1..]) ==> n == -(DigitsValue(s[1..]) as int)
  {
    LeadingDigitsOfDigits(s);
    LeadingDigitsOfDigits(if |s| > 0 then s[1..] else s);
    var t := SkipSpace(s);
    if |t| > 0 && t[0] == '-' then -(DigitsValue(LeadingDigits(t[1..])) as int)
    else if |t| > 0 && t[0] == '+' then DigitsValue(LeadingDigits(t[1..]))
    else DigitsValue(LeadingDigits(t))
  }

  /** `intval($v)` on a decoded value. */
  function IntVal(v: Json): (n: int)
    ensures !Truthy(v) ==> n == 0
    ensures v.JInt? ==> n == v.i
  {
    match v
    case JNull => 0
    case JBool(b) => if b then 1 else 0
    case JInt(i) => i
    case JString(s) =>
      assert StringIntVal("") == 0 by {
        assert SkipSpace("") == "" && LeadingDigits("") == "";
      }
      StringIntVal(s)
    case JList(items) => if |items| == 0 then 0 else 1
    case JObject(fields) => if |fields| == 0 then 0 else 1
  }

  function DigitChar(d: nat): char
    requires d < 10
  {
    ('0' as int + d) as char
  }

  /** The decimal digits of a natural number, without leading zeros. */
  function NatToString(n: nat): (r: string)
    ensures |r| > 0 && AllDigits(r)
    ensures DigitsValue(r) == n
    ensures |r| > 1 ==> r[0] != '0'
  {
    if n < 10 then [DigitChar(n)]
    else
      var prefix := NatToString(n / 10);
      var r := prefix + [DigitChar(n % 10)];
      assert r[..|r| - 1] == prefix;
      r
  }

  /** PHP's `(string)$n` for an integer, as string concatenation and query arguments print it. */
  function IntToString(n: int): string
  {
    if n < 0 then "-" + NatToString(-n) else NatToString(n)
  }

  lemma {:induction false} LeadingDigitsOfDigits(s: string)
    ensures AllDigits(s) ==> LeadingDigits(s) == s
  {
    if |s| > 0 {
      LeadingDigitsOfDigits(s[1..]);
    }
  }

  /** `intval` reads back every integer that PHP printed: the round trip of query arguments and JSON strings. */
  lemma IntValOfIntToString(n: int)
    ensures StringIntVal(IntToString(n)) == n
  {
    var s := IntToString(n);
    if n < 0 {
      var digits := NatToString(-n);
      assert s[1..] == digits;
      LeadingDigitsOfDigits(digits);
    } else {
      LeadingDigitsOfDigits(s);
    }
  }

  // ---------------------------------------------------------------------------
  // strtoupper and untrailingslashit
  // ---------------------------------------------------------------------------

  predicate IsLower(c: char)
  {
    'a' <= c <= 'z'
  }

  predicate IsUpper(c: char)
  {
    'A' <= c <= 'Z'
  }

  /**
   * `strtoupper` on one character, ASCII letters only: PHP 8.2 and later ignore
   * the locale, and the passwords it is applied to hold ASCII letters and digits only.
   */
  function UpperChar(c: char): char
  {
    if IsLower(c) then (c as int - 32) as char else c
  }

  function StrToUpper(s: string): string
  {
    seq(|s|, i requires 0 <= i < |s| => UpperChar(s[i]))
  }

  predicate IsTrailingSlash(c: char)
  {
    c == '/' || c == '\\'
  }

  /**
   * `untrailingslashit`: strips every trailing forward slash and backslash.
   * The result is the longest prefix that does not end in one.
   */
  function Untrailingslashit(s: string): (r: string)
    ensures r <= s
    ensures r == [] || !IsTrailingSlash(r[|r| - 1])
    ensures forall i :: |r| <= i < |s| ==> IsTrailingSlash(s[i])
  {
    if |s| > 0 && IsTrailingSlash(s[|s| - 1]) then Untrailingslashit(s[..|s| - 1]) else s
  }

  lemma UntrailingslashitIdempotent(s: string)
    ensures Untrailingslashit(Untrailingslashit(s)) == Untrailingslashit(s)
  {
  }
}
