/** The JavaScript string built-ins the pages rely on, written out: the white-space
    class shared by `trim` and the regular-expression escape `\s`, `String.prototype.trim`,
    `String.prototype.includes`, `toLowerCase` (ASCII letters), the decimal text of a
    non-negative integer as a template literal renders it, and `parseInt` with its radix
    omitted (a NaN result is `None`). */
module JsText {
  import opened Types

  /** White space and line terminators as ECMAScript defines them. */
  predicate IsSpace(c: char) {
    || c == '\t' || c == '\n' || c == '\U{000B}' || c == '\U{000C}' || c == '\r'
    || c == ' ' || c == '\U{00A0}' || c == '\U{1680}'
    || ('\U{2000}' <= c <= '\U{200A}')
    || c == '\U{2028}' || c == '\U{2029}' || c == '\U{202F}' || c == '\U{205F}'
    || c == '\U{3000}' || c == '\U{FEFF}'
  }

  /** Every character of `s` is white space (the empty string included). */
  predicate IsBlank(s: string) {
    forall i | 0 <= i < |s| :: IsSpace(s[i])
  }

  /** How many white-space characters `s` starts with. */
  function LeadingSpaceCount(s: string): (n: nat)
    ensures n <= |s|
    ensures forall i | 0 <= i < n :: IsSpace(s[i])
    ensures n < |s| ==> !IsSpace(s[n])
  {
    if s == [] || !IsSpace(s[0]) then 0 else 1 + LeadingSpaceCount(s[1..])
  }

  /** How many white-space characters `s` ends with. */
  function TrailingSpaceCount(s: string): (n: nat)
    ensures n <= |s|
    ensures forall i | |s| - n <= i < |s| :: IsSpace(s[i])
    ensures n < |s| ==> !IsSpace(s[|s| - 1 - n])
  {
    if s == [] || !IsSpace(s[|s| - 1]) then 0 else 1 + TrailingSpaceCount(s[..|s| - 1])
  }

  /** `s` without its leading white space (`String.prototype.trimStart`). */
  function TrimStart(s: string): (r: string)
  {
    s[LeadingSpaceCount(s)..]
  }

  /** `String.prototype.trim`: `s` without its leading and trailing white space. */
  function Trim(s: string): (r: string)
    ensures |r| <= |s|
    ensures r != [] ==> !IsSpace(r[0]) && !IsSpace(r[|r| - 1])
  {
    var t := TrimStart(s);
    t[..|t| - TrailingSpaceCount(t)]
  }

  /** `s.trim()` is the empty string exactly when `s` is blank. */
  lemma {:induction false} TrimEmptyIffBlank(s: string)
    ensures Trim(s) == [] <==> IsBlank(s)
  {
    var n := LeadingSpaceCount(s);
    var t := TrimStart(s);
    if IsBlank(s) {
      assert n == |s|;
    }
    if Trim(s) == [] {
      assert TrailingSpaceCount(t) == |t|;
      BlankAfterBlankPrefix(s, n);
    }
  }

  /** A string whose first `n` characters and whose rest are blank is blank. */
  lemma BlankAfterBlankPrefix(s: string, n: nat)
    requires n <= |s|
    requires forall i | 0 <= i < n :: IsSpace(s[i])
    requires IsBlank(s[n..])
    ensures IsBlank(s)
  {
    forall i | n <= i < |s| ensures IsSpace(s[i]) {
      assert s[i] == s[n..][i - n];
    }
  }

  /** `s.includes(t)`: `t` occurs in `s` as a contiguous substring. */
  predicate Contains(s: string, t: string)
    ensures Contains(s, t) ==> |t| <= |s|
  {
    exists k | 0 <= k <= |s| - |t| :: OccursAt(s, t, k)
  }

  /** `t` occurs in `s` starting at index `k`. */
  predicate OccursAt(s: string, t: string, k: int) {
    0 <= k && k + |t| <= |s| && s[k..k + |t|] == t
  }

  /** A needle holding a character the haystack lacks does not occur in it. */
  lemma {:induction false} NotContainedWhenCharMissing(s: string, t: string, c: char)
    requires c in t && c !in s
    ensures !Contains(s, t)
  {
    var j :| 0 <= j < |t| && t[j] == c;
    forall k | 0 <= k <= |s| - |t| ensures !OccursAt(s, t, k) {
      assert s[k..k + |t|][j] == s[k + j];
    }
  }

  /** `toLowerCase` on one character; only the ASCII letters A-Z are mapped. */
  function LowerChar(c: char): (d: char)
    ensures !('A' <= d <= 'Z')
    ensures !('A' <= c <= 'Z') ==> d == c
    ensures 'A' <= c <= 'Z' ==> d as int == c as int + 32
  {
    if 'A' <= c <= 'Z' then (c as int + 32) as char else c
  }

  /** `s.toLowerCase()`, character by character. */
  function ToLower(s: string): (r: string)
    ensures |r| == |s|
    ensures forall i | 0 <= i < |s| :: r[i] == LowerChar(s[i])
  {
    if s == [] then [] else [LowerChar(s[0])] + ToLower(s[1..])
  }

  /** Lowercasing twice is lowercasing once. */
  lemma ToLowerIdempotent(s: string)
    ensures ToLower(ToLower(s)) == ToLower(s)
  {
    assert forall i | 0 <= i < |s| :: ToLower(ToLower(s))[i] == ToLower(s)[i];
  }

  predicate IsDecimalDigit(c: char) {
    '0' <= c <= '9'
  }

  predicate AllDecimalDigits(s: string) {
    forall i | 0 <= i < |s| :: IsDecimalDigit(s[i])
  }

  function DigitChar(d: int): (c: char)
    requires 0 <= d < 10
    ensures IsDecimalDigit(c) && c as int - '0' as int == d
  {
    ('0' as int + d) as char
  }

  /** The text of a non-negative integer as `${n}` renders it: decimal digits,
      no sign, no leading zero except for 0 itself. */
  function DecimalString(n: nat): (s: string)
    ensures |s| >= 1 && AllDecimalDigits(s)
    ensures n >= 10 ==> |s| >= 2
    decreases n
  {
    if n < 10 then [DigitChar(n)] else DecimalString(n / 10) + [DigitChar(n % 10)]
  }

  /** The value of `c` as a digit of `radix` (10 or 16), or `None`. */
  function DigitValue(c: char, radix: int): (v: Option<int>)
    requires radix == 10 || radix == 16
    ensures v.Some? ==> 0 <= v.value < radix
    ensures radix == 10 ==> (v.Some? <==> IsDecimalDigit(c))
    ensures radix == 10 && IsDecimalDigit(c) ==> v == Some(c as int - '0' as int)
  {
    if '0' <= c <= '9' then Some(c as int - '0' as int)
    else if radix == 16 && 'a' <= c <= 'f' then Some(c as int - 'a' as int + 10)
    else if radix == 16 && 'A' <= c <= 'F' then Some(c as int - 'A' as int + 10)
    else None
  }

  /** Length of the longest prefix of `s` made of `radix` digits. */
  function DigitPrefixLength(s: string, radix: int): (n: nat)
    requires radix == 10 || radix == 16
    ensures n <= |s|
    ensures forall i | 0 <= i < n :: DigitValue(s[i], radix).Some?
    ensures n < |s| ==> DigitValue(s[n], radix).None?
  {
    if s == [] || DigitValue(s[0], radix).None? then 0
    else 1 + DigitPrefixLength(s[1..], radix)
  }

  /** The value of a string of `radix` digits, most significant first. */
  function DigitsValue(s: string, radix: int): (v: nat)
    requires radix == 10 || radix == 16
    requires forall i | 0 <= i < |s| :: DigitValue(s[i], radix).Some?
  {
    if s == [] then 0
    else DigitsValue(s[..|s| - 1], radix) * radix + DigitValue(s[|s| - 1], radix).value
  }

  /** `parseInt(s)`: skip leading white space, read an optional sign, then the digits. */
  function ParseInt(s: string): (r: Option<int>)
    ensures TrimStart(s) == [] ==> r.None?
    ensures r.Some? && r.value < 0 ==> TrimStart(s)[0] == '-'
    ensures var t := TrimStart(s);
            |t| > 0 && IsDecimalDigit(t[0]) && !(|t| >= 2 && (t[1] == 'x' || t[1] == 'X'))
            ==> r.Some? && r.value >= 0
  {
    var t := TrimStart(s);
    if |t| > 0 && t[0] == '-' then
      match ParseUnsigned(t[1..])
      case None => None
      case Some(v) => Some(-(v as int))
    else if |t| > 0 && t[0] == '+' then ParseUnsigned(t[1..])
    else ParseUnsigned(t)
  }

  /** The digits after the sign: a `0x` or `0X` prefix switches to radix 16. */
  function ParseUnsigned(u: string): (r: Option<nat>)
  {
    if |u| >= 2 && u[0] == '0' && (u[1] == 'x' || u[1] == 'X') then ParseDigits(u[2..], 16)
    else ParseDigits(u, 10)
  }

  /** The longest run of `radix` digits at the start of `b`; no digit at all is NaN,
      here `None`. */
  function ParseDigits(b: string, radix: int): (r: Option<nat>)
    requires radix == 10 || radix == 16
    ensures r.None? <==> (b == [] || DigitValue(b[0], radix).None?)
  {
    var digits := b[..DigitPrefixLength(b, radix)];
    if digits == [] then None else Some(DigitsValue(digits, radix))
  }

  /** Decimal digits are read back as the number they spell. */
  lemma {:induction false} DecimalStringValue(n: nat)
    ensures DigitsValue(DecimalString(n), 10) == n
    decreases n
  {
    var s := DecimalString(n);
    if n >= 10 {
      DecimalStringValue(n / 10);
      assert s[..|s| - 1] == DecimalString(n / 10);
    }
  }

  /** A string made only of decimal digits is its own longest digit prefix. */
  lemma {:induction false} DigitPrefixOfDigits(s: string)
    requires AllDecimalDigits(s)
    ensures DigitPrefixLength(s, 10) == |s|
  {
    if s != [] {
      DigitPrefixOfDigits(s[1..]);
    }
  }

  /** Rendering a non-negative integer and parsing it back gives the integer. */
  lemma ParseIntOfDecimalString(n: nat)
    ensures ParseInt(DecimalString(n)) == Some(n)
  {
    var s := DecimalString(n);
    assert IsDecimalDigit(s[0]);
    assert LeadingSpaceCount(s) == 0;
    assert TrimStart(s) == s;
    assert |s| >= 2 ==> IsDecimalDigit(s[1]);
    assert ParseUnsigned(s) == ParseDigits(s, 10);
    DigitPrefixOfDigits(s);
    assert s[..DigitPrefixLength(s, 10)] == s;
    DecimalStringValue(n);
  }

  /** What a template literal prints for a value that may be `undefined`. */
  function TemplateText(v: Option<string>): (t: string)
    ensures v.Some? ==> t == v.value
    ensures v.None? ==> t == "undefined"
  {
    if v.Some? then v.value else "undefined"
  }

  /** The truthiness of a value that may be `undefined`: the empty string is falsy too. */
  predicate Truthy(v: Option<string>) {
    v.Some? && v.value != ""
  }

  /** Index of the first character of `s` that is in `stops`, or `|s|` when there is none
      (`indexOf` for one stop character). */
  function Find(s: string, stops: set<char>): (k: nat)
    ensures k <= |s|
    ensures forall j | 0 <= j < k :: s[j] !in stops
    ensures k < |s| ==> s[k] in stops
  {
    if s == [] || s[0] in stops then 0 else 1 + Find(s[1..], stops)
  }

  /** A prefix free of stop characters is skipped whole: the search goes on in what follows. */
  lemma FindAfterPlainPrefix(a: string, b: string, stops: set<char>)
    requires forall j | 0 <= j < |a| :: a[j] !in stops
    ensures Find(a + b, stops) == |a| + Find(b, stops)
  {
    assert forall j | 0 <= j < |a| :: (a + b)[j] == a[j];
    assert forall j | 0 <= j < |b| :: (a + b)[|a| + j] == b[j];
  }
}
