/** The JavaScript string operations the pages rely on, over `seq<char>`:
    ASCII `toLowerCase`, `includes`, `trim`, `replace(/\D/g, "")` and
    `parseInt` with no radix argument. */
module Strings {
  import opened Options
  import opened Sequences

  // ---------------------------------------------------------------- case

  predicate IsUpper(c: char) { 'A' <= c <= 'Z' }

  function LowerChar(c: char): char {
    if IsUpper(c) then (c as int + 32) as char else c
  }

  /** `toLowerCase`, restricted to the ASCII letters. */
  function Lower(s: string): (r: string)
    ensures |r| == |s|
    ensures forall i :: 0 <= i < |s| ==> r[i] == LowerChar(s[i])
    ensures forall i :: 0 <= i < |r| ==> !IsUpper(r[i])
  {
    seq(|s|, i requires 0 <= i < |s| => LowerChar(s[i]))
  }

  lemma LowerIdempotent(s: string)
    ensures Lower(Lower(s)) == Lower(s)
  {
  }

  // ---------------------------------------------------------- containment

  predicate StartsWith(s: string, p: string) {
    |p| <= |s| && s[..|p|] == p
  }

  /** `s.includes(p)`: `p` starts at some position of `s`. */
  predicate Contains(s: string, p: string)
    decreases |s|
  {
    StartsWith(s, p) || (s != [] && Contains(s[1..], p))
  }

  /** `p` occurs in `s` at position `i`. */
  predicate OccursAt(s: string, p: string, i: int) {
    0 <= i && i + |p| <= |s| && s[i..i + |p|] == p
  }

  /** `includes` agrees with its textbook definition: some slice of `s` is `p`. */
  lemma {:induction false} ContainsIff(s: string, p: string)
    ensures Contains(s, p) <==> exists i :: OccursAt(s, p, i)
  {
    if s == [] {
      if p == [] {
        assert OccursAt(s, p, 0);
      }
      if exists i :: OccursAt(s, p, i) {
        var i :| OccursAt(s, p, i);
        assert i == 0 && StartsWith(s, p);
      }
    } else {
      ContainsIff(s[1..], p);
      if StartsWith(s, p) {
        assert OccursAt(s, p, 0);
      } else if Contains(s[1..], p) {
        var i :| OccursAt(s[1..], p, i);
        assert s[i + 1..i + 1 + |p|] == s[1..][i..i + |p|];
        assert OccursAt(s, p, i + 1);
      } else if exists i :: OccursAt(s, p, i) {
        var i :| OccursAt(s, p, i);
        assert i != 0;
        assert s[1..][i - 1..i - 1 + |p|] == s[i..i + |p|];
        assert OccursAt(s[1..], p, i - 1);
      }
    }
  }

  /** A string that lacks the first character of `p` cannot contain `p`. */
  lemma {:induction false} FirstCharAbsent(s: string, p: string)
    requires p != [] && forall i :: 0 <= i < |s| ==> s[i] != p[0]
    ensures !Contains(s, p)
  {
    if s != [] {
      assert !StartsWith(s, p) by {
        if |p| <= |s| {
          assert s[..|p|][0] == s[0];
        }
      }
      FirstCharAbsent(s[1..], p);
    }
  }

  lemma EmptyIsContained(s: string)
    ensures Contains(s, "")
  {
  }

  // ----------------------------------------------------------------- trim

  /** The characters `String.prototype.trim` removes: the WhiteSpace and
      LineTerminator code points of ECMAScript (section 12.2 and 12.3 of
      ECMA-262). */
  predicate IsJsWhitespace(c: char) {
    c == '\t' || c == '\n' || c == '\U{000B}' || c == '\U{000C}' || c == '\r' ||
    c == ' ' || c == '\U{00A0}' || c == '\U{1680}' || ('\U{2000}' <= c <= '\U{200A}') ||
    c == '\U{2028}' || c == '\U{2029}' || c == '\U{202F}' || c == '\U{205F}' ||
    c == '\U{3000}' || c == '\U{FEFF}'
  }

  predicate AllWhitespace(s: string) {
    forall i :: 0 <= i < |s| ==> IsJsWhitespace(s[i])
  }

  /** How many whitespace characters begin `s`. */
  function LeadingSpace(s: string): (n: nat)
    ensures n <= |s|
    ensures forall i :: 0 <= i < n ==> IsJsWhitespace(s[i])
    ensures n < |s| ==> !IsJsWhitespace(s[n])
  {
    if s != [] && IsJsWhitespace(s[0]) then 1 + LeadingSpace(s[1..]) else 0
  }

  /** How many whitespace characters end `s`. */
  function TrailingSpace(s: string): (n: nat)
    ensures n <= |s|
    ensures forall i :: |s| - n <= i < |s| ==> IsJsWhitespace(s[i])
    ensures n < |s| ==> !IsJsWhitespace(s[|s| - 1 - n])
  {
    if s != [] && IsJsWhitespace(s[|s| - 1]) then 1 + TrailingSpace(s[..|s| - 1]) else 0
  }

  /** `trim`: drop the leading and the trailing whitespace. */
  function Trim(s: string): (r: string)
    ensures exists i, j :: 0 <= i <= j <= |s| && r == s[i..j] &&
                           AllWhitespace(s[..i]) && AllWhitespace(s[j..])
    ensures r == [] <==> AllWhitespace(s)
    ensures r != [] ==> !IsJsWhitespace(r[0]) && !IsJsWhitespace(r[|r| - 1])
  {
    var a := LeadingSpace(s);
    var t := s[a..];
    var b := |t| - TrailingSpace(t);
    assert t[..b] == s[a..a + b];
    assert AllWhitespace(s) ==> a == |s|;
    s[a..a + b]
  }

  /** A string that neither starts nor ends with whitespace is already trimmed. */
  lemma TrimFixed(s: string)
    requires s != [] ==> !IsJsWhitespace(s[0]) && !IsJsWhitespace(s[|s| - 1])
    ensures Trim(s) == s
  {
    if s != [] {
      assert LeadingSpace(s) == 0;
      assert s[0..] == s;
      assert TrailingSpace(s) == 0;
    }
  }

  /** A trimmed string trims to itself. */
  lemma TrimIdempotent(s: string)
    ensures Trim(Trim(s)) == Trim(s)
  {
    var r := Trim(s);
    if r != [] {
      assert LeadingSpace(r) == 0;
      assert TrailingSpace(r) == 0;
    }
  }

  // ----------------------------------------------------------- \D removal

  predicate IsDigit(c: char) { '0' <= c <= '9' }

  predicate AllDigits(s: string) {
    forall i :: 0 <= i < |s| ==> IsDigit(s[i])
  }

  /** `s.replace(/\D/g, "")`: keep the ASCII decimal digits only. */
  function Digits(s: string): (r: string)
    ensures AllDigits(r)
    ensures |r| <= |s|
  {
    Filter(IsDigit, s)
  }

  /** The cleaned phone holds exactly the digits of `s`, each as often as in
      `s`, in their original order, and nothing else. */
  lemma DigitsExactly(s: string)
    ensures IsSubsequence(Digits(s), s)
    ensures forall c :: multiset(Digits(s))[c] == if IsDigit(c) then multiset(s)[c] else 0
  {
    FilterIsSubsequence(IsDigit, s);
  }

  /** A string of digits is its own cleaned form; in particular stripping twice is stripping once. */
  lemma DigitsOfDigits(s: string)
    requires AllDigits(s)
    ensures Digits(s) == s
  {
    FilterOfAllKept(IsDigit, s);
  }

  lemma DigitsIdempotent(s: string)
    ensures Digits(Digits(s)) == Digits(s)
  {
    DigitsOfDigits(Digits(s));
  }

  // ------------------------------------------------------------- parseInt

  function HexValue(c: char): Option<nat> {
    if '0' <= c <= '9' then Some(c as int - '0' as int)
    else if 'a' <= c <= 'f' then Some(c as int - 'a' as int + 10)
    else if 'A' <= c <= 'F' then Some(c as int - 'A' as int + 10)
    else None
  }

  /** The value of `c` as a digit of `radix` (10 or 16), if it is one. */
  function DigitValue(c: char, radix: nat): (r: Option<nat>)
    requires radix == 10 || radix == 16
    ensures r.Some? ==> r.value < radix
  {
    match HexValue(c)
    case Some(v) => if v < radix then Some(v) else None
    case None => None
  }

  /** The length of the longest prefix of `s` made of digits of `radix`. */
  function DigitRun(s: string, radix: nat): (n: nat)
    requires radix == 10 || radix == 16
    ensures n <= |s|
    ensures forall i :: 0 <= i < n ==> DigitValue(s[i], radix).Some?
    ensures n < |s| ==> DigitValue(s[n], radix).None?
  {
    if s != [] && DigitValue(s[0], radix).Some? then 1 + DigitRun(s[1..], radix) else 0
  }

  /** The number that a string of digits of `radix` denotes. */
  function ValueOf(ds: string, radix: nat): nat
    requires radix == 10 || radix == 16
    requires forall i :: 0 <= i < |ds| ==> DigitValue(ds[i], radix).Some?
  {
    if ds == [] then 0
    else ValueOf(ds[..|ds| - 1], radix) * radix + DigitValue(ds[|ds| - 1], radix).value
  }

  /** Convert the longest run of digits of `radix` at the start of `body`;
      `None` when there is none. */
  function ParseRun(body: string, radix: nat): (r: Option<nat>)
    requires radix == 10 || radix == 16
    ensures r.None? <==> body == [] || DigitValue(body[0], radix).None?
  {
    var n := DigitRun(body, radix);
    if n == 0 then None else Some(ValueOf(body[..n], radix))
  }

  /** The unsigned part of `parseInt`: base 16 after "0x" or "0X", else base 10. */
  function ParseMagnitude(u: string): Option<nat> {
    if |u| >= 2 && u[0] == '0' && (u[1] == 'x' || u[1] == 'X') then ParseRun(u[2..], 16)
    else ParseRun(u, 10)
  }

  /** `parseInt(s)` with no radix (section 19.2.5 of ECMA-262): skip leading
      whitespace, read an optional sign, then the magnitude. `None` is `NaN`;
      a negative zero is the integer 0. */
  function ParseInt(s: string): (r: Option<int>)
    ensures AllWhitespace(s) ==> r.None?
  {
    var t := s[LeadingSpace(s)..];
    if t != [] && t[0] == '-' then
      match ParseMagnitude(t[1..])
      case Some(v) => Some(-(v as int))
      case None => None
    else if t != [] && t[0] == '+' then ParseMagnitude(t[1..])
    else ParseMagnitude(t)
  }

  /** The decimal numeral of `n`, without leading zeros (`String(n)`). */
  function Decimal(n: nat): (r: string)
    ensures r != [] && AllDigits(r)
  {
    if n < 10 then ['0' + n as char]
    else Decimal(n / 10) + ['0' + (n % 10) as char]
  }

  lemma {:induction false} DecimalValue(n: nat)
    ensures DigitRun(Decimal(n), 10) == |Decimal(n)|
    ensures ValueOf(Decimal(n), 10) == n
  {
    var d := Decimal(n);
    DigitRunOfDigits(d);
    if n >= 10 {
      DecimalValue(n / 10);
      assert d[..|d| - 1] == Decimal(n / 10);
    }
  }

  lemma {:induction false} DigitRunOfDigits(s: string)
    requires AllDigits(s)
    ensures DigitRun(s, 10) == |s|
  {
    if s != [] {
      DigitRunOfDigits(s[1..]);
    }
  }

  lemma ParseMagnitudeDecimal(n: nat)
    ensures ParseMagnitude(Decimal(n)) == Some(n)
  {
    var d := Decimal(n);
    DecimalValue(n);
    assert d[..|d|] == d;
    assert |d| >= 2 ==> IsDigit(d[1]);
  }

  /** `parseInt` reads back the numeral of every integer. */
  lemma ParseDecimal(n: nat)
    ensures ParseInt(Decimal(n)) == Some(n)
    ensures ParseInt("-" + Decimal(n)) == Some(-(n as int))
  {
    var d := Decimal(n);
    ParseMagnitudeDecimal(n);
    assert LeadingSpace(d) == 0 && d[0..] == d;
    var m := "-" + d;
    assert LeadingSpace(m) == 0 && m[0..] == m;
    assert m[1..] == d;
  }
}
