/**
 * The fragment of PHP's value semantics that the sitemap module relies on:
 * scalar values, `empty()`, loose comparison `==`, numeric strings,
 * string conversion, `str_replace`, and insertion-ordered arrays.
 * PHP floats are not modelled; a fractional number is carried as the numeric
 * string that the forms submit (for example "0.5").
 */
module Php {
  import opened Wrappers

  /** A PHP scalar as stored in configuration and form values. */
  datatype Value = Null | Bool(b: bool) | Int(i: int) | Str(s: string)

  /** PHP `empty()` on a string: "" and "0" are empty. */
  predicate StrEmpty(s: string) {
    s == "" || s == "0"
  }

  /** PHP `empty()` on a value (a missing array key reads as NULL). */
  predicate Empty(v: Value) {
    match v
    case Null => true
    case Bool(b) => !b
    case Int(i) => i == 0
    case Str(s) => StrEmpty(s)
  }

  /** PHP's truthiness, the negation of `empty()`. */
  predicate Truthy(v: Value) {
    !Empty(v)
  }

  // ---------------------------------------------------------------------
  // Decimal digits

  predicate IsDigit(c: char) {
    '0' <= c <= '9'
  }

  predicate AllDigits(s: string) {
    forall i :: 0 <= i < |s| ==> IsDigit(s[i])
  }

  function DigitChar(d: nat): (c: char)
    requires d < 10
    ensures IsDigit(c) && (c as int) - ('0' as int) == d
  {
    (('0' as int) + d) as char
  }

  function DigitsValue(s: string): nat
    requires AllDigits(s)
  {
    if s == [] then 0
    else DigitsValue(s[..|s| - 1]) * 10 + ((s[|s| - 1] as int) - ('0' as int))
  }

  /** Decimal rendering of a natural number, without leading zeros. */
  function NatToString(n: nat): (r: string)
    ensures |r| > 0 && AllDigits(r)
  {
    if n < 10 then [DigitChar(n)] else NatToString(n / 10) + [DigitChar(n % 10)]
  }

  /** Reading back a rendered number gives the number. */
  lemma {:induction false} NatToStringRoundTrip(n: nat)
    ensures DigitsValue(NatToString(n)) == n
  {
    var s := NatToString(n);
    if n >= 10 {
      NatToStringRoundTrip(n / 10);
      assert s[..|s| - 1] == NatToString(n / 10);
    }
  }

  /** PHP's string conversion of an integer. */
  function IntToString(i: int): string {
    if i < 0 then "-" + NatToString(-i) else NatToString(i)
  }

  /** The position of the first '.', or |s| when there is none. */
  function IndexOfDot(s: string): (k: nat)
    ensures k <= |s|
    ensures forall j :: 0 <= j < k ==> s[j] != '.'
    ensures k < |s| ==> s[k] == '.'
  {
    if s == [] then 0 else if s[0] == '.' then 0 else 1 + IndexOfDot(s[1..])
  }

  function Pow10(n: nat): (r: nat)
    ensures r > 0
  {
    if n == 0 then 1 else 10 * Pow10(n - 1)
  }

  /** A decimal mantissa "12", "12.5", "12." or ".5"; None if not of that form. */
  function ParseMantissa(s: string): Option<real> {
    var k := IndexOfDot(s);
    MantissaValue(s[..k], if k < |s| then s[k + 1..] else "")
  }

  /** The value of a whole part and a fraction, at least one of them non-empty. */
  function MantissaValue(ip: string, fp: string): Option<real> {
    if AllDigits(ip) && AllDigits(fp) && (|ip| > 0 || |fp| > 0)
    then Some(DigitsValue(ip) as real + (DigitsValue(fp) as real) / (Pow10(|fp|) as real))
    else None
  }

  /** The position of the first 'e' or 'E', or |s| when there is none. */
  function IndexOfExp(s: string): (k: nat)
    ensures k <= |s|
    ensures forall j :: 0 <= j < k ==> s[j] != 'e' && s[j] != 'E'
    ensures k < |s| ==> s[k] == 'e' || s[k] == 'E'
  {
    if s == [] then 0 else if s[0] == 'e' || s[0] == 'E' then 0 else 1 + IndexOfExp(s[1..])
  }

  /** An exponent: an optional sign followed by at least one digit. */
  function ParseExponent(s: string): Option<int> {
    if |s| > 0 && (s[0] == '-' || s[0] == '+') then
      if |s| > 1 && AllDigits(s[1..]) then
        var d: int := DigitsValue(s[1..]);
        Some(if s[0] == '-' then -d else d)
      else None
    else if |s| > 0 && AllDigits(s) then Some(DigitsValue(s))
    else None
  }

  /** m · 10^e. */
  function Scale(m: real, e: int): real {
    if e >= 0 then m * (Pow10(e) as real) else m / (Pow10(-e) as real)
  }

  /** An unsigned number: a mantissa with an optional exponent ("1.5", "1e3", ".5E-2"). */
  function ParseUnsigned(s: string): Option<real> {
    var k := IndexOfExp(s);
    match ParseMantissa(s[..k])
    case None => None
    case Some(m) =>
      if k == |s| then Some(m)
      else match ParseExponent(s[k + 1..])
        case None => None
        case Some(e) => Some(Scale(m, e))
  }

  /** The whitespace PHP skips in front of a numeric string. */
  predicate IsWhitespace(c: char) {
    c == ' ' || c == '\t' || c == '\n' || c == '\r' || c as int == 11 || c as int == 12
  }

  function TrimLeadingWhitespace(s: string): (r: string)
    ensures |r| <= |s|
    ensures |r| > 0 ==> !IsWhitespace(r[0])
    decreases |s|
  {
    if |s| > 0 && IsWhitespace(s[0]) then TrimLeadingWhitespace(s[1..]) else s
  }

  /**
   * The numeric value of a numeric string in PHP 7: leading whitespace, an
   * optional sign and an unsigned number with an optional exponent. Trailing
   * whitespace makes a string non-numeric (as in PHP 7, unlike PHP 8).
   */
  function ParseDecimal(s: string): Option<real> {
    var t := TrimLeadingWhitespace(s);
    if |t| > 0 && t[0] == '-' then
      match ParseUnsigned(t[1..])
      case Some(r) => Some(-r)
      case None => None
    else if |t| > 0 && t[0] == '+' then ParseUnsigned(t[1..])
    else ParseUnsigned(t)
  }

  /** A string of digits and points only has no exponent and no leading whitespace. */
  lemma PlainDecimal(s: string)
    requires forall i :: 0 <= i < |s| ==> IsDigit(s[i]) || s[i] == '.'
    ensures IndexOfExp(s) == |s|
    ensures |s| > 0 ==> TrimLeadingWhitespace(s) == s
  {
    NoExpIndex(s);
    if s != [] {
      assert !IsWhitespace(s[0]);
    }
  }

  /** A plain mantissa that starts with a digit is read as its mantissa. */
  lemma ParsePlain(s: string)
    requires |s| > 0 && IsDigit(s[0])
    requires forall i :: 0 <= i < |s| ==> IsDigit(s[i]) || s[i] == '.'
    ensures ParseDecimal(s) == ParseMantissa(s)
  {
    PlainDecimal(s);
    assert s[..|s|] == s;
  }

  /** Digits, a point and digits are read as a whole part and a fraction. */
  lemma MantissaWithFraction(ip: string, fp: string)
    requires AllDigits(ip) && AllDigits(fp) && |ip| > 0
    ensures ParseMantissa(ip + "." + fp) == MantissaValue(ip, fp)
  {
    var s := ip + ("." + fp);
    assert s == ip + "." + fp;
    NoDotIndex(ip);
    assert IndexOfDot("." + fp) == 0;
    IndexOfDotAfter(ip, "." + fp);
    var k := IndexOfDot(s);
    assert k == |ip| && k < |s|;
    assert s[..k] == ip;
    assert s[k + 1..] == fp;
  }

  /** The first '.' of a + b is the first of b when a has none. */
  lemma {:induction false} IndexOfDotAfter(a: string, b: string)
    requires IndexOfDot(a) == |a|
    ensures IndexOfDot(a + b) == |a| + IndexOfDot(b)
    decreases |a|
  {
    if a != [] {
      assert a[0] != '.';
      assert IndexOfDot(a[1..]) == |a| - 1;
      assert (a + b)[0] == a[0] && (a + b)[1..] == a[1..] + b;
      IndexOfDotAfter(a[1..], b);
    } else {
      assert a + b == b;
    }
  }

  /** Digits, a point and digits form a numeric string of that value. */
  lemma ParseFraction(ip: string, fp: string)
    requires AllDigits(ip) && AllDigits(fp) && |ip| > 0
    ensures ParseUnsigned(ip + "." + fp) == ParseDecimal(ip + "." + fp) == MantissaValue(ip, fp)
  {
    var s := ip + "." + fp;
    forall i | 0 <= i < |s| ensures IsDigit(s[i]) || s[i] == '.' {
      if i > |ip| {
        assert s[i] == fp[i - |ip| - 1];
      }
    }
    ParsePlain(s);
    MantissaWithFraction(ip, fp);
    PlainDecimal(s);
    assert s[..|s|] == s;
  }

  /** A numeric string of the form "d.d" denotes d + d/10. */
  lemma ParseDigitDotDigit(a: char, b: char)
    requires IsDigit(a) && IsDigit(b)
    ensures ParseUnsigned([a, '.', b]) == ParseDecimal([a, '.', b])
    ensures ParseDecimal([a, '.', b]) == Some(((a as int) - ('0' as int)) as real + (((b as int) - ('0' as int)) as real) / 10.0)
  {
    assert [a, '.', b] == [a] + "." + [b];
    ParseFraction([a], [b]);
    assert DigitsValue([a]) == (a as int) - ('0' as int) by {
      assert [a][..0] == [];
    }
    assert DigitsValue([b]) == (b as int) - ('0' as int) by {
      assert [b][..0] == [];
    }
    assert Pow10(1) == 10;
  }

  /** A natural number written out in decimal is read back as that number. */
  lemma NatToStringParses(n: nat)
    ensures ParseDecimal(NatToString(n)) == Some(n as real)
  {
    var s := NatToString(n);
    NatToStringRoundTrip(n);
    assert IsDigit(s[0]);
    ParsePlain(s);
    MantissaOfDigits(s);
  }

  /** A non-empty run of digits is a mantissa without a fraction. */
  lemma MantissaOfDigits(s: string)
    requires |s| > 0 && AllDigits(s)
    ensures ParseMantissa(s) == Some(DigitsValue(s) as real)
  {
    NoDotIndex(s);
    assert s[..IndexOfDot(s)] == s;
    var e: string := [];
    assert DigitsValue(e) == 0 && Pow10(|e|) == 1;
    assert (DigitsValue(e) as real) / (Pow10(|e|) as real) == 0.0;
  }

  /** A string that starts with something other than whitespace, a digit, a sign or '.' is not a number. */
  lemma NonNumericStart(s: string)
    requires |s| > 0 && !IsWhitespace(s[0]) && !IsDigit(s[0]) && s[0] != '.' && s[0] != '-' && s[0] != '+'
    ensures ParseDecimal(s).None?
  {
    var k := IndexOfExp(s);
    if k > 0 {
      assert IndexOfDot(s[..k]) > 0;
      assert s[..k][..IndexOfDot(s[..k])][0] == s[0];
    }
  }

  /** Spellings PHP 7 accepts beyond plain decimals: an exponent and leading whitespace; trailing whitespace is refused. */
  lemma NumericSpellings()
    ensures ParseDecimal("1e3") == Some(1000.0)
    ensures ParseDecimal(" 5") == Some(5.0)
    ensures ParseDecimal("5 ").None?
  {
    ExponentSpelling();
    LeadingWhitespaceSpelling();
    TrailingWhitespaceSpelling();
  }

  lemma ExponentSpelling()
    ensures ParseDecimal("1e3") == Some(1000.0)
  {
    var s := "1e3";
    assert TrimLeadingWhitespace(s) == s;
    assert IndexOfExp(s) == 1;
    assert s[..1] == "1" && s[2..] == "3";
    MantissaOfDigits("1");
    assert DigitsValue("1") == 1 by {
      assert "1"[..0] == "";
    }
    assert DigitsValue("3") == 3 by {
      assert "3"[..0] == "";
    }
    assert ParseExponent("3") == Some(3);
    assert Pow10(3) == 1000;
  }

  lemma LeadingWhitespaceSpelling()
    ensures ParseDecimal(" 5") == Some(5.0)
  {
    NatToStringParses(5);
    assert NatToString(5) == "5";
    assert TrimLeadingWhitespace(" 5") == "5" == TrimLeadingWhitespace("5");
  }

  lemma TrailingWhitespaceSpelling()
    ensures ParseDecimal("5 ").None?
  {
    var s := "5 ";
    assert TrimLeadingWhitespace(s) == s;
    NoExpIndex(s);
    assert s[..|s|] == s;
    NoDotIndex(s);
    assert !IsDigit(s[..IndexOfDot(s)][1]);
  }

  /** PHP `is_numeric`. */
  predicate IsNumeric(v: Value) {
    match v
    case Int(_) => true
    case Str(s) => ParseDecimal(s).Some?
    case _ => false
  }

  /** The number a numeric value denotes. */
  function NumberOf(v: Value): real
    requires IsNumeric(v)
  {
    match v
    case Int(i) => i as real
    case Str(s) => ParseDecimal(s).value
  }

  /**
   * The number PHP 7 reads from the front of a string when it compares it
   * with a number: the longest numeric prefix, 0 when there is none.
   */
  function LeadingNumber(s: string): (r: real)
    ensures ParseDecimal(s).Some? ==> r == ParseDecimal(s).value
    decreases |s|
  {
    if ParseDecimal(s).Some? then ParseDecimal(s).value
    else if s == [] then 0.0
    else LeadingNumber(s[..|s| - 1])
  }

  /**
   * PHP 7 loose equality `==` on the modelled values. NULL and booleans compare
   * by truthiness (NULL against a string compares with ""); an integer
   * against a string compares with the string's leading number (0 when it
   * has none); two strings compare numerically when both are numeric and
   * exactly otherwise.
   */
  predicate LooseEq(a: Value, b: Value) {
    match (a, b)
    case (Bool(x), _) => x == Truthy(b)
    case (_, Bool(y)) => y == Truthy(a)
    case (Null, Null) => true
    case (Null, Str(t)) => t == ""
    case (Str(s), Null) => s == ""
    case (Null, Int(j)) => j == 0
    case (Int(i), Null) => i == 0
    case (Int(i), Int(j)) => i == j
    case (Int(i), Str(t)) => i as real == LeadingNumber(t)
    case (Str(s), Int(j)) => j as real == LeadingNumber(s)
    case (Str(s), Str(t)) =>
      if ParseDecimal(s).Some? && ParseDecimal(t).Some?
      then ParseDecimal(s).value == ParseDecimal(t).value
      else s == t
  }

  /** A numeric string with a trailing zero in its fraction equals the one without ("0.50" == "0.5"). */
  lemma TrailingZeroLooselyEqual(ip: string, fp: string)
    requires AllDigits(ip) && AllDigits(fp) && |ip| > 0
    ensures LooseEq(Str(ip + "." + fp + "0"), Str(ip + "." + fp))
  {
    var fp0 := fp + "0";
    assert ip + "." + fp + "0" == ip + "." + fp0;
    ParseFraction(ip, fp);
    ParseFraction(ip, fp0);
    TrailingZeroValue(ip, fp);
  }

  /** A trailing zero in the fraction does not change the value. */
  lemma TrailingZeroValue(ip: string, fp: string)
    requires AllDigits(ip) && AllDigits(fp) && |ip| > 0
    ensures MantissaValue(ip, fp + "0") == MantissaValue(ip, fp)
  {
    var fp0 := fp + "0";
    assert AllDigits(fp0);
    DigitsValueAppendZero(fp);
    assert Pow10(|fp0|) == 10 * Pow10(|fp|);
    TenthsCancel(DigitsValue(fp) as real, Pow10(|fp|) as real);
  }

  lemma DigitsValueAppendZero(s: string)
    requires AllDigits(s)
    ensures AllDigits(s + "0") && DigitsValue(s + "0") == 10 * DigitsValue(s)
  {
    var s0 := s + "0";
    assert s0[..|s0| - 1] == s;
  }

  lemma TenthsCancel(d: real, p: real)
    requires p > 0.0
    ensures (10.0 * d) / (10.0 * p) == d / p
  {
    var q := d / p;
    assert q * p == d;
    assert (10.0 * p) * q == 10.0 * d;
  }

  /** PHP 7 compares 1 with "1abc" by its leading 1, and 0 with "abc" as 0. */
  lemma LooseEqLeadingNumber()
    ensures LooseEq(Int(1), Str("1abc")) && LooseEq(Int(0), Str("abc")) && !LooseEq(Int(1), Str("abc"))
  {
    LeadingNumberOfLetters("abc");
    LeadingNumberOfDigitLetters('1', "abc");
    assert ['1'] + "abc" == "1abc";
  }

  /** A string of letters from 'a' to 'd' has no leading number. */
  lemma {:induction false} LeadingNumberOfLetters(t: string)
    requires forall i :: 0 <= i < |t| ==> 'a' <= t[i] <= 'd'
    ensures LeadingNumber(t) == 0.0
    decreases |t|
  {
    if t == [] {
      assert TrimLeadingWhitespace(t) == t && IndexOfExp(t) == 0;
      assert ParseMantissa(t).None?;
    } else {
      NonNumericStart(t);
      LeadingNumberOfLetters(t[..|t| - 1]);
    }
  }

  /** A digit followed by letters from 'a' to 'd' leads with that digit. */
  lemma {:induction false} LeadingNumberOfDigitLetters(d: char, t: string)
    requires IsDigit(d)
    requires forall i :: 0 <= i < |t| ==> 'a' <= t[i] <= 'd'
    ensures LeadingNumber([d] + t) == ((d as int) - ('0' as int)) as real
    decreases |t|
  {
    if t == [] {
      ParsePlain([d]);
      MantissaOfDigits([d]);
      assert DigitsValue([d]) == (d as int) - ('0' as int) by {
        assert [d][..0] == [];
      }
      assert [d] + t == [d];
    } else {
      NotNumericTail([d] + t);
      assert ([d] + t)[..|t|] == [d] + t[..|t| - 1];
      LeadingNumberOfDigitLetters(d, t[..|t| - 1]);
    }
  }

  /** A digit followed by letters from 'a' to 'd' is not a number. */
  lemma NotNumericTail(s: string)
    requires |s| >= 2 && IsDigit(s[0])
    requires forall i :: 1 <= i < |s| ==> 'a' <= s[i] <= 'd'
    ensures ParseDecimal(s).None?
  {
    assert TrimLeadingWhitespace(s) == s;
    assert IndexOfExp(s) == |s| by {
      NoExpIndex(s);
    }
    assert s[..|s|] == s;
    assert IndexOfDot(s) == |s| by {
      NoDotIndex(s);
    }
    assert !IsDigit(s[..IndexOfDot(s)][1]);
  }

  /** Without an 'e' or 'E' the exponent starts past the end. */
  lemma {:induction false} NoExpIndex(s: string)
    requires forall i :: 0 <= i < |s| ==> s[i] != 'e' && s[i] != 'E'
    ensures IndexOfExp(s) == |s|
    decreases |s|
  {
    if s != [] {
      NoExpIndex(s[1..]);
    }
  }

  /** Without a '.' the fraction starts past the end. */
  lemma {:induction false} NoDotIndex(s: string)
    requires forall i :: 0 <= i < |s| ==> s[i] != '.'
    ensures IndexOfDot(s) == |s|
    decreases |s|
  {
    if s != [] {
      NoDotIndex(s[1..]);
    }
  }

  /** PHP's string conversion of a value, as XMLWriter::writeElement receives it. */
  function ToPhpString(v: Value): string {
    match v
    case Null => ""
    case Bool(b) => if b then "1" else ""
    case Int(i) => IntToString(i)
    case Str(s) => s
  }

  // ---------------------------------------------------------------------
  // str_replace

  /** `from` occurs in `s` starting at position i. */
  predicate OccursAt(s: string, from: string, i: nat) {
    i + |from| <= |s| && s[i..i + |from|] == from
  }

  /** PHP `str_replace(from, to, s)`: left-to-right, non-overlapping; an empty `from` changes nothing. */
  function StrReplace(s: string, from: string, to: string): string
    decreases |s|
  {
    if from == [] || |s| < |from| then s
    else if s[..|from|] == from then to + StrReplace(s[|from|..], from, to)
    else [s[0]] + StrReplace(s[1..], from, to)
  }

  /** A string in which `from` does not occur is returned unchanged. */
  lemma {:induction false} StrReplaceAbsent(s: string, from: string, to: string)
    requires forall i: nat :: !OccursAt(s, from, i)
    ensures StrReplace(s, from, to) == s
    decreases |s|
  {
    if from == [] || |s| < |from| {
    } else {
      assert !OccursAt(s, from, 0);
      assert s[0..|from|] == s[..|from|];
      forall i: nat ensures !OccursAt(s[1..], from, i) {
        assert !OccursAt(s, from, i + 1);
        if i + |from| <= |s[1..]| {
          assert s[1..][i..i + |from|] == s[i + 1..i + 1 + |from|];
        }
      }
      StrReplaceAbsent(s[1..], from, to);
    }
  }

  /** A leading occurrence of a non-empty `from` is replaced by `to`. */
  lemma StrReplacePrefix(from: string, rest: string, to: string)
    requires from != []
    ensures StrReplace(from + rest, from, to) == to + StrReplace(rest, from, to)
  {
    assert (from + rest)[..|from|] == from;
    assert (from + rest)[|from|..] == rest;
  }

  /** Replacing one character by a different one leaves the length and removes every occurrence. */
  lemma {:induction false} StrReplaceChar(s: string, a: char, b: char)
    requires a != b
    ensures |StrReplace(s, [a], [b])| == |s|
    ensures forall i :: 0 <= i < |s| ==> StrReplace(s, [a], [b])[i] != a
    ensures forall i :: 0 <= i < |s| && s[i] != a ==> StrReplace(s, [a], [b])[i] == s[i]
    decreases |s|
  {
    if |s| >= 1 {
      StrReplaceChar(s[1..], a, b);
      var r := StrReplace(s, [a], [b]);
      if s[..1] == [a] {
        assert r == [b] + StrReplace(s[1..], [a], [b]);
      } else {
        assert s[0] != a by { assert s[..1] == [s[0]]; }
        assert r == [s[0]] + StrReplace(s[1..], [a], [b]);
      }
    }
  }

  // ---------------------------------------------------------------------
  // Insertion-ordered PHP arrays

  /** A PHP array: its key/value pairs in insertion order. */
  type OrderedMap<K, V> = seq<(K, V)>

  function Keys<K, V>(m: OrderedMap<K, V>): (ks: seq<K>)
    ensures |ks| == |m| && forall i :: 0 <= i < |m| ==> ks[i] == m[i].0
  {
    if m == [] then [] else [m[0].0] + Keys(m[1..])
  }

  /** `isset($m[$k]) ? $m[$k] : ...`: the value at the first pair with key k. */
  function Lookup<K(==), V>(m: OrderedMap<K, V>, k: K): Option<V> {
    if m == [] then None else if m[0].0 == k then Some(m[0].1) else Lookup(m[1..], k)
  }

  /** `$m[$k] = $v`: an existing key keeps its position, a new key is appended. */
  function Put<K(==), V>(m: OrderedMap<K, V>, k: K, v: V): OrderedMap<K, V> {
    if m == [] then [(k, v)]
    else if m[0].0 == k then [(k, v)] + m[1..]
    else [m[0]] + Put(m[1..], k, v)
  }

  /** Looking up the key just written gives the value written; other keys are unaffected. */
  lemma {:induction false} LookupPut<K, V>(m: OrderedMap<K, V>, k: K, v: V, k': K)
    ensures Lookup(Put(m, k, v), k') == if k' == k then Some(v) else Lookup(m, k')
  {
    if m != [] && m[0].0 != k {
      LookupPut(m[1..], k, v, k');
    }
  }

  /** Writing a key that is already present keeps the keys unchanged; a new key is appended. */
  lemma {:induction false} KeysPut<K, V>(m: OrderedMap<K, V>, k: K, v: V)
    ensures Keys(Put(m, k, v)) == if k in Keys(m) then Keys(m) else Keys(m) + [k]
  {
    if m != [] && m[0].0 != k {
      KeysPut(m[1..], k, v);
      assert Keys(m) == [m[0].0] + Keys(m[1..]);
    }
  }

  /** A key is found exactly when it is one of the keys. */
  lemma {:induction false} LookupKeys<K, V>(m: OrderedMap<K, V>, k: K)
    ensures Lookup(m, k).Some? <==> k in Keys(m)
  {
    if m != [] {
      LookupKeys(m[1..], k);
      assert Keys(m) == [m[0].0] + Keys(m[1..]);
    }
  }

  /** No key occurs twice. */
  predicate UniqueKeys<K(==), V>(m: OrderedMap<K, V>) {
    forall i, j :: 0 <= i < j < |m| ==> m[i].0 != m[j].0
  }

  /** Without its first pair a map with unique keys keeps them unique, and no longer holds the first key. */
  lemma UniqueKeysTail<K, V>(m: OrderedMap<K, V>)
    requires UniqueKeys(m) && m != []
    ensures UniqueKeys(m[1..]) && Lookup(m[1..], m[0].0).None?
  {
    var t := m[1..];
    forall i, j | 0 <= i < j < |t| ensures t[i].0 != t[j].0 {
      assert t[i] == m[i + 1] && t[j] == m[j + 1];
    }
    LookupKeys(t, m[0].0);
  }

  /** Writing a key keeps the keys unique. */
  lemma {:induction false} PutKeepsUnique<K, V>(m: OrderedMap<K, V>, k: K, v: V)
    requires UniqueKeys(m)
    ensures UniqueKeys(Put(m, k, v))
  {
    if m != [] && m[0].0 != k {
      var t := m[1..];
      UniqueKeysTail(m);
      PutKeepsUnique(t, k, v);
      var pt := Put(t, k, v);
      KeysPut(t, k, v);
      forall i | 0 <= i < |pt| ensures pt[i].0 != m[0].0 {
        assert Keys(pt)[i] == pt[i].0;
        if i < |t| {
          assert Keys(t)[i] == m[i + 1].0;
        }
      }
      ConsKeepsUnique(m[0], pt);
    } else if m != [] {
      UniqueKeysTail(m);
      LookupKeys(m[1..], k);
      forall i | 0 <= i < |m[1..]| ensures m[1..][i].0 != k {
        assert Keys(m[1..])[i] == m[1..][i].0;
      }
      ConsKeepsUnique((k, v), m[1..]);
    }
  }

  /** A pair whose key the rest lacks keeps the keys unique. */
  lemma ConsKeepsUnique<K, V>(p: (K, V), t: OrderedMap<K, V>)
    requires UniqueKeys(t)
    requires forall i :: 0 <= i < |t| ==> t[i].0 != p.0
    ensures UniqueKeys([p] + t)
  {
    var m := [p] + t;
    forall i, j | 0 <= i < j < |m| ensures m[i].0 != m[j].0 {
      assert m[j] == t[j - 1];
      if i > 0 {
        assert m[i] == t[i - 1];
      }
    }
  }

  /** Writing a key that is not present appends the pair. */
  lemma {:induction false} PutAbsent<K, V>(m: OrderedMap<K, V>, k: K, v: V)
    requires k !in Keys(m)
    ensures Put(m, k, v) == m + [(k, v)]
  {
    if m != [] {
      assert Keys(m) == [m[0].0] + Keys(m[1..]);
      PutAbsent(m[1..], k, v);
      assert m == [m[0]] + m[1..];
    }
  }
}
