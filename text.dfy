/** The Python string operations the core relies on: `str()` and `hex()` of
    integers, `sep.join`, `str.strip`, the `in` operator on two strings and
    `os.path.join`. */
module Text {

  /** Python's `str.isspace` for one character. */
  predicate IsSpace(c: char) {
    ('\t' <= c <= '\r') || ('\U{1c}' <= c <= '\U{1f}') || c == ' '
    || c == '\U{85}' || c == '\U{a0}' || c == '\U{1680}'
    || ('\U{2000}' <= c <= '\U{200a}') || c == '\U{2028}' || c == '\U{2029}'
    || c == '\U{202f}' || c == '\U{205f}' || c == '\U{3000}'
  }

  predicate AllSpace(s: string) {
    forall i :: 0 <= i < |s| ==> IsSpace(s[i])
  }

  // ---------------------------------------------------------------------
  // Numerals
  // ---------------------------------------------------------------------

  /** The lower-case digit Python prints for `d`. */
  function DigitChar(d: nat): char
    requires d < 16
  {
    if d < 10 then (('0' as int) + d) as char else (('a' as int) + d - 10) as char
  }

  /** The value of a digit character in the given base, or `base` itself for
      a character that is not a digit of that base. */
  function DigitValue(c: char, base: nat): (v: nat)
    requires 2 <= base <= 16
    ensures v <= base
  {
    var d := if '0' <= c <= '9' then (c as int) - ('0' as int)
             else if 'a' <= c <= 'f' then (c as int) - ('a' as int) + 10
             else 16;
    if d < base then d else base
  }

  /** The digits of `n` in `base`, most significant first, with no leading
      zeros (`"0"` for zero). */
  function Digits(n: nat, base: nat): (s: string)
    requires 2 <= base <= 16
    decreases n
  {
    if n < base then [DigitChar(n)]
    else Digits(n / base, base) + [DigitChar(n % base)]
  }

  /** Reads back a string of digits in `base`. */
  function ParseDigits(s: string, base: nat): nat
    requires 2 <= base <= 16
  {
    if s == [] then 0
    else ParseDigits(s[..|s| - 1], base) * base + DigitValue(s[|s| - 1], base)
  }

  predicate IsNumeral(s: string, base: nat)
    requires 2 <= base <= 16
  {
    |s| >= 1
    && (forall i :: 0 <= i < |s| ==> DigitValue(s[i], base) < base)
    && (|s| > 1 ==> s[0] != '0')
  }

  lemma DigitCharValue(d: nat, base: nat)
    requires 2 <= base <= 16 && d < base
    ensures DigitValue(DigitChar(d), base) == d
    ensures d > 0 ==> DigitChar(d) != '0'
  {
  }

  lemma DivModBase(n: nat, base: nat)
    requires 2 <= base <= 16 && n >= base
    ensures n == (n / base) * base + n % base && n % base < base
    ensures 0 < n / base < n
  {
  }

  /** `ParseDigits` inverts `Digits`. */
  lemma {:induction false} DigitsParse(n: nat, base: nat)
    requires 2 <= base <= 16
    ensures ParseDigits(Digits(n, base), base) == n
    decreases n
  {
    var s := Digits(n, base);
    if n < base {
      DigitCharValue(n, base);
      assert s[..|s| - 1] == [];
    } else {
      var q, d := n / base, n % base;
      DivModBase(n, base);
      var p := Digits(q, base);
      DigitsParse(q, base);
      DigitCharValue(d, base);
      assert s == p + [DigitChar(d)];
      assert s[..|s| - 1] == p;
      assert s[|s| - 1] == DigitChar(d);
    }
  }

  /** Every character of `Digits(n, base)` is a digit of `base`. */
  lemma {:induction false} DigitsAreDigits(n: nat, base: nat)
    requires 2 <= base <= 16
    ensures forall i :: 0 <= i < |Digits(n, base)| ==> DigitValue(Digits(n, base)[i], base) < base
    decreases n
  {
    var s := Digits(n, base);
    if n < base {
      DigitCharValue(n, base);
    } else {
      var q, d := n / base, n % base;
      DivModBase(n, base);
      var p := Digits(q, base);
      DigitsAreDigits(q, base);
      DigitCharValue(d, base);
      assert s == p + [DigitChar(d)];
      forall i | 0 <= i < |s| ensures DigitValue(s[i], base) < base {
        if i < |p| { assert s[i] == p[i]; }
      }
    }
  }

  /** The numeral of a positive number has no leading zero. */
  lemma {:induction false} DigitsLeading(n: nat, base: nat)
    requires 2 <= base <= 16
    ensures n > 0 ==> Digits(n, base)[0] != '0'
    decreases n
  {
    if n >= base {
      var q := n / base;
      DivModBase(n, base);
      DigitsLeading(q, base);
      assert Digits(n, base)[0] == Digits(q, base)[0];
    } else {
      DigitCharValue(n, base);
    }
  }

  /** `Digits` is a canonical numeral and `ParseDigits` inverts it. */
  lemma DigitsRoundTrip(n: nat, base: nat)
    requires 2 <= base <= 16
    ensures IsNumeral(Digits(n, base), base)
    ensures ParseDigits(Digits(n, base), base) == n
  {
    DigitsParse(n, base);
    DigitsAreDigits(n, base);
    DigitsLeading(n, base);
  }

  /** Distinct numbers have distinct numerals. */
  lemma DigitsInjective(m: nat, n: nat, base: nat)
    requires 2 <= base <= 16 && Digits(m, base) == Digits(n, base)
    ensures m == n
  {
    DigitsRoundTrip(m, base);
    DigitsRoundTrip(n, base);
  }

  /** Python's `str(i)` for an integer. */
  function IntToString(i: int): string {
    if i < 0 then "-" + Digits(-i, 10) else Digits(i, 10)
  }

  /** Reads back the output of `str(i)`. */
  function ParseInt(s: string): int {
    if |s| > 0 && s[0] == '-' then -(ParseDigits(s[1..], 10) as int) else ParseDigits(s, 10)
  }

  lemma IntToStringRoundTrip(i: int)
    ensures ParseInt(IntToString(i)) == i
  {
    if i < 0 {
      DigitsRoundTrip(-i, 10);
      assert IntToString(i)[1..] == Digits(-i, 10);
    } else {
      DigitsRoundTrip(i, 10);
      var s := Digits(i, 10);
      assert DigitValue(s[0], 10) < 10;
    }
  }

  /** `str(i)` consists of a minus sign and decimal digits only. */
  lemma IntToStringChars(i: int)
    ensures forall k :: 0 <= k < |IntToString(i)| ==>
      IntToString(i)[k] == '-' || '0' <= IntToString(i)[k] <= '9'
  {
    var n: nat := if i < 0 then -i else i;
    DigitsRoundTrip(n, 10);
    var d := Digits(n, 10);
    assert forall k :: 0 <= k < |d| ==> DigitValue(d[k], 10) < 10;
    assert forall k :: 0 <= k < |d| ==> '0' <= d[k] <= '9';
  }

  /** Python's `hex(n)` for a non-negative integer. */
  function Hex(n: nat): string {
    "0x" + Digits(n, 16)
  }

  lemma HexRoundTrip(n: nat)
    ensures |Hex(n)| >= 3 && Hex(n)[..2] == "0x"
    ensures IsNumeral(Hex(n)[2..], 16) && ParseDigits(Hex(n)[2..], 16) == n
  {
    DigitsRoundTrip(n, 16);
    assert Hex(n)[2..] == Digits(n, 16);
  }

  // ---------------------------------------------------------------------
  // Joining and splitting
  // ---------------------------------------------------------------------

  /** Python's `sep.join(parts)`. */
  function Join(sep: string, parts: seq<string>): string {
    if parts == [] then ""
    else if |parts| == 1 then parts[0]
    else parts[0] + sep + Join(sep, parts[1..])
  }

  /** Python's `s.split(c)` for a one-character separator. */
  function Split(c: char, s: string): (r: seq<string>)
    ensures |r| >= 1
  {
    if s == [] then [""]
    else
      var rest := Split(c, s[1..]);
      if s[0] == c then [""] + rest
      else [[s[0]] + rest[0]] + rest[1..]
  }

  lemma {:induction false} SplitAfter(c: char, x: string, rest: string)
    requires c !in x
    ensures Split(c, x + [c] + rest) == [x] + Split(c, rest)
  {
    if x == [] {
      assert x + [c] + rest == [c] + rest;
      assert ([c] + rest)[1..] == rest;
    } else {
      assert (x + [c] + rest)[1..] == x[1..] + [c] + rest;
      SplitAfter(c, x[1..], rest);
      assert [x[0]] + x[1..] == x;
    }
  }

  lemma {:induction false} SplitWhole(c: char, x: string)
    requires c !in x
    ensures Split(c, x) == [x]
  {
    if x != [] {
      SplitWhole(c, x[1..]);
      assert [x[0]] + x[1..] == x;
    }
  }

  /** Joining on a one-character separator that no part contains is undone
      by splitting on it. */
  lemma {:induction false} SplitJoin(c: char, parts: seq<string>)
    requires |parts| >= 1
    requires forall i :: 0 <= i < |parts| ==> c !in parts[i]
    ensures Split(c, Join([c], parts)) == parts
  {
    if |parts| == 1 {
      SplitWhole(c, parts[0]);
    } else {
      SplitJoin(c, parts[1..]);
      SplitAfter(c, parts[0], Join([c], parts[1..]));
      assert [parts[0]] + parts[1..] == parts;
    }
  }

  // ---------------------------------------------------------------------
  // Stripping
  // ---------------------------------------------------------------------

  /** The number of whitespace characters `s` starts with. */
  function LeadingSpaces(s: string): (n: nat)
    ensures n <= |s|
  {
    if s == [] || !IsSpace(s[0]) then 0 else 1 + LeadingSpaces(s[1..])
  }

  lemma {:induction false} LeadingSpacesSpec(s: string)
    ensures AllSpace(s[..LeadingSpaces(s)])
    ensures LeadingSpaces(s) < |s| ==> !IsSpace(s[LeadingSpaces(s)])
    ensures LeadingSpaces(s) == |s| <==> AllSpace(s)
  {
    if s != [] && IsSpace(s[0]) {
      var m := LeadingSpaces(s[1..]);
      LeadingSpacesSpec(s[1..]);
      assert s[..1 + m] == [s[0]] + s[1..][..m];
      assert AllSpace(s) <==> AllSpace(s[1..]) by {
        assert forall k :: 0 <= k < |s[1..]| ==> s[1..][k] == s[k + 1];
      }
    }
  }

  /** The number of whitespace characters `s` ends with. */
  function TrailingSpaces(s: string): (n: nat)
    ensures n <= |s|
  {
    if s == [] || !IsSpace(s[|s| - 1]) then 0 else 1 + TrailingSpaces(s[..|s| - 1])
  }

  lemma {:induction false} TrailingSpacesSpec(s: string)
    ensures AllSpace(s[|s| - TrailingSpaces(s)..])
    ensures TrailingSpaces(s) < |s| ==> !IsSpace(s[|s| - TrailingSpaces(s) - 1])
  {
    if s != [] && IsSpace(s[|s| - 1]) {
      var t := s[..|s| - 1];
      var m := TrailingSpaces(t);
      TrailingSpacesSpec(t);
      var tail, u := t[|t| - m..], s[|s| - (1 + m)..];
      assert u == tail + [s[|s| - 1]];
      forall k | 0 <= k < |u|
        ensures IsSpace(u[k])
      {
        if k < m {
          assert u[k] == tail[k];
        }
      }
      if m < |t| {
        assert s[|s| - (1 + m) - 1] == t[|t| - m - 1];
      }
    }
  }

  /** Python's `s.strip()`: `s` without its leading and trailing whitespace. */
  function Strip(s: string): (r: string)
    ensures LeadingSpaces(s) + |r| <= |s|
    ensures s[LeadingSpaces(s)..][..|r|] == r
  {
    var u := s[LeadingSpaces(s)..];
    u[..|u| - TrailingSpaces(u)]
  }

  /** The stripped string neither starts nor ends with whitespace, and what
      was cut off on either side is all whitespace. */
  lemma StripSpec(s: string)
    ensures var r := Strip(s);
      (r == [] || (!IsSpace(r[0]) && !IsSpace(r[|r| - 1]))) &&
      AllSpace(s[..LeadingSpaces(s)]) && AllSpace(s[LeadingSpaces(s) + |r|..])
  {
    var i := LeadingSpaces(s);
    var u := s[i..];
    var j := TrailingSpaces(u);
    var r := u[..|u| - j];
    assert Strip(s) == r;
    LeadingSpacesSpec(s);
    TrailingSpacesSpec(u);
    if r != [] {
      assert r[0] == s[i];
      assert r[|r| - 1] == u[|u| - j - 1];
    }
    assert s[i + |r|..] == u[|u| - j..];
  }

  /** A string strips to nothing exactly when it is all whitespace. */
  lemma StripEmpty(s: string)
    ensures Strip(s) == [] <==> AllSpace(s)
  {
    var i := LeadingSpaces(s);
    var u := s[i..];
    LeadingSpacesSpec(s);
    StripSpec(s);
    if !AllSpace(s) {
      assert !IsSpace(u[0]);
      TrailingSpacesSpec(u);
    }
  }

  lemma StripIdempotent(s: string)
    ensures Strip(Strip(s)) == Strip(s)
  {
    var r := Strip(s);
    StripSpec(s);
    if r != [] {
      StripUnchanged(r);
    }
  }

  /** A string that neither starts nor ends with whitespace strips to
      itself. */
  lemma StripUnchanged(s: string)
    requires s != [] && !IsSpace(s[0]) && !IsSpace(s[|s| - 1])
    ensures Strip(s) == s
  {
    assert LeadingSpaces(s) == 0;
    assert s[..|s| - 1] == s[..|s| - 1];
    assert s[0..] == s;
    assert TrailingSpaces(s) == 0;
  }

  // ---------------------------------------------------------------------
  // Substrings and paths
  // ---------------------------------------------------------------------

  /** Python's `sub in s` for two strings. */
  predicate IsSubstring(sub: string, s: string) {
    sub <= s || (s != [] && IsSubstring(sub, s[1..]))
  }

  /** `sub in s` holds exactly when `sub` occurs at some offset of `s`:
      this lemma gives one direction and `SubstringOffset` the other. */
  lemma {:induction false} SubstringAt(sub: string, s: string, i: nat)
    requires i + |sub| <= |s|
    ensures s[i..i + |sub|] == sub ==> IsSubstring(sub, s)
  {
    if i > 0 {
      assert s[1..][i - 1..i - 1 + |sub|] == s[i..i + |sub|];
      SubstringAt(sub, s[1..], i - 1);
    }
  }

  /** `sub` occurs in `s` starting at offset `i`. */
  predicate OccursAt(sub: string, s: string, i: nat) {
    i + |sub| <= |s| && s[i..i + |sub|] == sub
  }

  lemma {:induction false} SubstringOffset(sub: string, s: string)
    requires IsSubstring(sub, s)
    ensures exists i: nat :: OccursAt(sub, s, i)
  {
    if sub <= s {
      assert OccursAt(sub, s, 0);
    } else {
      SubstringOffset(sub, s[1..]);
      var i: nat :| OccursAt(sub, s[1..], i);
      assert s[i + 1..i + 1 + |sub|] == s[1..][i..i + |sub|];
      assert OccursAt(sub, s, i + 1);
    }
  }

  /** `posixpath.join(a, b)` for two components. */
  function PathJoin(a: string, b: string): (r: string)
    ensures |b| > 0 && b[0] == '/' ==> r == b
    ensures (|b| == 0 || b[0] != '/') ==> r == a + b || r == a + "/" + b
    ensures (|b| == 0 || b[0] != '/') && |a| > 0 && a[|a| - 1] != '/' ==> r == a + "/" + b
  {
    if |b| > 0 && b[0] == '/' then b
    else if a == "" || a[|a| - 1] == '/' then a + b
    else a + "/" + b
  }
}
