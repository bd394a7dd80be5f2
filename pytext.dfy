/** The few pieces of Python's string and integer behaviour that the tracer
    relies on: `str(n)`, `hex(n)`, `'{:x}'.format(n)`, `int(s)`, `int(s, 0)`,
    `str.split(" ")`, `str.startswith`/`endswith`, the `in` operator on
    strings, and the last component of a `/`- or `\`-separated path.

    Only ASCII is modelled: Python's Unicode digits and Unicode whitespace
    are not. */
module PyText {
  import opened Wrappers

  // ---------------------------------------------------------------------
  // Prefixes, suffixes, substrings
  // ---------------------------------------------------------------------

  predicate StartsWith(s: string, prefix: string) {
    |prefix| <= |s| && s[..|prefix|] == prefix
  }

  predicate EndsWith(s: string, suffix: string) {
    |suffix| <= |s| && s[|s| - |suffix|..] == suffix
  }

  predicate OccursAt(s: string, needle: string, i: int) {
    0 <= i <= |s| - |needle| && s[i..i + |needle|] == needle
  }

  /** Python's `needle in s` on strings: an occurrence somewhere. */
  predicate Contains(s: string, needle: string) {
    exists i :: 0 <= i <= |s| - |needle| && OccursAt(s, needle, i)
  }

  /** Every character of a contained needle occurs in the string. */
  lemma ContainsChar(s: string, needle: string, j: int)
    requires Contains(s, needle) && 0 <= j < |needle|
    ensures needle[j] in s
  {
    var i :| 0 <= i <= |s| - |needle| && OccursAt(s, needle, i);
    assert s[i + j] == s[i..i + |needle|][j];
  }

  /** A needle with a character the string lacks is not contained in it. */
  lemma NotContainsChar(s: string, needle: string, j: int)
    requires 0 <= j < |needle| && needle[j] !in s
    ensures !Contains(s, needle)
  {
    if Contains(s, needle) {
      ContainsChar(s, needle, j);
      assert false;
    }
  }

  // ---------------------------------------------------------------------
  // Digits
  // ---------------------------------------------------------------------

  /** `c` is a digit of the given base (2 ≤ base ≤ 16), either case for letters. */
  predicate IsDigitIn(c: char, base: nat) {
    ('0' <= c <= '9' && (c as int - '0' as int) < base)
    || ('a' <= c <= 'f' && (c as int - 'a' as int) + 10 < base)
    || ('A' <= c <= 'F' && (c as int - 'A' as int) + 10 < base)
  }

  function DigitValue(c: char, base: nat): (d: nat)
    requires IsDigitIn(c, base)
    ensures d < base
  {
    if '0' <= c <= '9' then c as int - '0' as int
    else if 'a' <= c <= 'f' then c as int - 'a' as int + 10
    else c as int - 'A' as int + 10
  }

  const DIGIT_CHARS: string := "0123456789abcdef"

  function DigitChar(d: nat): (c: char)
    requires d < 16
    ensures IsDigitIn(c, d + 1) && DigitValue(c, d + 1) == d
  {
    DIGIT_CHARS[d]
  }

  lemma DigitCharIn(d: nat, base: nat)
    requires d < base <= 16
    ensures IsDigitIn(DigitChar(d), base) && DigitValue(DigitChar(d), base) == d
  {
  }

  /** The digits of `n` in `base`, most significant first, no leading zeros. */
  function NatDigits(n: nat, base: nat): (s: string)
    requires 2 <= base <= 16
    ensures |s| > 0
    ensures forall i :: 0 <= i < |s| ==> IsDigitIn(s[i], base)
    decreases n
  {
    if n < base then
      DigitCharIn(n, base);
      [DigitChar(n)]
    else
      var q, d := n / base, n % base;
      DivStep(n, base);
      DigitCharIn(d, base);
      var p := NatDigits(q, base);
      assert forall i :: 0 <= i < |p| ==> (p + [DigitChar(d)])[i] == p[i];
      p + [DigitChar(d)]
  }

  lemma DivStep(n: nat, base: nat)
    requires 2 <= base <= n
    ensures 0 <= n % base < base && 0 < n / base < n && n == (n / base) * base + n % base
  {
  }

  /** Python `str(n)` for an integer. */
  function Dec(n: int): string {
    if n < 0 then "-" + NatDigits(-n, 10) else NatDigits(n, 10)
  }

  /** Python `'{:x}'.format(n)` for an integer. */
  function HexFmt(n: int): string {
    if n < 0 then "-" + NatDigits(-n, 16) else NatDigits(n, 16)
  }

  /** Python `hex(n)`. */
  function PyHex(n: int): string {
    if n < 0 then "-0x" + NatDigits(-n, 16) else "0x" + NatDigits(n, 16)
  }

  // ---------------------------------------------------------------------
  // Python integer literals (the grammar `int()` accepts)
  // ---------------------------------------------------------------------

  /** `s` is a run of digits of `base` in which every underscore sits
      directly before a digit: `(["_"] digit)+` when `lead` holds, and
      `digit (["_"] digit)*` otherwise. */
  predicate Grouped(s: string, base: nat, lead: bool)
    decreases |s|
  {
    if |s| == 0 then false
    else if s[0] == '_' then
      lead && |s| > 1 && IsDigitIn(s[1], base) && (|s| == 2 || Grouped(s[2..], base, true))
    else
      IsDigitIn(s[0], base) && (|s| == 1 || Grouped(s[1..], base, true))
  }

  /** The value of a digit string of `base`, underscores ignored. */
  function DigitsValue(s: string, base: nat): nat
    requires forall i :: 0 <= i < |s| ==> s[i] == '_' || IsDigitIn(s[i], base)
    decreases |s|
  {
    if |s| == 0 then 0
    else if s[|s| - 1] == '_' then DigitsValue(s[..|s| - 1], base)
    else
      assert forall i :: 0 <= i < |s| - 1 ==> s[..|s| - 1][i] == s[i];
      MulNat(DigitsValue(s[..|s| - 1], base), base);
      DigitsValue(s[..|s| - 1], base) * base + DigitValue(s[|s| - 1], base)
  }

  lemma MulNat(a: nat, b: nat)
    ensures a * b >= 0
  {
  }

  lemma {:induction false} GroupedChars(s: string, base: nat, lead: bool)
    requires Grouped(s, base, lead)
    ensures forall i :: 0 <= i < |s| ==> s[i] == '_' || IsDigitIn(s[i], base)
    decreases |s|
  {
    if s[0] == '_' {
      if |s| > 2 {
        GroupedChars(s[2..], base, true);
        assert forall i :: 2 <= i < |s| ==> s[i] == s[2..][i - 2];
      }
    } else if |s| > 1 {
      GroupedChars(s[1..], base, true);
      assert forall i :: 1 <= i < |s| ==> s[i] == s[1..][i - 1];
    }
  }

  predicate AllZeros(s: string) {
    forall i :: 0 <= i < |s| ==> s[i] == '0' || s[i] == '_'
  }

  /** The ASCII characters Python counts as whitespace: tab to carriage
      return, the four separators 0x1C to 0x1F, and the space. */
  predicate IsSpace(c: char) {
    c == ' ' || 9 <= c as int <= 13 || 28 <= c as int <= 31
  }

  /** Python `s.strip()` restricted to ASCII whitespace. */
  function Strip(s: string): (t: string)
    ensures |t| <= |s|
    decreases |s|
  {
    if |s| > 0 && IsSpace(s[0]) then Strip(s[1..])
    else if |s| > 0 && IsSpace(s[|s| - 1]) then Strip(s[..|s| - 1])
    else s
  }

  /** Splits an optional leading sign off a literal. */
  function SignSplit(s: string): (bool, string) {
    if |s| > 0 && s[0] == '-' then (true, s[1..])
    else if |s| > 0 && s[0] == '+' then (false, s[1..])
    else (false, s)
  }

  function Signed(negative: bool, magnitude: nat): int {
    if negative then -(magnitude as int) else magnitude
  }

  function IntError(base: nat, s: string): Exc {
    ValueError("invalid literal for int() with base " + Dec(base) + ": '" + s + "'")
  }

  /** Python `int(s)`: decimal digits only, leading zeros allowed. */
  function ParseInt(s: string): (r: Result<int>)
  {
    var (negative, body) := SignSplit(Strip(s));
    if Grouped(body, 10, false) then
      GroupedChars(body, 10, false);
      Ok(Signed(negative, DigitsValue(body, 10)))
    else Err(IntError(10, s))
  }

  /** The literal body after a `0x`/`0o`/`0b` prefix, with its base. */
  function RadixOf(body: string): (nat, string) {
    if |body| >= 2 && body[0] == '0' && (body[1] == 'x' || body[1] == 'X') then (16, body[2..])
    else if |body| >= 2 && body[0] == '0' && (body[1] == 'o' || body[1] == 'O') then (8, body[2..])
    else if |body| >= 2 && body[0] == '0' && (body[1] == 'b' || body[1] == 'B') then (2, body[2..])
    else (10, body)
  }

  /** Python `int(s, 0)`: the base comes from the prefix, and a decimal
      literal with a leading zero must consist of zeros only. */
  function ParseInt0(s: string): (r: Result<int>)
  {
    var (negative, body) := SignSplit(Strip(s));
    var (base, digits) := RadixOf(body);
    if base != 10 && Grouped(digits, base, true) then
      GroupedChars(digits, base, true);
      Ok(Signed(negative, DigitsValue(digits, base)))
    else if base == 10 && Grouped(digits, 10, false) && (digits[0] != '0' || AllZeros(digits)) then
      GroupedChars(digits, 10, false);
      Ok(Signed(negative, DigitsValue(digits, 10)))
    else Err(IntError(0, s))
  }

  // ---------------------------------------------------------------------
  // Rendering and parsing are inverse
  // ---------------------------------------------------------------------

  lemma {:induction false} NatDigitsValue(n: nat, base: nat)
    requires 2 <= base <= 16
    ensures DigitsValue(NatDigits(n, base), base) == n
    decreases n
  {
    if n < base {
      DigitCharIn(n, base);
    } else {
      DivStep(n, base);
      var q, d := n / base, n % base;
      DigitCharIn(d, base);
      var p := NatDigits(q, base);
      var s := p + [DigitChar(d)];
      assert NatDigits(n, base) == s;
      assert s[..|s| - 1] == p;
      NatDigitsValue(q, base);
      calc {
        DigitsValue(s, base);
        DigitsValue(p, base) * base + DigitValue(DigitChar(d), base);
        q * base + d;
      }
    }
  }

  lemma {:induction false} NatDigitsGrouped(n: nat, base: nat, lead: bool)
    requires 2 <= base <= 16
    ensures Grouped(NatDigits(n, base), base, lead)
    decreases n
  {
    if n < base {
      DigitCharIn(n, base);
    } else {
      DivStep(n, base);
      var q, d := n / base, n % base;
      DigitCharIn(d, base);
      NatDigitsGrouped(q, base, lead);
      assert NatDigits(n, base) == NatDigits(q, base) + [DigitChar(d)];
      GroupedAppend(NatDigits(q, base), DigitChar(d), base, lead);
    }
  }

  /** Renderings carry no leading zero, except for zero itself. */
  lemma {:induction false} NatDigitsLead(n: nat, base: nat)
    requires 2 <= base <= 16
    ensures NatDigits(n, base)[0] == '0' ==> n == 0
    decreases n
  {
    if n >= base {
      DivStep(n, base);
      NatDigitsLead(n / base, base);
      assert NatDigits(n, base)[0] == NatDigits(n / base, base)[0];
    }
  }

  lemma NatDigitsShape(n: nat, base: nat)
    requires 2 <= base <= 16
    ensures forall i :: 0 <= i < |NatDigits(n, base)| ==> IsDigitIn(NatDigits(n, base)[i], base)
    ensures Grouped(NatDigits(n, base), base, false) && Grouped(NatDigits(n, base), base, true)
    ensures DigitsValue(NatDigits(n, base), base) == n
    ensures NatDigits(n, base)[0] == '0' ==> n == 0
  {
    NatDigitsValue(n, base);
    NatDigitsGrouped(n, base, false);
    NatDigitsGrouped(n, base, true);
    NatDigitsLead(n, base);
  }

  /** Appending one more digit keeps a digit run well formed. */
  lemma {:induction false} GroupedAppend(s: string, c: char, base: nat, lead: bool)
    requires Grouped(s, base, lead) && IsDigitIn(c, base)
    requires forall i :: 0 <= i < |s| ==> IsDigitIn(s[i], base)
    ensures Grouped(s + [c], base, lead)
    decreases |s|
  {
    var t := s + [c];
    if |s| > 1 {
      assert t[1..] == s[1..] + [c];
      assert forall i :: 0 <= i < |s[1..]| ==> s[1..][i] == s[i + 1];
      GroupedAppend(s[1..], c, base, true);
    } else {
      assert t[1..] == [c];
    }
  }

  lemma NatDigitsNoSpace(n: nat, base: nat)
    requires 2 <= base <= 16
    ensures forall i :: 0 <= i < |NatDigits(n, base)| ==> !IsSpace(NatDigits(n, base)[i])
    ensures forall i :: 0 <= i < |NatDigits(n, base)| ==> NatDigits(n, base)[i] != '-' && NatDigits(n, base)[i] != '+'
  {
    NatDigitsShape(n, base);
  }

  /** `int(str(n)) == n` for every integer. */
  lemma DecRoundTrip(n: int)
    ensures ParseInt(Dec(n)) == Ok(n)
  {
    var m: nat := if n < 0 then -n else n;
    NatDigitsShape(m, 10);
    NatDigitsNoSpace(m, 10);
    var s := Dec(n);
    assert Strip(s) == s;
    if n < 0 {
      assert s[1..] == NatDigits(m, 10);
    }
  }

  /** `str` is injective on integers. */
  lemma DecInjective(a: int, b: int)
    requires Dec(a) == Dec(b)
    ensures a == b
  {
    DecRoundTrip(a);
    DecRoundTrip(b);
  }

  /** A string with no blank at either end is its own `strip()`. */
  lemma StripNoop(s: string)
    requires |s| > 0 && !IsSpace(s[0]) && !IsSpace(s[|s| - 1])
    ensures Strip(s) == s
  {
  }

  /** `hex()`'s output has no blank to strip. */
  lemma HexLiteralStrip(negative: bool, digits: string)
    requires |digits| > 0
    requires forall i :: 0 <= i < |digits| ==> IsDigitIn(digits[i], 16)
    ensures Strip((if negative then "-0x" else "0x") + digits) == (if negative then "-0x" else "0x") + digits
  {
    var s := (if negative then "-0x" else "0x") + digits;
    var last := digits[|digits| - 1];
    assert s[|s| - 1] == last;
    assert IsDigitIn(last, 16);
    StripNoop(s);
  }

  /** The sign and the radix prefix of `hex()`'s output split off as
      `int(_, 0)` expects. */
  lemma HexLiteralPrefix(negative: bool, digits: string)
    ensures SignSplit((if negative then "-0x" else "0x") + digits) == (negative, "0x" + digits)
    ensures RadixOf("0x" + digits) == (16, digits)
  {
    var body := "0x" + digits;
    var s := (if negative then "-0x" else "0x") + digits;
    if negative {
      assert s[1..] == body;
    } else {
      assert s == body;
    }
    assert body[2..] == digits;
  }

  /** `int(("-" if negative else "") + "0x" + digits, 0)` reads back the
      hexadecimal value of `digits`. */
  lemma ParseInt0Hex(negative: bool, digits: string)
    requires |digits| > 0
    requires forall i :: 0 <= i < |digits| ==> IsDigitIn(digits[i], 16)
    requires Grouped(digits, 16, true)
    ensures ParseInt0((if negative then "-0x" else "0x") + digits)
         == Ok(Signed(negative, DigitsValue(digits, 16)))
  {
    HexLiteralStrip(negative, digits);
    HexLiteralPrefix(negative, digits);
    ParseInt0Radix((if negative then "-0x" else "0x") + digits, negative, "0x" + digits, digits);
  }

  lemma ParseInt0Radix(s: string, negative: bool, body: string, digits: string)
    requires SignSplit(Strip(s)) == (negative, body)
    requires RadixOf(body) == (16, digits)
    requires Grouped(digits, 16, true)
    requires forall i :: 0 <= i < |digits| ==> IsDigitIn(digits[i], 16)
    ensures ParseInt0(s) == Ok(Signed(negative, DigitsValue(digits, 16)))
  {
  }

  /** `int(hex(n), 0) == n` for every integer. */
  lemma PyHexRoundTrip(n: int)
    ensures ParseInt0(PyHex(n)) == Ok(n)
  {
    var m: nat := if n < 0 then -n else n;
    NatDigitsShape(m, 16);
    ParseInt0Hex(n < 0, NatDigits(m, 16));
  }

  lemma ParseInt0Decimal(s: string, negative: bool, body: string)
    requires SignSplit(Strip(s)) == (negative, body)
    requires RadixOf(body) == (10, body)
    requires Grouped(body, 10, false) && (body[0] != '0' || AllZeros(body))
    requires forall i :: 0 <= i < |body| ==> IsDigitIn(body[i], 10)
    ensures ParseInt0(s) == Ok(Signed(negative, DigitsValue(body, 10)))
  {
  }

  /** `int(str(n), 0) == n` for every integer: decimal renderings never
      carry a leading zero. */
  lemma DecRoundTrip0(n: int)
    ensures ParseInt0(Dec(n)) == Ok(n)
  {
    var m: nat := if n < 0 then -n else n;
    NatDigitsShape(m, 10);
    NatDigitsNoSpace(m, 10);
    var s := Dec(n);
    assert Strip(s) == s;
    var body := NatDigits(m, 10);
    if n < 0 {
      assert s[1..] == body;
    }
    assert SignSplit(Strip(s)) == (n < 0, body);
    assert IsDigitIn(body[0], 10);
    if |body| >= 2 {
      assert IsDigitIn(body[1], 10);
    }
    assert RadixOf(body) == (10, body);
    if body[0] == '0' {
      assert m == 0;
      assert body == "0";
      assert AllZeros(body);
    }
    ParseInt0Decimal(s, n < 0, body);
  }

  // ---------------------------------------------------------------------
  // str.split(" ") and " ".join
  // ---------------------------------------------------------------------

  /** Python `s.split(" ")`: cut at every single space; never empty. */
  function SplitSpace(s: string): (parts: seq<string>)
    ensures |parts| > 0
    decreases |s|
  {
    if |s| == 0 then [""]
    else if s[0] == ' ' then [""] + SplitSpace(s[1..])
    else
      var rest := SplitSpace(s[1..]);
      [[s[0]] + rest[0]] + rest[1..]
  }

  /** Python `" ".join(parts)`. */
  function JoinSpace(parts: seq<string>): string
    decreases |parts|
  {
    if |parts| == 0 then ""
    else if |parts| == 1 then parts[0]
    else parts[0] + " " + JoinSpace(parts[1..])
  }

  predicate NoSpace(t: string) {
    forall i :: 0 <= i < |t| ==> t[i] != ' '
  }

  /** Splitting loses nothing: joining the parts gives back the string. */
  lemma {:induction false} JoinSplit(s: string)
    ensures JoinSpace(SplitSpace(s)) == s
    ensures forall i :: 0 <= i < |SplitSpace(s)| ==> NoSpace(SplitSpace(s)[i])
    decreases |s|
  {
    if |s| > 0 {
      JoinSplit(s[1..]);
      var rest := SplitSpace(s[1..]);
      if s[0] == ' ' {
        assert SplitSpace(s) == [""] + rest;
        if |rest| == 1 {
          assert JoinSpace(SplitSpace(s)) == "" + " " + rest[0];
        } else {
          assert SplitSpace(s)[1..] == rest;
        }
        assert s == [' '] + s[1..];
      } else {
        var parts := SplitSpace(s);
        assert parts == [[s[0]] + rest[0]] + rest[1..];
        if |rest| == 1 {
          assert JoinSpace(parts) == [s[0]] + rest[0];
        } else {
          assert parts[1..] == rest[1..];
          assert JoinSpace(rest) == rest[0] + " " + JoinSpace(rest[1..]);
        }
        assert s == [s[0]] + s[1..];
        assert forall i :: 1 <= i < |parts| ==> parts[i] == rest[i];
      }
    }
  }

  /** Splitting a space-joined list of space-free tokens gives the tokens back. */
  lemma {:induction false} SplitJoin(parts: seq<string>)
    requires |parts| > 0
    requires forall i :: 0 <= i < |parts| ==> NoSpace(parts[i])
    ensures SplitSpace(JoinSpace(parts)) == parts
    decreases |parts|
  {
    if |parts| == 1 {
      SplitNoSpace(parts[0]);
    } else {
      SplitJoin(parts[1..]);
      SplitPrefix(parts[0], JoinSpace(parts[1..]));
      assert [parts[0]] + parts[1..] == parts;
    }
  }

  lemma {:induction false} SplitNoSpace(t: string)
    requires NoSpace(t)
    ensures SplitSpace(t) == [t]
    decreases |t|
  {
    if |t| > 0 {
      SplitNoSpace(t[1..]);
      assert [t[0]] + t[1..] == t;
    }
  }

  lemma {:induction false} SplitPrefix(t: string, rest: string)
    requires NoSpace(t)
    ensures SplitSpace(t + " " + rest) == [t] + SplitSpace(rest)
    decreases |t|
  {
    if |t| == 0 {
      assert t + " " + rest == [' '] + rest;
      assert (t + " " + rest)[1..] == rest;
    } else {
      var u := t + " " + rest;
      assert u[1..] == t[1..] + " " + rest;
      SplitPrefix(t[1..], rest);
      assert [t[0]] + t[1..] == t;
    }
  }

  // ---------------------------------------------------------------------
  // The last path component
  // ---------------------------------------------------------------------

  predicate IsSeparator(c: char) { c == '/' || c == '\\' }

  /** Python `re.split(r'/|\\', s)[-1]`: what follows the last `/` or `\`. */
  function LastComponent(s: string): string
    decreases |s|
  {
    if |s| == 0 then ""
    else if IsSeparator(s[|s| - 1]) then ""
    else LastComponent(s[..|s| - 1]) + [s[|s| - 1]]
  }

  /** The last component is free of separators. */
  lemma {:induction false} LastComponentClean(s: string)
    ensures forall i :: 0 <= i < |LastComponent(s)| ==> !IsSeparator(LastComponent(s)[i])
    decreases |s|
  {
    if |s| > 0 && !IsSeparator(s[|s| - 1]) {
      var init := s[..|s| - 1];
      LastComponentClean(init);
      assert LastComponent(s) == LastComponent(init) + [s[|s| - 1]];
    }
  }

  /** The last component is a suffix of `s` free of separators, and it is
      either all of `s` or preceded by a separator. */
  lemma {:induction false} LastComponentShape(s: string)
    ensures |LastComponent(s)| <= |s|
    ensures s[|s| - |LastComponent(s)|..] == LastComponent(s)
    ensures forall i :: 0 <= i < |LastComponent(s)| ==> !IsSeparator(LastComponent(s)[i])
    ensures |LastComponent(s)| == |s| || IsSeparator(s[|s| - |LastComponent(s)| - 1])
    decreases |s|
  {
    LastComponentClean(s);
    if |s| > 0 && !IsSeparator(s[|s| - 1]) {
      var n := |s|;
      var init := s[..n - 1];
      LastComponentShape(init);
      var c := LastComponent(init);
      var m := |c|;
      assert LastComponent(s) == c + [s[n - 1]];
      assert init[n - 1 - m..] == c;
      assert s[n - (m + 1)..] == init[n - 1 - m..] + [s[n - 1]];
      if m < n - 1 {
        assert s[n - (m + 1) - 1] == init[n - 1 - m - 1];
      }
    }
  }
}
