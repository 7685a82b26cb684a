/**
 * Numbers as text: what %lu, %08lX and Rust's {} and {:08X} print, and what strtoul (32-bit unsigned long) and
 * Rust's integer parsers read.
 */
module Numerals {
  import opened Wrappers

  const WORD: nat := 0x1_0000_0000

  // ---------------------------------------------------------------- digits

  /** proto_hex_value and hex_value: the same table. */
  function HexValue(c: char): Option<nat> {
    if '0' <= c <= '9' then Some(c as nat - '0' as nat)
    else if 'A' <= c <= 'F' then Some(c as nat - 'A' as nat + 10)
    else if 'a' <= c <= 'f' then Some(c as nat - 'a' as nat + 10)
    else None
  }

  function HexDigit(value: nat): (c: char)
    requires value < 16
    ensures HexValue(c) == Some(value)
  {
    if value < 10 then '0' + value as char else 'A' + (value - 10) as char
  }

  const CAPITALS := "0123456789ABCDEF"
  const SMALL := "0123456789abcdef"

  /** Digits are printed as capitals and read in either case. */
  lemma HexTable(c: char, value: nat)
    requires value < 16
    ensures HexDigit(value) == CAPITALS[value]
    ensures HexValue(c) == Some(value) <==> c == CAPITALS[value] || c == SMALL[value]
  {
  }

  lemma NoOtherDigit(c: char)
    ensures HexValue(c).Some? ==> HexValue(c).value < 16
    ensures HexValue(c).None? <==> c !in CAPITALS && c !in SMALL
  {
    if HexValue(c).Some? {
      HexTable(c, HexValue(c).value);
      assert CAPITALS[HexValue(c).value] in CAPITALS && SMALL[HexValue(c).value] in SMALL;
    }
  }

  function DigitOr0(c: char): nat {
    if HexValue(c).Some? then HexValue(c).value else 0
  }

  predicate IsDigit(c: char, base: nat) {
    HexValue(c).Some? && HexValue(c).value < base
  }

  predicate AllDigits(s: string, base: nat) {
    forall i :: 0 <= i < |s| ==> IsDigit(s[i], base)
  }

  /** The number a row of digits names; anything else counts as zero. */
  function Value(s: string, base: nat): nat {
    if s == [] then 0
    else Value(s[..|s| - 1], base) * base + DigitOr0(s[|s| - 1])
  }

  // ---------------------------------------------------------------- printing

  function Dec(n: nat): (s: string)
    ensures s != [] && AllDigits(s, 10)
  {
    if n < 10 then [HexDigit(n)] else Dec(n / 10) + [HexDigit(n % 10)]
  }

  function HexDigits(n: nat, width: nat): (s: string)
    ensures |s| == width && AllDigits(s, 16)
  {
    if width == 0 then [] else HexDigits(n / 16, width - 1) + [HexDigit(n % 16)]
  }

  function Hex8(n: nat): string {
    HexDigits(n, 8)
  }

  lemma ValueSnoc(s: string, c: char, base: nat)
    requires IsDigit(c, base)
    ensures Value(s + [c], base) == Value(s, base) * base + HexValue(c).value
  {
    assert (s + [c])[..|s|] == s;
  }

  lemma {:induction false} DecValue(n: nat)
    ensures Value(Dec(n), 10) == n
  {
    if n < 10 {
      ValueSnoc([], HexDigit(n), 10);
      assert [] + [HexDigit(n)] == [HexDigit(n)];
    } else {
      DecValue(n / 10);
      ValueSnoc(Dec(n / 10), HexDigit(n % 10), 10);
    }
  }

  function Power(base: nat, k: nat): nat {
    if k == 0 then 1 else base * Power(base, k - 1)
  }

  lemma {:induction false} DecLength(n: nat, k: nat)
    requires 0 < k && n < Power(10, k)
    ensures |Dec(n)| <= k
  {
    if n >= 10 {
      assert k > 1;
      DecLength(n / 10, k - 1);
    }
  }

  lemma {:induction false} HexDigitsValue(n: nat, width: nat)
    requires n < Power(16, width)
    ensures Value(HexDigits(n, width), 16) == n
  {
    if width > 0 {
      HexDigitsValue(n / 16, width - 1);
      ValueSnoc(HexDigits(n / 16, width - 1), HexDigit(n % 16), 16);
    }
  }

  // ---------------------------------------------------------------- Rust's parsers

  /** from_str_radix of an unsigned type below bound: an optional plus sign, then only digits, and in range. */
  function ParseUnsigned(s: string, base: nat, bound: nat): (r: Option<nat>)
    ensures r.Some? ==> r.value < bound
  {
    var digits := if |s| > 1 && s[0] == '+' then s[1..] else s;
    if digits != [] && AllDigits(digits, base) && Value(digits, base) < bound
    then Some(Value(digits, base))
    else None
  }

  /** Digits that name the number. */
  predicate Names(digits: string, base: nat, n: nat) {
    digits != "" && AllDigits(digits, base) && Value(digits, base) == n
  }

  /** Rust's parsers accept digits that name a number in range, with or without a plus sign, and nothing else. */
  lemma ParsesExactly(s: string, base: nat, bound: nat, n: nat)
    ensures ParseUnsigned(s, base, bound) == Some(n) <==>
      n < bound && (Names(s, base, n) || (s != "" && s[0] == '+' && Names(s[1..], base, n)))
  {
    if s != "" && IsDigit(s[0], base) {
      DigitIsPlain(s[0], base);
    }
  }

  // ---------------------------------------------------------------- strtoul

  predicate IsSpace(c: char) {
    c == ' ' || '\t' <= c <= '\r'
  }

  function SkipSpaces(s: string): (n: nat)
    ensures n <= |s|
  {
    if s != [] && IsSpace(s[0]) then 1 + SkipSpaces(s[1..]) else 0
  }

  function DigitRun(s: string, base: nat): (n: nat)
    ensures n <= |s| && AllDigits(s[..n], base)
    ensures n < |s| ==> !IsDigit(s[n], base)
  {
    if s != [] && IsDigit(s[0], base) then 1 + DigitRun(s[1..], base) else 0
  }

  predicate Prefix0x(s: string) {
    |s| >= 3 && s[0] == '0' && (s[1] == 'x' || s[1] == 'X') && IsDigit(s[2], 16)
  }

  /** The value, at most 2^32 - 1, and how many characters were read: none when no digit was found. */
  function Strtoul(s: string, base: nat): (r: (nat, nat))
    ensures r.0 < WORD && r.1 <= |s|
  {
    var spaces := SkipSpaces(s);
    var sign := if spaces < |s| && (s[spaces] == '+' || s[spaces] == '-') then spaces + 1 else spaces;
    var start := if base == 16 && Prefix0x(s[sign..]) then sign + 2 else sign;
    var n := DigitRun(s[start..], base);
    var value := Value(s[start..start + n], base);
    if n == 0 then (0, 0)
    else if value >= WORD then (WORD - 1, start + n)
    else if sign > spaces && s[spaces] == '-' then ((WORD - value) % WORD, start + n)
    else (value, start + n)
  }

  lemma {:induction false} AllIsRun(s: string, base: nat)
    requires AllDigits(s, base)
    ensures DigitRun(s, base) == |s|
  {
    if s != [] {
      AllIsRun(s[1..], base);
    }
  }

  lemma DigitIsPlain(c: char, base: nat)
    requires IsDigit(c, base)
    ensures !IsSpace(c) && c != '+' && c != '-' && c != 'x' && c != 'X'
  {
  }

  lemma NoPrefix(s: string, base: nat)
    requires AllDigits(s, base)
    ensures !Prefix0x(s)
  {
    if |s| >= 3 {
      DigitIsPlain(s[1], base);
    }
  }

  /** Without spaces, sign or prefix strtoul is a run of digits. */
  lemma StrtoulOfPlain(s: string, base: nat)
    requires s != [] && !IsSpace(s[0]) && s[0] != '+' && s[0] != '-' && !Prefix0x(s)
    requires DigitRun(s, base) > 0
    ensures var n := DigitRun(s, base);
      var value := Value(s[..n], base);
      Strtoul(s, base) == (if value < WORD then value else WORD - 1, n)
  {
    assert SkipSpaces(s) == 0;
    assert s[0..] == s;
    assert s[0..DigitRun(s, base)] == s[..DigitRun(s, base)];
  }

  /** On a row of digits strtoul reads all of it. */
  lemma StrtoulOfDigits(s: string, base: nat)
    requires s != [] && AllDigits(s, base)
    ensures Strtoul(s, base) == (if Value(s, base) < WORD then Value(s, base) else WORD - 1, |s|)
  {
    DigitIsPlain(s[0], base);
    NoPrefix(s, base);
    AllIsRun(s, base);
    StrtoulOfPlain(s, base);
    assert s[..|s|] == s;
  }

  /** The white space of C. */
  const C_SPACES := " \t\n\U{0B}\U{0C}\r"

  lemma {:induction false} SkipSpacesIs(s: string, p: nat)
    requires p < |s| && s[p] !in C_SPACES && forall i :: 0 <= i < p ==> s[i] in C_SPACES
    ensures SkipSpaces(s) == p
  {
    if p > 0 {
      SkipSpacesIs(s[1..], p - 1);
    }
  }

  lemma {:induction false} DigitRunIs(s: string, n: nat, base: nat)
    requires n <= |s| && (n < |s| ==> !IsDigit(s[n], base)) && forall i :: 0 <= i < n ==> IsDigit(s[i], base)
    ensures DigitRun(s, base) == n
  {
    if n > 0 {
      DigitRunIs(s[1..], n - 1, base);
    }
  }

  /** The value strtoul makes of a row of digits: cut off at the largest, and negated modulo 2^32 behind a minus sign. */
  function Signed(value: nat, minus: bool): nat {
    if value >= WORD then WORD - 1 else if minus then (WORD - value) % WORD else value
  }

  /** Blanks up to p, a sign or none, then the digits from start on. */
  predicate NumberAt(s: string, p: nat, start: nat) {
    && p <= start < |s| && (forall i :: 0 <= i < p ==> s[i] in C_SPACES) && s[p] !in C_SPACES
    && start == if s[p] == '+' || s[p] == '-' then p + 1 else p
  }

  lemma StrtoulAt(s: string, p: nat, start: nat, n: nat, base: nat)
    requires base != 16 && NumberAt(s, p, start) && SkipSpaces(s) == p && DigitRun(s[start..], base) == n
    ensures start + n <= |s|
    ensures Strtoul(s, base) ==
      if n == 0 then (0, 0) else (Signed(Value(s[start..start + n], base), s[p] == '-'), start + n)
  {
  }

  /** Blanks, a sign, digits and what stops them: strtoul reads the number and says where it stopped. */
  lemma StrtoulReads(s: string, p: nat, start: nat, n: nat, base: nat)
    requires base != 16 && NumberAt(s, p, start) && start + n <= |s|
    requires forall i :: start <= i < start + n ==> IsDigit(s[i], base)
    requires start + n < |s| ==> !IsDigit(s[start + n], base)
    ensures Strtoul(s, base) ==
      if n == 0 then (0, 0) else (Signed(Value(s[start..start + n], base), s[p] == '-'), start + n)
  {
    SkipSpacesIs(s, p);
    DigitRunIs(s[start..], n, base);
    StrtoulAt(s, p, start, n, base);
  }

  /** In hex a leading 0x or 0X is passed over. */
  lemma StrtoulPassesPrefix(s: string, n: nat, base: nat)
    requires base == 16 && 2 < 2 + n <= |s| && s[0] == '0' && (s[1] == 'x' || s[1] == 'X')
    requires forall i :: 2 <= i < 2 + n ==> IsDigit(s[i], base)
    requires 2 + n < |s| ==> !IsDigit(s[2 + n], base)
    ensures Strtoul(s, base) == (Signed(Value(s[2..2 + n], base), false), 2 + n)
  {
    assert SkipSpaces(s) == 0 && s[0..] == s;
    DigitRunIs(s[2..], n, base);
  }

  lemma WordIsEightHexDigits()
    ensures Power(16, 8) == WORD
  {
    assert Power(16, 2) == 0x100;
    assert Power(16, 4) == 0x1_0000 by { assert Power(16, 3) == 0x1000; }
    assert Power(16, 6) == 0x100_0000 by { assert Power(16, 5) == 0x10_0000; }
    assert Power(16, 7) == 0x1000_0000;
  }

  lemma DigitsParse(s: string, base: nat, bound: nat)
    requires s != [] && AllDigits(s, base) && Value(s, base) < bound
    ensures ParseUnsigned(s, base, bound) == Some(Value(s, base))
  {
    assert IsDigit(s[0], base);
    assert s[0] != '+';
  }

  /** Eight hex digits printed by one side are read back by the other, whichever side prints. */
  lemma HexCrosses(n: nat)
    requires n < WORD
    ensures ParseUnsigned(Hex8(n), 16, WORD) == Some(n)
    ensures Strtoul(Hex8(n), 16).0 == n
  {
    WordIsEightHexDigits();
    HexDigitsValue(n, 8);
    DigitsParse(Hex8(n), 16, WORD);
    StrtoulOfDigits(Hex8(n), 16);
  }

  /** Decimals too; strtoul's unsigned long is where the client's range ends. */
  lemma DecCrosses(n: nat, bound: nat)
    requires n < bound
    ensures ParseUnsigned(Dec(n), 10, bound) == Some(n)
    ensures Strtoul(Dec(n), 10).0 == if n < WORD then n else WORD - 1
  {
    DecValue(n);
    DigitsParse(Dec(n), 10, bound);
    StrtoulOfDigits(Dec(n), 10);
  }
}
