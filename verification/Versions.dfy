/**
 * The client's version comparison (client/proto.c): it terminates on any two strings, and where every number is read
 * to its end, as in dotted decimals, it compares the numbers lexicographically, a missing one counting as zero.
 */
module Versions {
  import opened Numerals

  /** Past the number strtoul reads, and past one dot. */
  function After(s: string): string {
    var rest := s[Strtoul(s, 10).1..];
    if rest != [] && rest[0] == '.' then rest[1..] else rest
  }

  /** Only the end, or something that stops the comparison, is left where it is. */
  lemma AfterAdvances(s: string)
    ensures |After(s)| <= |s|
    ensures s != [] && |After(s)| == |s| ==> Odd(After(s))
  {
    if s != [] && Strtoul(s, 10).1 == 0 {
      assert IsDigit(s[0], 10) ==> SkipSpaces(s) == 0 && s[0..] == s && DigitRun(s, 10) > 0;
    }
  }

  /** What stops the comparison: something that is neither the end nor a digit. */
  predicate Odd(s: string) {
    s != [] && !IsDigit(s[0], 10)
  }

  function Compare(left: string, right: string): (sign: int)
    ensures -1 <= sign <= 1
    decreases |left| + |right|
  {
    var l, r := Strtoul(left, 10).0, Strtoul(right, 10).0;
    AfterAdvances(left);
    AfterAdvances(right);
    if left == [] && right == [] then 0
    else if l < r then -1
    else if l > r then 1
    else if Odd(After(left)) || Odd(After(right)) then 0
    else Compare(After(left), After(right))
  }

  predicate Next(s: string, value: nat, rest: string) {
    value == Strtoul(s, 10).0 && rest == After(s)
  }

  /** One turn of the loop: it decides, or leaves the rest to be compared and has moved on. */
  lemma CompareTurn(l: string, r: string, leftValue: nat, rightValue: nat, l': string, r': string)
    requires Next(l, leftValue, l') && Next(r, rightValue, r') && (l != [] || r != [])
    ensures Compare(l, r) ==
      if leftValue < rightValue then -1
      else if leftValue > rightValue then 1
      else if Odd(l') || Odd(r') then 0
      else Compare(l', r')
    ensures !Odd(l') && !Odd(r') ==> |l'| + |r'| < |l| + |r|
  {
    AfterAdvances(l);
    AfterAdvances(r);
  }

  lemma OddCharacter(s: string)
    ensures Odd(s) <==> s != [] && !('0' <= s[0] <= '9')
  {
  }

  /** proto_compare_versions. */
  method ProtoCompareVersions(left: string, right: string) returns (sign: int)
    ensures sign == Compare(left, right)
  {
    var l, r := left, right;
    while l != [] || r != []
      invariant Compare(l, r) == Compare(left, right)
      decreases |l| + |r|
    {
      var leftValue, l' := NextNumber(l);
      var rightValue, r' := NextNumber(r);
      CompareTurn(l, r, leftValue, rightValue, l', r');
      OddCharacter(l');
      OddCharacter(r');
      l, r := l', r';
      if leftValue < rightValue {
        return -1;
      }
      if leftValue > rightValue {
        return 1;
      }
      if (l != [] && !('0' <= l[0] <= '9')) || (r != [] && !('0' <= r[0] <= '9')) {
        return 0;
      }
    }
    return 0;
  }

  /** strtoul with its end pointer, then one dot. */
  method NextNumber(s: string) returns (value: nat, rest: string)
    ensures Next(s, value, rest)
  {
    var (v, end) := Strtoul(s, 10);
    value := v;
    rest := s[end..];
    if rest != [] && rest[0] == '.' {
      rest := rest[1..];
    }
  }

  /** Swapping the arguments swaps the sign, on any two strings. */
  lemma {:induction false} CompareAntisymmetric(left: string, right: string)
    ensures Compare(left, right) == -Compare(right, left)
    decreases |left| + |right|
  {
    AfterAdvances(left);
    AfterAdvances(right);
    if (left != [] || right != []) && !Odd(After(left)) && !Odd(After(right)) {
      CompareAntisymmetric(After(left), After(right));
    }
  }

  // ---------------------------------------------------------------- dotted decimals

  /** One or more runs of digits with single dots between them. */
  predicate Dotted(s: string) {
    var n := DigitRun(s, 10);
    n > 0 && (n == |s| || (s[n] == '.' && Dotted(s[n + 1..])))
  }

  predicate Version(s: string) {
    s == [] || Dotted(s)
  }

  /** The components, each at most 2^32 - 1. */
  function Components(s: string): seq<nat>
    requires Version(s)
  {
    if s == [] then []
    else
      var n := DigitRun(s, 10);
      var value := Value(s[..n], 10);
      [if value < WORD then value else WORD - 1] + if n == |s| then [] else Components(s[n + 1..])
  }

  function At(v: seq<nat>, i: nat): nat {
    if i < |v| then v[i] else 0
  }

  predicate SameUpTo(v: seq<nat>, w: seq<nat>, n: nat) {
    forall i: nat :: i < n ==> At(v, i) == At(w, i)
  }

  ghost predicate Before(v: seq<nat>, w: seq<nat>) {
    exists i: nat :: At(v, i) < At(w, i) && SameUpTo(v, w, i)
  }

  ghost predicate Same(v: seq<nat>, w: seq<nat>) {
    forall i: nat :: At(v, i) == At(w, i)
  }

  function Tail(v: seq<nat>): seq<nat> {
    if v == [] then [] else v[1..]
  }

  lemma TailAt(v: seq<nat>, i: nat)
    ensures At(Tail(v), i) == At(v, i + 1)
  {
  }

  lemma StrtoulOfVersion(s: string)
    requires Version(s)
    ensures Strtoul(s, 10).0 == At(Components(s), 0)
    ensures Version(After(s)) && !Odd(After(s)) && Components(After(s)) == Tail(Components(s))
  {
    if s != [] {
      var n := DigitRun(s, 10);
      assert IsDigit(s[0], 10) && SkipSpaces(s) == 0 && s[0..] == s && s[0..n] == s[..n];
      assert Strtoul(s, 10).1 == n;
      if n < |s| {
        assert s[n..][1..] == s[n + 1..];
        assert After(s) == s[n + 1..];
      } else {
        assert After(s) == [];
      }
    }
  }

  /** What the heads and the tails say about the whole. */
  lemma HeadThenTail(v: seq<nat>, w: seq<nat>)
    ensures At(v, 0) < At(w, 0) ==> Before(v, w) && !Before(w, v) && !Same(v, w)
    ensures At(v, 0) == At(w, 0) ==>
      && (Before(v, w) <==> Before(Tail(v), Tail(w)))
      && (Same(v, w) <==> Same(Tail(v), Tail(w)))
  {
    if At(v, 0) < At(w, 0) {
      assert SameUpTo(v, w, 0);
    } else if At(v, 0) == At(w, 0) {
      if Before(v, w) {
        var i: nat :| At(v, i) < At(w, i) && SameUpTo(v, w, i);
        TailAt(v, i - 1);
        TailAt(w, i - 1);
        forall j: nat | j < i - 1
          ensures At(Tail(v), j) == At(Tail(w), j)
        {
          assert At(v, j + 1) == At(w, j + 1);
        }
        assert SameUpTo(Tail(v), Tail(w), i - 1);
      }
      if Before(Tail(v), Tail(w)) {
        var i: nat :| At(Tail(v), i) < At(Tail(w), i) && SameUpTo(Tail(v), Tail(w), i);
        forall j: nat | j < i + 1
          ensures At(v, j) == At(w, j)
        {
          if j > 0 {
            assert At(Tail(v), j - 1) == At(Tail(w), j - 1);
          }
        }
        assert At(v, i + 1) < At(w, i + 1) && SameUpTo(v, w, i + 1);
      }
      SameTails(v, w);
    }
  }

  lemma SameTails(v: seq<nat>, w: seq<nat>)
    requires At(v, 0) == At(w, 0)
    ensures Same(v, w) <==> Same(Tail(v), Tail(w))
  {
    if Same(v, w) {
      forall i: nat
        ensures At(Tail(v), i) == At(Tail(w), i)
      {
        assert At(v, i + 1) == At(w, i + 1);
      }
    }
    if Same(Tail(v), Tail(w)) {
      forall i: nat
        ensures At(v, i) == At(w, i)
      {
        if i > 0 {
          assert At(Tail(v), i - 1) == At(Tail(w), i - 1);
        }
      }
    }
  }

  // ---------------------------------------------------------------- strings that are read to their end

  /** No number read is followed by something that stops the comparison. */
  predicate Clean(s: string)
    decreases |s|
  {
    AfterAdvances(s);
    s == [] || (!Odd(After(s)) && Clean(After(s)))
  }

  /** The numbers read. */
  function Parts(s: string): seq<nat>
    decreases |s|
  {
    AfterAdvances(s);
    if s == [] then [] else [Strtoul(s, 10).0] + if Odd(After(s)) then [] else Parts(After(s))
  }

  lemma HeadOfParts(s: string)
    requires Clean(s)
    ensures At(Parts(s), 0) == Strtoul(s, 10).0
    ensures Clean(After(s)) && !Odd(After(s)) && Parts(After(s)) == Tail(Parts(s))
  {
  }

  /** In a clean string every number is followed by a dot, or by nothing; only the dot is passed over with it. */
  lemma OnlyDotsFollow(s: string)
    requires Clean(s) && s != []
    ensures var n := Strtoul(s, 10).1;
      && (n < |s| ==> s[n] == '.' && After(s) == s[n + 1..])
      && (n == |s| ==> After(s) == [])
  {
    var n := Strtoul(s, 10).1;
    if n < |s| && s[n] != '.' {
      assert After(s)[0] == s[n];
      StopsAtNoDigit(s);
    }
  }

  lemma StopsAtNoDigit(s: string)
    requires Strtoul(s, 10).1 < |s|
    ensures !IsDigit(s[Strtoul(s, 10).1], 10)
  {
    if IsDigit(s[0], 10) {
      DigitIsRead(s);
    }
  }

  lemma DigitIsRead(s: string)
    requires s != [] && IsDigit(s[0], 10)
    ensures Strtoul(s, 10).1 == DigitRun(s, 10) > 0
  {
    assert SkipSpaces(s) == 0 && s[0..] == s && DigitRun(s, 10) > 0;
  }

  /** Dotted decimals are among them, and read as they are written. */
  lemma {:induction false} VersionIsClean(s: string)
    requires Version(s)
    ensures Clean(s) && Parts(s) == Components(s)
    decreases |s|
  {
    if s != [] {
      AfterAdvances(s);
      StrtoulOfVersion(s);
      VersionIsClean(After(s));
      assert Components(s) == [At(Components(s), 0)] + Tail(Components(s));
    }
  }

  /** On clean strings the sign is that of the zero-padded lexicographic order of the numbers. */
  lemma {:induction false} CleanIsLexicographic(left: string, right: string)
    requires Clean(left) && Clean(right)
    ensures Compare(left, right) < 0 <==> Before(Parts(left), Parts(right))
    ensures Compare(left, right) > 0 <==> Before(Parts(right), Parts(left))
    ensures Compare(left, right) == 0 <==> Same(Parts(left), Parts(right))
    decreases |left| + |right|
  {
    var v, w := Parts(left), Parts(right);
    if left == [] && right == [] {
      assert Same(v, w) && !Before(v, w) && !Before(w, v);
    } else {
      AfterAdvances(left);
      AfterAdvances(right);
      HeadOfParts(left);
      HeadOfParts(right);
      HeadThenTail(v, w);
      HeadThenTail(w, v);
      if At(v, 0) == At(w, 0) {
        CleanIsLexicographic(After(left), After(right));
      } else {
        assert At(v, 0) != At(w, 0) ==> !Same(v, w);
      }
    }
  }

  /** On versions the sign is that of the zero-padded lexicographic order of the components. */
  lemma CompareIsLexicographic(left: string, right: string)
    requires Version(left) && Version(right)
    ensures Compare(left, right) < 0 <==> Before(Components(left), Components(right))
    ensures Compare(left, right) > 0 <==> Before(Components(right), Components(left))
    ensures Compare(left, right) == 0 <==> Same(Components(left), Components(right))
  {
    VersionIsClean(left);
    VersionIsClean(right);
    CleanIsLexicographic(left, right);
  }

  /** So clean strings, versions among them, are totally preordered. */
  lemma VersionsTransitive(a: string, b: string, c: string)
    requires Clean(a) && Clean(b) && Clean(c)
    requires Compare(a, b) <= 0 && Compare(b, c) <= 0
    ensures Compare(a, c) <= 0
    ensures Compare(a, c) == 0 <==> Compare(a, b) == 0 && Compare(b, c) == 0
  {
    CleanIsLexicographic(a, b);
    CleanIsLexicographic(b, c);
    CleanIsLexicographic(a, c);
    LexTransitive(Parts(a), Parts(b), Parts(c));
  }

  lemma LexTransitive(u: seq<nat>, v: seq<nat>, w: seq<nat>)
    requires (Before(u, v) || Same(u, v)) && (Before(v, w) || Same(v, w))
    ensures if Same(u, v) && Same(v, w) then Same(u, w) else Before(u, w)
  {
    if Same(u, v) && Before(v, w) {
      var i: nat :| At(v, i) < At(w, i) && SameUpTo(v, w, i);
      assert At(u, i) < At(w, i) && SameUpTo(u, w, i);
    } else if Before(u, v) && Same(v, w) {
      var i: nat :| At(u, i) < At(v, i) && SameUpTo(u, v, i);
      assert At(u, i) < At(w, i) && SameUpTo(u, w, i);
    } else if Before(u, v) && Before(v, w) {
      var i: nat :| At(u, i) < At(v, i) && SameUpTo(u, v, i);
      var j: nat :| At(v, j) < At(w, j) && SameUpTo(v, w, j);
      var k := if i < j then i else j;
      assert At(u, k) < At(w, k) && SameUpTo(u, w, k);
    }
  }

  // ---------------------------------------------------------------- exactly these strings

  /** The string takes its place in the order of the versions. */
  ghost predicate Orderly(s: string) {
    forall a, b :: Version(a) && Version(b) && Compare(a, s) <= 0 && Compare(s, b) <= 0 ==> Compare(a, b) <= 0
  }

  lemma PartIsWord(s: string)
    ensures Strtoul(s, 10).0 < WORD
  {
  }

  lemma JoinedNext(first: string, rest: string, s: string)
    requires first != [] && AllDigits(first, 10) && Value(first, 10) < WORD && Dotted(rest) && s == first + "." + rest
    ensures Dotted(s) && Components(s) == [Value(first, 10)] + Components(rest)
    ensures Next(s, Value(first, 10), rest) && !Odd(rest)
  {
    PointJoins(first, rest, s);
    JoinPlaces(first, rest, s);
    NextOfVersion(s, |first|, rest, Value(first, 10));
    NotOdd(rest);
  }

  lemma JoinPlaces(first: string, rest: string, s: string)
    requires AllDigits(first, 10) && s == first + "." + rest
    ensures |first| < |s| && s[|first|] == '.' && s[|first| + 1..] == rest && DigitRun(s, 10) == |first|
  {
    RunStops(first, "." + rest, s);
  }

  lemma NextOfVersion(s: string, n: nat, rest: string, value: nat)
    requires 0 < n < |s| && DigitRun(s, 10) == n && s[n] == '.' && s[n + 1..] == rest
    requires Version(s) && At(Components(s), 0) == value
    ensures Next(s, value, rest)
  {
    StrtoulOfVersion(s);
    AfterJoin(s, n, rest);
  }

  lemma NotOdd(rest: string)
    requires Dotted(rest)
    ensures !Odd(rest)
  {
  }

  lemma JoinedTies(value: nat, rest: string, s: string, other: string)
    requires s != [] && other != [] && Next(s, value, rest) && !Odd(rest)
    requires Strtoul(other, 10).0 == value
    requires Odd(After(other)) || Compare(rest, After(other)) == 0
    ensures Compare(s, other) == 0
  {
    CompareTurn(s, other, value, value, rest, After(other));
  }

  lemma AfterJoin(s: string, n: nat, rest: string)
    requires n < |s| && n > 0 && DigitRun(s, 10) == n && s[n] == '.' && s[n + 1..] == rest
    ensures After(s) == rest
  {
    FirstIsDigit(s);
    DigitIsRead(s);
    DotPassed(s, n);
  }

  lemma FirstIsDigit(s: string)
    requires DigitRun(s, 10) > 0
    ensures s != [] && IsDigit(s[0], 10)
  {
  }

  lemma DotPassed(s: string, n: nat)
    requires n < |s| && Strtoul(s, 10).1 == n && s[n] == '.'
    ensures After(s) == s[n + 1..]
  {
    assert s[n..][1..] == s[n + 1..];
  }

  lemma PartsOfUnclean(s: string)
    requires !Clean(s)
    ensures s != [] && Parts(s) == [Strtoul(s, 10).0] + if Odd(After(s)) then [] else Parts(After(s))
    ensures !Odd(After(s)) ==> !Clean(After(s)) && |After(s)| < |s|
  {
    AfterAdvances(s);
  }

  /** A version that goes on where the string stops the comparison, and ties with it. */
  lemma JoinAndTie(s: string, rest: string, a: string)
    requires s != [] && Dotted(rest) && a == Dec(Strtoul(s, 10).0) + "." + rest
    requires Odd(After(s)) || Compare(rest, After(s)) == 0
    ensures Dotted(a) && Components(a) == [Strtoul(s, 10).0] + Components(rest) && Compare(a, s) == 0
  {
    var value := Strtoul(s, 10).0;
    PartIsWord(s);
    DecValue(value);
    JoinedNext(Dec(value), rest, a);
    JoinedTies(value, rest, a, s);
  }

  predicate TiesWith(a: string, s: string, digit: nat) {
    Dotted(a) && Components(a) == Parts(s) + [digit] && Compare(a, s) == 0
  }

  lemma TiesHere(s: string, digit: string) returns (a: string)
    requires !Clean(s) && Odd(After(s)) && |digit| == 1 && IsDigit(digit[0], 10)
    ensures TiesWith(a, s, HexValue(digit[0]).value)
  {
    PartsOfUnclean(s);
    OneDigit(digit);
    a := Dec(Strtoul(s, 10).0) + "." + digit;
    JoinAndTie(s, digit, a);
  }

  lemma Appended(whole: seq<nat>, value: nat, middle: seq<nat>, rest: seq<nat>, last: nat, parts: seq<nat>)
    requires whole == [value] + rest && rest == middle + [last] && parts == [value] + middle
    ensures whole == parts + [last]
  {
  }

  lemma TiesFurther(s: string, digit: nat, rest: string, a: string, value: nat)
    requires !Clean(s) && !Odd(After(s)) && TiesWith(rest, After(s), digit)
    requires value == Strtoul(s, 10).0 && a == Dec(value) + "." + rest
    ensures TiesWith(a, s, digit)
  {
    PartsOfUnclean(s);
    JoinAndTie(s, rest, a);
    Appended(Components(a), value, Parts(After(s)), Components(rest), digit, Parts(s));
  }

  lemma {:induction false} TiesWhereItStops(s: string, digit: string) returns (a: string)
    requires !Clean(s) && |digit| == 1 && IsDigit(digit[0], 10)
    ensures TiesWith(a, s, HexValue(digit[0]).value)
    decreases |s|
  {
    if Odd(After(s)) {
      a := TiesHere(s, digit);
    } else {
      PartsOfUnclean(s);
      var rest := TiesWhereItStops(After(s), digit);
      a := Dec(Strtoul(s, 10).0) + "." + rest;
      TiesFurther(s, HexValue(digit[0]).value, rest, a, Strtoul(s, 10).0);
    }
  }

  lemma LexAtEnd(v: seq<nat>, low: nat, high: nat)
    requires low < high
    ensures Before(v + [low], v + [high])
  {
    assert At(v + [low], |v|) < At(v + [high], |v|) && SameUpTo(v + [low], v + [high], |v|);
  }

  /** Two versions that differ, and tie with the string. */
  lemma StrayTies(s: string) returns (low: string, high: string)
    requires !Clean(s)
    ensures Version(low) && Version(high) && Compare(low, high) < 0
    ensures Compare(low, s) == 0 && Compare(s, low) == 0 && Compare(high, s) == 0 && Compare(s, high) == 0
  {
    low := TiesWhereItStops(s, "1");
    high := TiesWhereItStops(s, "2");
    CompareAntisymmetric(low, s);
    CompareAntisymmetric(high, s);
    LexAtEnd(Parts(s), 1, 2);
    CompareIsLexicographic(low, high);
  }

  /** A string takes its place in the order of the versions if and only if every number in it is read to its end. */
  lemma OrderlyIffClean(s: string)
    ensures Orderly(s) <==> Clean(s)
  {
    if Clean(s) {
      forall a, b | Version(a) && Version(b) && Compare(a, s) <= 0 && Compare(s, b) <= 0
        ensures Compare(a, b) <= 0
      {
        VersionIsClean(a);
        VersionIsClean(b);
        VersionsTransitive(a, s, b);
      }
    } else {
      var low, high := StrayTies(s);
      CompareAntisymmetric(low, high);
    }
  }

  /** A stray character, for one, ties with 0.1 and with 0.2, which differ. */
  lemma StrayCharacterBreaksTransitivity(zero: string, one: string, two: string)
    requires zero == "0" && one == "1" && two == "2"
    ensures var low, high := zero + "." + one, zero + "." + two;
      Compare(low, "x") == 0 && Compare("x", high) == 0 && Compare(low, high) < 0
  {
    var low, high := zero + "." + one, zero + "." + two;
    ZeroPoint(zero, one, low);
    ZeroPoint(zero, two, high);
    TieWithStray(low);
    TieWithStray(high);
    CompareAntisymmetric("x", high);
    CompareIsLexicographic(low, high);
    LexAtSecond(Components(low), Components(high));
  }

  lemma LexAtSecond(v: seq<nat>, w: seq<nat>)
    requires |v| == |w| == 2 && v[0] == w[0] && v[1] < w[1]
    ensures Before(v, w)
  {
    assert At(v, 1) < At(w, 1) && SameUpTo(v, w, 1);
  }

  lemma ZeroPoint(zero: string, digit: string, s: string)
    requires zero == "0" && |digit| == 1 && IsDigit(digit[0], 10) && s == zero + "." + digit
    ensures Version(s) && Components(s) == [0, HexValue(digit[0]).value]
    ensures Strtoul(s, 10).0 == 0
  {
    OneDigit(digit);
    OneDigit(zero);
    PointJoins(zero, digit, s);
    StrtoulOfVersion(s);
  }

  lemma PointJoins(first: string, rest: string, s: string)
    requires first != [] && AllDigits(first, 10) && Value(first, 10) < WORD && Dotted(rest)
    requires s == first + "." + rest
    ensures Dotted(s) && Components(s) == [Value(first, 10)] + Components(rest)
  {
    RunStops(first, "." + rest, s);
    assert s[..|first|] == first && s[|first| + 1..] == rest && s[|first|] == '.';
  }

  lemma {:induction false} RunStops(first: string, rest: string, s: string)
    requires AllDigits(first, 10) && s == first + rest && rest != [] && !IsDigit(rest[0], 10)
    ensures DigitRun(s, 10) == |first|
  {
    if first != [] {
      RunStops(first[1..], rest, s[1..]);
    }
  }

  lemma OneDigit(digit: string)
    requires |digit| == 1 && IsDigit(digit[0], 10)
    ensures DigitRun(digit, 10) == 1 && Value(digit, 10) == HexValue(digit[0]).value
    ensures Version(digit) && Components(digit) == [HexValue(digit[0]).value]
  {
    AllIsRun(digit, 10);
    ValueSnoc([], digit[0], 10);
    assert [] + [digit[0]] == digit && digit[..1] == digit;
  }

  lemma TieWithStray(s: string)
    requires Strtoul(s, 10).0 == 0
    ensures Compare(s, "x") == 0
  {
    assert !IsSpace('x') && !IsDigit('x', 10) && "x"[0..] == "x";
    assert Odd(After("x"));
  }
}
