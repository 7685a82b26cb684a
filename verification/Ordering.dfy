/**
 * Byte-wise order of paths, and the keys of a set in that order: what iterating a
 * BTreeMap<String, _> yields.
 */
module Ordering {
  type Path = string

  predicate Less(a: Path, b: Path) {
    if b == [] then false
    else if a == [] then true
    else a[0] < b[0] || (a[0] == b[0] && Less(a[1..], b[1..]))
  }

  /** The first difference decides; a path that ends there comes first. */
  lemma {:induction false} FirstDifference(a: Path, b: Path, n: nat)
    requires n <= |a| && n <= |b| && a[..n] == b[..n]
    requires (n < |a| && n < |b| && a[n] < b[n]) || n == |a| < |b|
    ensures Less(a, b)
  {
    if n > 0 {
      assert a[0] == a[..n][0] == b[..n][0] == b[0];
      assert a[1..][..n - 1] == a[..n][1..] && b[1..][..n - 1] == b[..n][1..];
      FirstDifference(a[1..], b[1..], n - 1);
    }
  }

  lemma {:induction false} LessTrichotomy(a: Path, b: Path)
    ensures a == b || Less(a, b) || Less(b, a)
  {
    if a != [] && b != [] && a[0] == b[0] {
      LessTrichotomy(a[1..], b[1..]);
      assert a == [a[0]] + a[1..] && b == [b[0]] + b[1..];
    }
  }

  lemma {:induction false} LessAsymmetric(a: Path, b: Path)
    requires Less(a, b)
    ensures !Less(b, a) && a != b
  {
    if a != [] && a[0] == b[0] {
      LessAsymmetric(a[1..], b[1..]);
    }
  }

  lemma {:induction false} LessTransitive(a: Path, b: Path, c: Path)
    requires Less(a, b) && Less(b, c)
    ensures Less(a, c)
  {
    if a != [] && a[0] == b[0] == c[0] {
      LessTransitive(a[1..], b[1..], c[1..]);
    }
  }

  predicate IsLeast(m: Path, s: set<Path>) {
    m in s && forall x :: x in s && x != m ==> Less(m, x)
  }

  lemma {:induction false} LeastExists(s: set<Path>)
    requires s != {}
    ensures exists m :: IsLeast(m, s)
    decreases |s|
  {
    var x :| x in s;
    if s == {x} {
      assert IsLeast(x, s);
    } else {
      LeastExists(s - {x});
      var rest :| IsLeast(rest, s - {x});
      LessTrichotomy(rest, x);
      var m := if Less(rest, x) then rest else x;
      forall y | y in s && y != m
        ensures Less(m, y)
      {
        if m == x && y != rest {
          LessTransitive(x, rest, y);
        }
      }
      assert IsLeast(m, s);
    }
  }

  lemma LeastUnique(m: Path, n: Path, s: set<Path>)
    requires IsLeast(m, s) && IsLeast(n, s)
    ensures m == n
  {
    if m != n {
      LessAsymmetric(m, n);
    }
  }

  function Least(s: set<Path>): (m: Path)
    requires s != {}
    ensures m in s
  {
    LeastExists(s);
    LeastOnly(s);
    var m :| m in s && IsLeast(m, s);
    m
  }

  lemma LeastOnly(s: set<Path>)
    ensures forall x, y :: IsLeast(x, s) && IsLeast(y, s) ==> x == y
  {
    forall x, y | IsLeast(x, s) && IsLeast(y, s) ensures x == y { LeastUnique(x, y, s); }
  }

  lemma LeastIsLeast(s: set<Path>)
    requires s != {}
    ensures IsLeast(Least(s), s)
  {
    LeastExists(s);
    LeastOnly(s);
  }

  predicate Ascending(keys: seq<Path>) {
    forall i, j :: 0 <= i < j < |keys| ==> Less(keys[i], keys[j])
  }

  /** The elements of `s`, each once, in ascending order (see SortedKeysExact). */
  function SortedKeys(s: set<Path>): seq<Path>
    decreases |s|
  {
    if s == {} then [] else [Least(s)] + SortedKeys(s - {Least(s)})
  }

  lemma {:induction false} SortedKeysExact(s: set<Path>)
    ensures forall p :: p in SortedKeys(s) <==> p in s
    ensures Ascending(SortedKeys(s))
    decreases |s|
  {
    if s != {} {
      var m := Least(s);
      LeastIsLeast(s);
      SortedKeysExact(s - {m});
      var rest := SortedKeys(s - {m});
      assert SortedKeys(s) == [m] + rest;
      forall i | 0 <= i < |rest|
        ensures Less(m, rest[i])
      {
        assert rest[i] in rest;
      }
    }
  }

  lemma {:induction false} SortedKeysLength(s: set<Path>)
    ensures |SortedKeys(s)| == |s|
    decreases |s|
  {
    if s != {} {
      SortedKeysLength(s - {Least(s)});
    }
  }

  lemma AscendingDistinct(keys: seq<Path>, i: nat, j: nat)
    requires Ascending(keys) && i < j < |keys|
    ensures keys[i] != keys[j]
  {
    LessAsymmetric(keys[i], keys[j]);
  }
}
