/** 32-bit numbers, Option and Result, lookup in a map as an Option, and iteration. */
module Wrappers {
  type u32 = x: int | 0 <= x < 0x1_0000_0000

  datatype Option<+T> = None | Some(value: T)

  datatype Result<+T> = Success(value: T) | Failure(error: string) {
    predicate IsFailure() { Failure? }

    function PropagateFailure<U>(): Result<U>
      requires IsFailure()
    {
      Failure(error)
    }

    function Extract(): T
      requires !IsFailure()
    {
      value
    }
  }

  function Get<K, V>(m: map<K, V>, k: K): Option<V> {
    if k in m then Some(m[k]) else None
  }

  /** Two maps that answer every lookup alike are the same map. */
  lemma SameLookups<K(!new), V>(m: map<K, V>, n: map<K, V>)
    requires forall k :: Get(m, k) == Get(n, k)
    ensures m == n
  {
    forall k: K
      ensures k in m <==> k in n
      ensures k in m && k in n ==> m[k] == n[k]
    {
      assert Get(m, k) == Get(n, k);
    }
    assert m.Keys == n.Keys;
  }

  function Iterate<T>(f: T -> T, n: nat, x: T): T {
    if n == 0 then x else f(Iterate(f, n - 1, x))
  }

  lemma {:induction false} IterateAdd<T>(f: T -> T, m: nat, n: nat, x: T)
    ensures Iterate(f, m + n, x) == Iterate(f, n, Iterate(f, m, x))
  {
    if n > 0 {
      IterateAdd(f, m, n - 1, x);
    }
  }

  lemma FirstIterates<T>(f: T -> T, x: T)
    ensures Iterate(f, 1, x) == f(x)
    ensures Iterate(f, 2, x) == f(f(x))
    ensures Iterate(f, 3, x) == f(f(f(x)))
  {
    assert Iterate(f, 0, x) == x;
    assert Iterate(f, 1, x) == f(Iterate(f, 0, x));
    assert Iterate(f, 2, x) == f(Iterate(f, 1, x));
  }

  lemma {:induction false} FixpointStays<T>(f: T -> T, n: nat, x: T)
    requires f(x) == x
    ensures Iterate(f, n, x) == x
  {
    if n > 0 {
      FixpointStays(f, n - 1, x);
    }
  }

  /** An iteration that has stopped moving after m steps has not moved after n either. */
  lemma StaysAfter<T>(f: T -> T, m: nat, n: nat, x: T)
    requires m <= n && f(Iterate(f, m, x)) == Iterate(f, m, x)
    ensures Iterate(f, n, x) == Iterate(f, m, x)
  {
    IterateAdd(f, m, n - m, x);
    FixpointStays(f, n - m, Iterate(f, m, x));
  }

  /** A view that turns one step into another turns n steps into n steps. */
  lemma {:induction false} IterateCommutes<S(!new), T>(f: S -> S, g: T -> T, view: S -> T, n: nat, x: S)
    requires forall y :: view(f(y)) == g(view(y))
    ensures view(Iterate(f, n, x)) == Iterate(g, n, view(x))
  {
    if n > 0 {
      IterateCommutes(f, g, view, n - 1, x);
      assert view(f(Iterate(f, n - 1, x))) == g(view(Iterate(f, n - 1, x)));
    }
  }
}
