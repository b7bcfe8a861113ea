/**
 Order-independent sums over sets and sequences of reals, and the
 specification of a square root. The engine accumulates running sums in
 `foreach` loops over dictionaries and lists; these functions are what
 those loops compute.
 */
module Sums {

  function Abs(x: real): (r: real)
    ensures r >= 0.0 && (r == x || r == -x)
  {
    if x < 0.0 then -x else x
  }

  /** `sqrt` behaves like a square root on the non-negative reals. */
  ghost predicate IsSqrt(sqrt: real -> real)
  {
    forall x: real :: 0.0 <= x ==> 0.0 <= sqrt(x) && sqrt(x) * sqrt(x) == x
  }

  // ---------------------------------------------------------------------
  // Sums over finite sets of integer keys (dictionary enumeration)
  // ---------------------------------------------------------------------

  ghost function Pick(s: set<int>): (r: int)
    requires s != {}
    ensures r in s
  {
    HasElement(s);
    var x :| x in s; x
  }

  lemma EmptyWithoutElements(s: set<int>)
    requires forall x :: x !in s
    ensures s == {}
  {
    var e: set<int> := {};
    assert forall x :: x in s <==> x in e;
  }

  /** A non-empty set has an element (lets `:|` pick from it). */
  lemma HasElement(s: set<int>)
    requires s != {}
    ensures exists x :: x in s
  {
    if forall x :: x !in s {
      EmptyWithoutElements(s);
      assert false;
    }
  }

  /** The sum of `f` over `s`, in no particular order. */
  ghost function SumSet(s: set<int>, f: int -> real): real
    decreases s
  {
    if s == {} then 0.0 else var x := Pick(s); f(x) + SumSet(s - {x}, f)
  }

  /** Any element can be taken out first: the sum does not depend on the order. */
  lemma {:induction false} SumSetRemove(s: set<int>, f: int -> real, y: int)
    requires y in s
    ensures SumSet(s, f) == f(y) + SumSet(s - {y}, f)
    decreases s
  {
    var x := Pick(s);
    if x != y {
      SumSetRemove(s - {x}, f, y);
      SumSetRemove(s - {y}, f, x);
      assert s - {x} - {y} == s - {y} - {x};
    }
  }

  lemma SumSetAdd(s: set<int>, f: int -> real, y: int)
    requires y !in s
    ensures SumSet(s + {y}, f) == SumSet(s, f) + f(y)
  {
    SumSetRemove(s + {y}, f, y);
    assert s + {y} - {y} == s;
  }

  /** Extending `done` by `n` adds `f(n)` to the sum over `r * done` exactly when `n` is in `r`. */
  lemma SumSetStep(r: set<int>, done: set<int>, n: int, f: int -> real)
    requires n !in done
    ensures SumSet(r * (done + {n}), f) == SumSet(r * done, f) + (if n in r then f(n) else 0.0)
  {
    if n in r {
      assert r * (done + {n}) == (r * done) + {n};
      SumSetAdd(r * done, f, n);
    } else {
      assert r * (done + {n}) == r * done;
    }
  }

  /** Functions that agree on `s` have the same sum over `s`. */
  lemma {:induction false} SumSetExt(s: set<int>, f: int -> real, g: int -> real)
    requires forall x :: x in s ==> f(x) == g(x)
    ensures SumSet(s, f) == SumSet(s, g)
    decreases s
  {
    if s != {} {
      SumSetExt(s - {Pick(s)}, f, g);
    }
  }

  /** A constant factor moves out of the sum. */
  lemma {:induction false} SumSetScale(s: set<int>, f: int -> real, g: int -> real, c: real)
    requires forall x :: x in s ==> g(x) == c * f(x)
    ensures SumSet(s, g) == c * SumSet(s, f)
    decreases s
  {
    if s != {} {
      var x := Pick(s);
      SumSetScale(s - {x}, f, g, c);
      assert SumSet(s, g) == c * f(x) + c * SumSet(s - {x}, f);
    }
  }

  lemma {:induction false} SumSetNonNegative(s: set<int>, f: int -> real)
    requires forall x :: x in s ==> f(x) >= 0.0
    ensures SumSet(s, f) >= 0.0
    decreases s
  {
    if s != {} {
      SumSetNonNegative(s - {Pick(s)}, f);
    }
  }

  /** A sum of non-negative terms is zero only when every term is zero. */
  lemma {:induction false} SumSetZeroTerms(s: set<int>, f: int -> real)
    requires forall x :: x in s ==> f(x) >= 0.0
    requires SumSet(s, f) == 0.0
    ensures forall x :: x in s ==> f(x) == 0.0
    decreases s
  {
    if s != {} {
      var x := Pick(s);
      SumSetNonNegative(s - {x}, f);
      SumSetZeroTerms(s - {x}, f);
    }
  }

  lemma {:induction false} SumSetZero(s: set<int>, f: int -> real)
    requires forall x :: x in s ==> f(x) == 0.0
    ensures SumSet(s, f) == 0.0
    decreases s
  {
    if s != {} {
      SumSetZero(s - {Pick(s)}, f);
    }
  }

  /** The pointwise square of `f`. */
  function Squared(f: int -> real): int -> real
  {
    (x: int) => f(x) * f(x)
  }

  /**
   Cauchy-Schwarz for a sum of `n` terms: the square of the sum is at most `n`
   times the sum of the squares.
   */
  lemma {:induction false} SumSetSquareBound(s: set<int>, f: int -> real)
    ensures SumSet(s, f) * SumSet(s, f) <= |s| as real * SumSet(s, Squared(f))
    decreases s
  {
    if s == {} {
      assert SumSet(s, f) == 0.0;
    } else {
      var x := Pick(s);
      var t := s - {x};
      SumSetSquareBound(t, f);
      SumSetSquaresNonNegative(t, f);
      var a, st, qt := f(x), SumSet(t, f), SumSet(t, Squared(f));
      assert SumSet(s, f) == a + st;
      assert SumSet(s, Squared(f)) == a * a + qt;
      if |t| == 0 {
        assert t == {};
      }
      CauchyStep(a, st, qt, |t| as real, SumSet(s, f), SumSet(s, Squared(f)), |s| as real);
    }
  }

  lemma SumSetSquaresNonNegative(s: set<int>, f: int -> real)
    ensures SumSet(s, Squared(f)) >= 0.0
  {
    forall y | y in s ensures Squared(f)(y) >= 0.0 {
      assert f(y) * f(y) >= 0.0;
    }
    SumSetNonNegative(s, Squared(f));
  }

  /** `SumSetSquareBound` for sums already known by other names. */
  lemma SquareOfSum(s: set<int>, f: int -> real, n: real, q: real)
    requires n == SumSet(s, f) && q == SumSet(s, Squared(f))
    ensures n * n <= |s| as real * q
  {
    SumSetSquareBound(s, f);
  }

  /** The induction step of `SumSetSquareBound`: one more term `a` keeps the bound. */
  lemma CauchyStep(a: real, s: real, q: real, n: real, s': real, q': real, n': real)
    requires n >= 0.0 && q >= 0.0
    requires s * s <= n * q
    requires n == 0.0 ==> s == 0.0
    requires s' == a + s && q' == a * a + q && n' == n + 1.0
    ensures s' * s' <= n' * q'
  {
    if n > 0.0 {
      var d := n * a - s;
      assert d * d >= 0.0;
      assert d * d == n * n * a * a - 2.0 * n * a * s + s * s;
      var e := n * a * a + q - 2.0 * a * s;
      assert n * e == n * n * a * a + n * q - 2.0 * n * a * s;
      assert n * e >= 0.0;
      assert e >= 0.0;
      assert (n + 1.0) * (a * a + q) - (a + s) * (a + s) == e + n * q - s * s;
    }
  }

  /** If `w == num / r`, `r * r == d` and `num` squared is at most `k * d`, then `w` squared is at most `k`. */
  lemma RatioBound(w: real, num: real, r: real, d: real, k: real)
    requires r > 0.0 && d > 0.0 && r * r == d && w == num / r
    requires num * num <= k * d
    ensures w * w <= k
  {
    assert w * r == num;
    var ww := w * w;
    assert ww * d == w * w * (r * r);
    assert w * w * (r * r) == (w * r) * (w * r);
    CancelPositive(ww, k, d);
  }

  // ---------------------------------------------------------------------
  // Sums over sequences (list enumeration, front to back)
  // ---------------------------------------------------------------------

  /** The sum of `f` over the elements of `s`, accumulated from the front. */
  function SumSeq<T>(s: seq<T>, f: T -> real): real
  {
    if s == [] then 0.0 else SumSeq(s[..|s| - 1], f) + f(s[|s| - 1])
  }

  /** One more element of `s` adds its term: the step of a front-to-back loop. */
  lemma SumSeqPrefix<T>(s: seq<T>, i: int, f: T -> real)
    requires 0 <= i < |s|
    ensures SumSeq(s[..i + 1], f) == SumSeq(s[..i], f) + f(s[i])
  {
    assert s[..i + 1][..i] == s[..i];
  }

  lemma {:induction false} SumSeqAppend<T>(s: seq<T>, t: seq<T>, f: T -> real)
    ensures SumSeq(s + t, f) == SumSeq(s, f) + SumSeq(t, f)
    decreases |t|
  {
    if t == [] {
      assert s + t == s;
    } else {
      var t' := t[..|t| - 1];
      assert (s + t)[..|s + t| - 1] == s + t';
      SumSeqAppend(s, t', f);
    }
  }

  /** Reordering a sequence does not change its sum. */
  lemma {:induction false} SumSeqPermutation<T>(s: seq<T>, t: seq<T>, f: T -> real)
    requires multiset(s) == multiset(t)
    ensures SumSeq(s, f) == SumSeq(t, f)
    decreases |s|
  {
    if s != [] {
      var x := s[|s| - 1];
      assert x in multiset(t);
      var j :| 0 <= j < |t| && t[j] == x;
      var t' := t[..j] + t[j + 1..];
      assert t == t[..j] + [x] + t[j + 1..];
      assert s == s[..|s| - 1] + [x];
      assert multiset(s[..|s| - 1]) == multiset(s) - multiset{x};
      assert multiset(t') == multiset(t) - multiset{x} by {
        assert multiset(t) == multiset(t[..j]) + multiset{x} + multiset(t[j + 1..]);
      }
      SumSeqPermutation(s[..|s| - 1], t', f);
      SumSeqAppend(t[..j] + [x], t[j + 1..], f);
      SumSeqAppend(t[..j], [x], f);
      SumSeqAppend(t[..j], t[j + 1..], f);
      assert SumSeq([x], f) == f(x) by {
        assert [x][..0] == [];
      }
    }
  }

  lemma {:induction false} SumSeqNonNegative<T>(s: seq<T>, f: T -> real)
    requires forall x :: x in s ==> f(x) >= 0.0
    ensures SumSeq(s, f) >= 0.0
    decreases |s|
  {
    if s != [] {
      SumSeqNonNegative(s[..|s| - 1], f);
    }
  }

  lemma {:induction false} SumSeqZero<T>(s: seq<T>, f: T -> real)
    requires forall x :: x in s ==> f(x) == 0.0
    ensures SumSeq(s, f) == 0.0
    decreases |s|
  {
    if s != [] {
      SumSeqZero(s[..|s| - 1], f);
    }
  }

  /** A sum of non-negative terms is zero only when every term is zero. */
  lemma {:induction false} SumSeqZeroTerms<T>(s: seq<T>, f: T -> real)
    requires forall x :: x in s ==> f(x) >= 0.0
    requires SumSeq(s, f) == 0.0
    ensures forall x :: x in s ==> f(x) == 0.0
    decreases |s|
  {
    if s != [] {
      var init, last := s[..|s| - 1], s[|s| - 1];
      assert s == init + [last];
      SumSeqNonNegative(init, f);
      SumSeqZeroTerms(init, f);
    }
  }

  /** Over the reals, `s / c` is the one value that, times a positive `c`, gives `s`. */
  lemma DivUnique(r: real, s: real, c: real)
    requires c > 0.0
    ensures r * c == s <==> r == s / c
  {
    var q := s / c;
    assert q * c == s;
    if r * c == s {
      assert (r - q) * c == 0.0;
      if r - q != 0.0 {
        assert (r - q) * c != 0.0;
      }
    }
  }

  /** A positive factor can be cancelled from both sides of an inequality. */
  lemma CancelPositive(a: real, b: real, c: real)
    requires c > 0.0 && a * c <= b * c
    ensures a <= b
  {
  }

  // ---------------------------------------------------------------------
  // Enumerating a dictionary's keys
  // ---------------------------------------------------------------------

  /** `keys` lists every element of `s` exactly once: one enumeration order of a dictionary. */
  ghost predicate Enumerates(keys: seq<int>, s: set<int>)
  {
    && (forall i, j :: 0 <= i < j < |keys| ==> keys[i] != keys[j])
    && (forall x :: x in s <==> x in keys)
  }

  /** A dictionary's keys in the order `foreach` visits them, which the model leaves open. */
  method EnumerateKeys(s: set<int>) returns (keys: seq<int>)
    ensures Enumerates(keys, s)
  {
    keys := [];
    var remaining := s;
    while remaining != {}
      invariant remaining <= s
      invariant forall i, j :: 0 <= i < j < |keys| ==> keys[i] != keys[j]
      invariant forall x :: x in s <==> x in keys || x in remaining
      invariant forall x :: x in keys ==> x !in remaining
      decreases |remaining|
    {
      HasElement(remaining);
      var k :| k in remaining;
      keys := keys + [k];
      remaining := remaining - {k};
    }
  }

  /** Summing over any enumeration of `s` gives the order-free sum over `s`. */
  lemma {:induction false} SumSeqEnumerates(keys: seq<int>, s: set<int>, f: int -> real)
    requires Enumerates(keys, s)
    ensures SumSeq(keys, f) == SumSet(s, f)
    decreases |keys|
  {
    if keys == [] {
      EmptyWithoutElements(s);
    } else {
      var init, x := keys[..|keys| - 1], keys[|keys| - 1];
      assert keys == init + [x];
      var t := s - {x};
      forall y ensures y in t <==> y in init {
        if y in init {
          var i :| 0 <= i < |init| && init[i] == y;
          assert keys[i] == y && keys[|keys| - 1] == x;
        }
      }
      SumSeqEnumerates(init, t, f);
      assert s == t + {x};
      SumSetAdd(t, f, x);
    }
  }

  /** Terms that vanish outside `t` do not change the sum: summing over `s` is summing over `t`. */
  lemma {:induction false} SumSetZeroOutside(s: set<int>, t: set<int>, f: int -> real)
    requires t <= s
    requires forall x :: x in s && x !in t ==> f(x) == 0.0
    ensures SumSet(s, f) == SumSet(t, f)
    decreases s
  {
    var extra := s - t;
    if extra == {} {
      forall y | y in s ensures y in t {
        assert y !in extra;
      }
      assert s == t;
    } else {
      HasElement(extra);
      var y :| y in extra;
      SumSetRemove(s, f, y);
      SumSetZeroOutside(s - {y}, t, f);
    }
  }
}
