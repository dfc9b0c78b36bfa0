// Small value types and JavaScript arithmetic shared by the whole model.

module Common {

  /** An optional value: `undefined` / `null` in the game's own code. */
  datatype Option<+T> = None | Some(value: T) {
    function GetOr(default: T): T {
      match this
      case Some(v) => v
      case None => default
    }
  }

  /** The outcome of an operation that the game code ends with `throw`. */
  datatype Result<+T> = Ok(value: T) | Err(message: string)

  /**
   * JavaScript's `a % n` on integers: the remainder of truncating division,
   * which carries the sign of `a` (Dafny's own `%` is never negative).
   */
  function JsRem(a: int, n: int): (r: int)
    requires n > 0
    ensures a >= 0 ==> r == a % n
    ensures a < 0 ==> r == -((-a) % n)
    ensures a >= 0 ==> 0 <= r < n
    ensures a < 0 ==> -n < r <= 0
  {
    if a >= 0 then a % n else -((-a) % n)
  }

  /** A remainder is determined by any quotient-remainder split of its dividend. */
  lemma ModUnique(a: int, n: int, k: int, r: int)
    requires n > 0 && 0 <= r < n && a == k * n + r
    ensures a % n == r
  {
    var q, m := a / n, a % n;
    var d := k - q;
    assert d * n == m - r by {
      assert a == q * n + m;
      assert k * n - q * n == d * n;
    }
    if d >= 1 {
      MulAtLeast(d, n);
    } else if d <= -1 {
      MulAtLeast(-d, n);
    }
  }

  /** Taking the remainder before or after adding one agrees. */
  lemma ModAddOne(a: int, n: int)
    requires n > 0
    ensures (a % n + 1) % n == (a + 1) % n
  {
    var q, m := a / n, a % n;
    assert a == q * n + m;
    if m + 1 < n {
      ModUnique(a + 1, n, q, m + 1);
      ModUnique(m + 1, n, 0, m + 1);
    } else {
      assert a + 1 == (q + 1) * n + 0;
      ModUnique(a + 1, n, q + 1, 0);
      ModUnique(m + 1, n, 1, 0);
    }
  }

  /** Adding a multiple of the divisor leaves the remainder alone. */
  lemma ModAddMultiple(a: int, n: int, k: int)
    requires n > 0
    ensures (a + k * n) % n == a % n
  {
    var q, m := a / n, a % n;
    assert a == q * n + m;
    assert a + k * n == (q + k) * n + m;
    ModUnique(a + k * n, n, q + k, m);
  }

  /** The remainder of a sum depends only on the remainder of its first term. */
  lemma ModSum(a: int, b: int, n: int)
    requires n > 0
    ensures (a % n + b) % n == (a + b) % n
  {
    var q := a / n;
    assert a == q * n + a % n;
    ModAddMultiple(a % n + b, n, q);
  }

  /** One step forward on a ring of `n` places: the next place, or 0 after the last. */
  lemma NextOnRing(p: int, n: int)
    requires 0 <= p < n
    ensures (p + 1) % n == if p + 1 < n then p + 1 else 0
  {
    if p + 1 < n {
      ModUnique(p + 1, n, 0, p + 1);
    } else {
      ModUnique(p + 1, n, 1, 0);
    }
  }

  lemma MulAtLeast(d: int, n: int)
    requires d >= 1 && n > 0
    ensures d * n >= n
  {
  }

  /**
   * Adding `n` to a negative JavaScript remainder gives the mathematical
   * remainder, the one in `[0, n)`.
   */
  lemma JsRemWrapped(a: int, n: int)
    requires n > 0
    ensures var r := JsRem(a, n); (if r < 0 then r + n else r) == a % n
  {
    if a < 0 {
      var q, m := (-a) / n, (-a) % n;
      assert -a == q * n + m;
      if m == 0 {
        ModUnique(a, n, -q, 0);
      } else {
        assert a == (-q - 1) * n + (n - m);
        ModUnique(a, n, -q - 1, n - m);
      }
    }
  }

  function Abs(x: int): nat {
    if x < 0 then -x else x
  }

  /** `Math.min` on integers. */
  function Min(a: int, b: int): int {
    if a <= b then a else b
  }

  /** `xs[i] ?? d`: the element at `i`, or `d` when `i` is not an index of `xs`. */
  function ElementOr(xs: seq<int>, i: int, d: int): (r: int)
    ensures 0 <= i < |xs| ==> r == xs[i]
    ensures !(0 <= i < |xs|) ==> r == d
  {
    if 0 <= i < |xs| then xs[i] else d
  }

  /** `[0, 1, ..., n - 1]`. */
  function Range(n: nat): (r: seq<int>)
    ensures |r| == n
    ensures forall i :: 0 <= i < n ==> r[i] == i
  {
    seq(n, i => i)
  }

  /** `ys` with its first occurrence of `x` taken out (unchanged if there is none). */
  function RemoveFirst<T(==)>(ys: seq<T>, x: T): (r: seq<T>)
    ensures |r| <= |ys|
  {
    if ys == [] then []
    else if ys[0] == x then ys[1..]
    else [ys[0]] + RemoveFirst(ys[1..], x)
  }

  /** Striking out `x` removes one copy of it from the multiset, if there is one. */
  lemma {:induction false} RemoveFirstMultiset<T>(ys: seq<T>, x: T)
    ensures x in ys ==> multiset(RemoveFirst(ys, x)) == multiset(ys) - multiset{x}
    ensures x !in ys ==> RemoveFirst(ys, x) == ys
  {
    if ys != [] {
      assert ys == [ys[0]] + ys[1..];
      RemoveFirstMultiset(ys[1..], x);
    }
  }

  /**
   * `xs` is a rearrangement of `ys`: walk `xs` and strike each of its elements
   * off `ys`; nothing may be missing and nothing may be left over.
   */
  ghost predicate IsPermutation<T>(xs: seq<T>, ys: seq<T>)
    decreases |xs|
  {
    if xs == [] then ys == []
    else xs[0] in ys && IsPermutation(xs[1..], RemoveFirst(ys, xs[0]))
  }

  /** A rearrangement is exactly a sequence with the same multiset of elements. */
  lemma {:induction false} PermutationIsSameMultiset<T>(xs: seq<T>, ys: seq<T>)
    ensures IsPermutation(xs, ys) <==> multiset(xs) == multiset(ys)
    decreases |xs|
  {
    if xs == [] {
    } else {
      assert xs == [xs[0]] + xs[1..];
      PermutationIsSameMultiset(xs[1..], RemoveFirst(ys, xs[0]));
      RemoveFirstMultiset(ys, xs[0]);
      if xs[0] !in ys {
        assert xs[0] in multiset(xs);
      }
    }
  }
}
