/** Small value types shared by every module of the model. */
module Common {

  /** A value that may be missing (JavaScript's `undefined` / `null`). */
  datatype Option<T> = None | Some(value: T)

  /** The outcome of an operation that may throw in the source. */
  datatype Result<T, E> = Ok(value: T) | Err(error: E)

  function Min(a: int, b: int): int {
    if a <= b then a else b
  }

  function Max(a: int, b: int): int {
    if a <= b then b else a
  }

  /** JavaScript truthiness of an optional string: missing and "" are falsy. */
  predicate Present(s: Option<string>) {
    s.Some? && s.value != ""
  }

  /** JavaScript truthiness of an optional number: missing and 0 are falsy. */
  predicate NonZero(n: Option<int>) {
    n.Some? && n.value != 0
  }

  /** `s.slice(0, n)` for `0 <= n`: the first `n` elements, or all of them. */
  function Take<T>(s: seq<T>, n: nat): (r: seq<T>)
    ensures |r| == Min(|s|, n)
    ensures forall i :: 0 <= i < |r| ==> r[i] == s[i]
  {
    if |s| <= n then s else s[..n]
  }

  /** `s.slice(-n)` for `n > 0`: the last `n` elements, or all of them. */
  function TakeLast<T>(s: seq<T>, n: nat): (r: seq<T>)
    ensures |r| == Min(|s|, n)
    ensures forall i :: 0 <= i < |r| ==> r[i] == s[|s| - |r| + i]
  {
    if |s| <= n then s else s[|s| - n..]
  }

  /** The elements of `s` in the opposite order. */
  function Reversed<T>(s: seq<T>): (r: seq<T>)
    ensures |r| == |s|
    ensures forall i :: 0 <= i < |s| ==> r[i] == s[|s| - 1 - i]
  {
    if s == [] then [] else Reversed(s[1..]) + [s[0]]
  }

  /** Keeping the first `n` of a prefix-truncated tail changes nothing. */
  lemma TakeAbsorbs<T>(xs: seq<T>, ys: seq<T>, n: nat)
    ensures Take(xs + Take(ys, n), n) == Take(xs + ys, n)
  {
    var l, r := Take(xs + Take(ys, n), n), Take(xs + ys, n);
    assert |l| == |r|;
    forall i | 0 <= i < |l| ensures l[i] == r[i] {
      if i >= |xs| {
        assert l[i] == Take(ys, n)[i - |xs|];
      }
    }
  }

  /** Keeping the last `n` before appending and again after is one cut. */
  lemma TakeLastAbsorbs<T>(xs: seq<T>, ys: seq<T>, n: nat)
    ensures TakeLast(TakeLast(xs, n) + ys, n) == TakeLast(xs + ys, n)
  {
    if |xs| > n {
      var k := |xs| - n;
      assert TakeLast(xs, n) + ys == (xs + ys)[k..];
      TakeLastOfSuffix(xs + ys, k, n);
    }
  }

  /** Keeping the last `n` after the first element of `ys` loses nothing the last `n` of all of `ys` need. */
  lemma TakeLastStep<T>(xs: seq<T>, ys: seq<T>, n: nat)
    requires ys != []
    ensures TakeLast(TakeLast(xs + [ys[0]], n) + ys[1..], n) == TakeLast(xs + ys, n)
  {
    TakeLastAbsorbs(xs + [ys[0]], ys[1..], n);
    assert xs + [ys[0]] + ys[1..] == xs + ys;
  }

  /** Dropping a prefix that leaves at least `n` elements does not change the last `n`. */
  lemma TakeLastOfSuffix<T>(t: seq<T>, k: nat, n: nat)
    requires k + n <= |t|
    ensures TakeLast(t[k..], n) == TakeLast(t, n)
  {
    assert t[k..][|t| - k - n..] == t[|t| - n..];
  }


  lemma {:induction false} MulAtLeast(n: int, d: int)
    requires n > 0 && d >= 1
    ensures n * d >= n
    decreases d
  {
    if d > 1 {
      MulAtLeast(n, d - 1);
      assert n * d == n * (d - 1) + n;
    }
  }

  /** Multiples of `2n` of distinct integers lie at least `2n` apart. */
  lemma ScaledGap(n: int, a: int, b: int)
    requires n > 0 && a < b
    ensures 2 * n * b >= 2 * n * a + 2 * n
  {
    MulAtLeast(n, b - a);
    assert 2 * n * b == 2 * n * a + 2 * (n * (b - a));
  }
}
