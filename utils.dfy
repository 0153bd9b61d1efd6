/**
 * The two helpers of utils.py: the half-open `clamp` used by mutation and
 * `grouper`, which cuts a list into fixed-length chunks.
 */
module Utils {

  /** 2^53: a double carries 53 significand bits. */
  const TwoPow53: real := 9007199254740992.0

  /**
   * `math.nextafter(x, toward)` for `toward < x`: the value just below `x`.
   * The reals have no predecessor, so the model steps down by 2^-53 of the
   * interval; for `x = 1.0, toward = 0.0` this is exactly the double below 1.
   */
  function NextAfterDown(x: real, toward: real): (r: real)
    requires toward < x
    ensures toward < r < x
  {
    x - (x - toward) / TwoPow53
  }

  /**
   * `clamp(n, min_val, max_val)`: a value in the half-open range
   * [minVal, maxVal). The source asserts `min_val < max_val`.
   */
  function Clamp(n: real, minVal: real := 0.0, maxVal: real := 1.0): (r: real)
    requires minVal < maxVal
    ensures minVal <= r < maxVal
    ensures minVal <= n < maxVal ==> r == n
    ensures n < minVal ==> r == minVal
    ensures maxVal <= n ==> r == NextAfterDown(maxVal, minVal)
  {
    if n < minVal then minVal
    else if n >= maxVal then NextAfterDown(maxVal, minVal)
    else n
  }

  /** Clamping twice is clamping once. */
  lemma ClampIdempotent(n: real, minVal: real, maxVal: real)
    requires minVal < maxVal
    ensures Clamp(Clamp(n, minVal, maxVal), minVal, maxVal) == Clamp(n, minVal, maxVal)
  {
  }

  /** `k` copies of the fill value. */
  function Fill<T>(fill: T, k: nat): (r: seq<T>)
    ensures |r| == k
    ensures forall i :: 0 <= i < k ==> r[i] == fill
  {
    seq(k, _ => fill)
  }

  /** The chunks laid end to end. */
  function Concat<T>(chunks: seq<seq<T>>): seq<T>
  {
    if chunks == [] then [] else chunks[0] + Concat(chunks[1..])
  }

  /**
   * `grouper(xs, n, fillvalue)`: `zip_longest` over `n` references to one
   * iterator, i.e. consecutive chunks of `n` items, the last one padded with
   * `fill`. With `n <= 0` there is no iterator to zip and nothing is produced.
   * For `n > 0` there are ceil(|xs| / n) chunks, every one of length `n`.
   */
  function Grouper<T>(xs: seq<T>, n: int, fill: T): (r: seq<seq<T>>)
    ensures n <= 0 ==> r == []
    ensures n > 0 ==> (|r| - 1) * n < |xs| <= |r| * n
    ensures forall i :: 0 <= i < |r| ==> |r[i]| == n
    decreases |xs|
  {
    if n <= 0 || xs == [] then []
    else if |xs| <= n then [xs + Fill(fill, n - |xs|)]
    else [xs[..n]] + Grouper(xs[n..], n, fill)
  }

  /** The number of chunks is ceil(|xs| / n). */
  lemma GrouperCount<T>(xs: seq<T>, n: int, fill: T)
    requires n > 0
    ensures |Grouper(xs, n, fill)| == (|xs| + n - 1) / n
  {
    var q := |Grouper(xs, n, fill)|;
    var t := |xs| + n - 1;
    assert q * n <= t < q * n + n;
    DivUnique(t, n, q);
  }

  /** Integer division is determined by the bracketing multiples. */
  lemma DivUnique(t: int, n: int, q: int)
    requires n > 0 && q * n <= t < q * n + n
    ensures t / n == q
  {
    var d, m := t / n, t % n;
    assert t == d * n + m && 0 <= m < n;
    assert (d - q) * n == t - m - q * n;
    if d - q >= 1 { MulAtLeast(d - q, n); }
    if q - d >= 1 { MulAtLeast(q - d, n); }
  }

  /** A positive multiple of `n` is at least `n`. */
  lemma MulAtLeast(k: int, n: int)
    requires n > 0 && k >= 1
    ensures k * n >= n
  {
    assert k * n == (k - 1) * n + n;
  }

  /**
   * Item `j` of chunk `i` is item `i * n + j` of the input, or the fill value
   * past its end.
   */
  lemma {:induction false} GrouperAt<T>(xs: seq<T>, n: int, fill: T, i: nat, j: nat)
    requires n > 0 && i < |Grouper(xs, n, fill)| && j < n
    ensures Grouper(xs, n, fill)[i][j] == if i * n + j < |xs| then xs[i * n + j] else fill
  {
    if |xs| > n && i > 0 {
      GrouperAt(xs[n..], n, fill, i - 1, j);
      assert (i - 1) * n + j + n == i * n + j;
    }
  }

  /**
   * Concatenating the chunks gives back the input followed by fewer than `n`
   * fill values.
   */
  lemma {:induction false} GrouperConcat<T>(xs: seq<T>, n: int, fill: T)
    requires n > 0
    ensures 0 <= |Grouper(xs, n, fill)| * n - |xs| < n
    ensures Concat(Grouper(xs, n, fill)) == xs + Fill(fill, |Grouper(xs, n, fill)| * n - |xs|)
  {
    var r := Grouper(xs, n, fill);
    if xs == [] {
    } else if |xs| <= n {
      assert r == [xs + Fill(fill, n - |xs|)];
      assert Concat(r) == r[0] + Concat([]);
    } else {
      var rest := Grouper(xs[n..], n, fill);
      GrouperConcat(xs[n..], n, fill);
      assert r == [xs[..n]] + rest;
      assert r[1..] == rest;
      assert |r| * n - |xs| == |rest| * n - |xs[n..]|;
      assert xs == xs[..n] + xs[n..];
    }
  }

  /**
   * Pairing an even-length list needs no fill: chunk `i` is items `2i` and
   * `2i + 1`, and there are |xs| / 2 chunks.
   */
  lemma PairsOfEven<T>(xs: seq<T>, fill: T)
    requires |xs| % 2 == 0
    ensures |Grouper(xs, 2, fill)| == |xs| / 2
    ensures forall i :: 0 <= i < |xs| / 2 ==> Grouper(xs, 2, fill)[i] == [xs[2 * i], xs[2 * i + 1]]
  {
    var r := Grouper(xs, 2, fill);
    GrouperCount(xs, 2, fill);
    forall i | 0 <= i < |xs| / 2
      ensures r[i] == [xs[2 * i], xs[2 * i + 1]]
    {
      GrouperAt(xs, 2, fill, i, 0);
      GrouperAt(xs, 2, fill, i, 1);
    }
  }
}
