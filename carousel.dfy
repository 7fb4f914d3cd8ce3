/**
 * The wrap-around index arithmetic of the testimonial and life-outside-work
 * carousels: `i === n - 1 ? 0 : i + 1` and `i === 0 ? n - 1 : i - 1`.
 */
module Carousel {

  /** The index after `i` among `n` items, wrapping the last index to 0. */
  function NextWrap(i: int, n: int): (r: int)
    ensures 0 <= i < n ==> 0 <= r < n && r == (i + 1) % n
  {
    if i == n - 1 then 0 else i + 1
  }

  /** The index before `i` among `n` items, wrapping 0 to the last index. */
  function PrevWrap(i: int, n: int): (r: int)
    ensures 0 <= i < n ==> 0 <= r < n && r == (i - 1) % n
  {
    if i == 0 then n - 1 else i - 1
  }

  /** On a valid index, next and previous undo each other. */
  lemma NextPrevInverse(i: int, n: int)
    requires 0 <= i < n
    ensures PrevWrap(NextWrap(i, n), n) == i
    ensures NextWrap(PrevWrap(i, n), n) == i
  {
  }

  /** The index reached from `i` after `k` presses of "next". */
  function NextTimes(i: int, n: int, k: nat): int {
    if k == 0 then i else NextWrap(NextTimes(i, n, k - 1), n)
  }

  /** Pressing "next" `k` times advances by `k` modulo `n`, so every item is reached and `n` presses return. */
  lemma {:induction false} NextTimesModular(i: int, n: int, k: nat)
    requires 0 <= i < n
    ensures NextTimes(i, n, k) == (i + k) % n
  {
    if k > 0 {
      NextTimesModular(i, n, k - 1);
      var j := NextTimes(i, n, k - 1);
      assert j == (i + k - 1) % n;
      ModAddOne(i + k - 1, n);
    }
  }

  lemma ModAddOne(a: int, n: int)
    requires n > 0
    ensures ((a % n) + 1) % n == (a + 1) % n
  {
    var q, r := a / n, a % n;
    assert a == n * q + r;
    if r + 1 < n {
      ModUnique(r + 1, n, 0, r + 1);
      ModUnique(a + 1, n, q, r + 1);
    } else {
      ModUnique(r + 1, n, 1, 0);
      ModUnique(a + 1, n, q + 1, 0);
    }
  }

  /** The remainder is the unique `r` in `[0, n)` with `x == n * q + r`. */
  lemma ModUnique(x: int, n: int, q: int, r: int)
    requires n > 0 && 0 <= r < n && x == n * q + r
    ensures x % n == r
  {
    var q2, r2 := x / n, x % n;
    assert n * (q - q2) == r2 - r;
    if q > q2 {
      MulAtLeast(n, q - q2);
    } else if q < q2 {
      MulAtLeast(n, q2 - q);
    }
  }

  lemma MulAtLeast(n: int, k: int)
    requires n > 0 && k >= 1
    ensures n * k >= n
  {
  }
}
