/**
 Vocabulary shared by every module: optional values, calls that may raise, symbolic
 digests, values held once per tactile slot, and Python's integer rounding.
 */
module Basics {

  datatype Option<+T> = None | Some(value: T)

  /** An exception: the runner's own violations carry a stable code, all others do not. */
  datatype Exn = Violation(code: string) | OtherError

  /** What a call that may raise hands back. */
  datatype Reply<+T> = Returned(value: T) | Raised(error: Exn) {
    predicate IsFailure() {
      Raised?
    }

    function PropagateFailure<U>(): Reply<U>
      requires Raised?
    {
      Raised(error)
    }

    function Extract(): T
      requires Returned?
    {
      value
    }
  }

  /** A SHA-256 digest read symbolically: either the digest of a known content, or a
      well-formed text that is the digest of nothing in sight.  Distinct contents therefore
      have distinct digests. */
  datatype Sha<+T> = Sha(content: T) | Foreign(text: string)

  predicate IsHexDigest(s: string) {
    |s| == 64 && forall c <- s :: c in "0123456789abcdef"
  }

  datatype Slot = Left | Right

  function Other(s: Slot): Slot {
    if s == Left then Right else Left
  }

  /** A Python tuple that covers the two tactile slots exactly once, in either order. */
  datatype PerSlot<+T> = PerSlot(left: T, right: T, leftFirst: bool) {
    function At(s: Slot): T {
      if s == Left then left else right
    }

    function With(s: Slot, value: T): PerSlot<T> {
      if s == Left then this.(left := value) else this.(right := value)
    }
  }

  /** A non-empty rectangular RGB image, row by row. */
  datatype Rgb = Rgb(r: int, g: int, b: int)

  predicate Rectangular(rows: seq<seq<Rgb>>) {
    0 < |rows| && 0 < |rows[0]| && forall y :: 0 <= y < |rows| ==> |rows[y]| == |rows[0]|
  }

  type Picture = rows: seq<seq<Rgb>> | Rectangular(rows) witness [[Rgb(0, 0, 0)]]

  function Min(a: int, b: int): int {
    if a <= b then a else b
  }

  function Max(a: int, b: int): int {
    if a >= b then a else b
  }

  /** Python's round(n / d): nearest integer, ties to even. */
  function HalfEven(n: int, d: int): int
    requires d > 0
  {
    var q, rem := n / d, n % d;
    if 2 * rem < d || (2 * rem == d && q % 2 == 0) then q else q + 1
  }

  /** The rounded value is a nearest integer, and an even one when two are nearest. */
  lemma {:induction false} HalfEvenIsNearest(n: int, d: int)
    requires d > 0
    ensures 2 * n - d <= 2 * (d * HalfEven(n, d)) <= 2 * n + d
    ensures 2 * (d * HalfEven(n, d)) == 2 * n - d || 2 * (d * HalfEven(n, d)) == 2 * n + d ==>
              HalfEven(n, d) % 2 == 0
  {
    var q, rem := n / d, n % d;
    assert n == d * q + rem;
    assert d * (q + 1) == d * q + d;
  }

  lemma {:induction false} ProductGap(d: int, a: int, b: int)
    requires d > 0 && a > b
    ensures d * a >= d * b + d
  {
    var k := a - b - 1;
    assert d * a == d * b + d + d * k;
  }

  /** Rounding keeps order. */
  lemma {:induction false} HalfEvenMonotone(n: int, m: int, d: int)
    requires d > 0 && n <= m
    ensures HalfEven(n, d) <= HalfEven(m, d)
  {
    var a, b := HalfEven(n, d), HalfEven(m, d);
    if a > b {
      NearestBounds(n, d);
      NearestBounds(m, d);
      ProductGap(d, a, b);
      assert n == m;
    }
  }

  lemma {:induction false} NearestBounds(n: int, d: int)
    requires d > 0
    ensures 2 * n - d <= 2 * (d * HalfEven(n, d)) <= 2 * n + d
  {
    HalfEvenIsNearest(n, d);
  }

  /** Exact multiples round to themselves. */
  lemma {:induction false} HalfEvenExact(k: int, d: int)
    requires d > 0
    ensures HalfEven(k * d, d) == k
  {
    var r := HalfEven(k * d, d);
    NearestBounds(k * d, d);
    assert k * d == d * k;
    if r > k { ProductGap(d, r, k); }
    if r < k { ProductGap(d, k, r); }
  }

  /** Nearest integer to a real, ties to even (numpy.rint and Python's round). */
  function Rint(x: real): int {
    var q := x.Floor;
    var frac := x - q as real;
    if frac < 0.5 || (frac == 0.5 && q % 2 == 0) then q else q + 1
  }
}
