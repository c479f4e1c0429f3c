/** Newton's integer square root and the fixed-point root built on it (stellax-math/src/advanced.rs). */
module SquareRoot {
  import opened Int128

  ghost predicate IsFloorRoot(r: nat, n: nat) {
    r * r <= n < (r + 1) * (r + 1)
  }

  /** 128 minus the number of leading zeros of a u128. */
  function BitLength(n: nat): nat {
    if n == 0 then 0 else 1 + BitLength(n / 2)
  }

  lemma {:induction false} BitLengthBrackets(n: nat)
    requires n > 0
    ensures BitLength(n) > 0 && Pow2(BitLength(n) - 1) <= n < Pow2(BitLength(n))
  {
    if n > 1 {
      BitLengthBrackets(n / 2);
    }
  }

  lemma {:induction false} BitLengthAtMost(n: nat, b: nat)
    requires n < Pow2(b)
    ensures BitLength(n) <= b
  {
    if n > 0 {
      BitLengthAtMost(n / 2, b - 1);
    }
  }

  /** The loop invariant: the guess is not below the root, and is at most 2^64. */
  ghost predicate Above(x: nat, n: nat) {
    1 <= x <= TWO_64 && n < (x + 1) * (x + 1)
  }

  /** The first guess 2^ceil(bits / 2) is above the root. */
  lemma {:induction false} FirstGuess(n: u128, half: nat)
    requires n >= 2 && half == (BitLength(n) + 1) / 2
    ensures Above(Pow2(half), n)
  {
    var bits := BitLength(n);
    assert half <= 64 by {
      Pow2Words(8);
      BitLengthAtMost(n, 16 * 8);
    }
    assert Pow2(half) <= TWO_64 by {
      Pow2Words(8);
      Pow2Monotone(half, 8 * 8);
    }
    var x := Pow2(half);
    assert n < x * x by {
      BitLengthBrackets(n);
      Pow2Square(half, x);
      Pow2Monotone(bits, half + half);
    }
    assert (x + 1) * (x + 1) == x * x + 2 * x + 1;
  }

  lemma {:induction false} ArithmeticGeometricMean(x: nat, p: nat)
    ensures (x + p) * (x + p) >= 4 * (p * x)
  {
    var d := x - p;
    assert (x + p) * (x + p) == 4 * (p * x) + d * d;
  }

  /** One Newton step from x never falls below the root, because (x + q + 1)^2 >= 4 x (q + 1) > 4 n. */
  lemma {:induction false} NewtonStaysAbove(n: nat, x: nat, q: nat, next: nat)
    requires x > 0 && n < (q + 1) * x && next == (x + q) / 2
    ensures n < (next + 1) * (next + 1)
  {
    var s, t := x + (q + 1), next + 1;
    ArithmeticGeometricMean(x, q + 1);
    assert s * s <= (2 * t) * (2 * t) by { MulMonotone(s, s, 2 * t, 2 * t); }
    assert (2 * t) * (2 * t) == 4 * (t * t);
  }

  /** A step that does not descend has reached the floor root; any other stays above it. */
  lemma {:induction false} NewtonStep(n: u128, x: nat, q: nat)
    requires n >= 2 && Above(x, n) && q == n / x
    ensures x + q < TWO_128
    ensures (x + q) / 2 >= x ==> IsFloorRoot(x, n) && x < TWO_64
    ensures (x + q) / 2 < x ==> Above((x + q) / 2, n)
  {
    DivBounds(n, x);
    NewtonStaysAbove(n, x, q, (x + q) / 2);
    assert q <= x + 3 by {
      assert (x + 1) * (x + 1) == x * x + 2 * x + 1;
      assert (x + 4) * x == x * x + 4 * x;
      QuotientAbove(n, x, x + 3);
    }
    QuotientBelow(n, x, x);
    SquaresOrdered(TWO_64, x);
    assert q == 0 ==> (q + 1) * x == x;
  }

  lemma {:induction false} SquaresOrdered(a: nat, b: nat)
    ensures a <= b ==> a * a <= b * b
  {
    if a <= b {
      MulMonotone(a, a, b, b);
    }
  }

  lemma {:induction false} TinyRoot(n: nat)
    requires n < 2
    ensures IsFloorRoot(n, n)
  {
    assert n == 0 || n == 1;
  }

  /** Terminates on every u128 with the floor of the root. The sum x + n / x is declared u128, so no
      step overflows. */
  method Isqrt(n: u128) returns (r: u128)
    ensures IsFloorRoot(r, n)
    ensures r < TWO_64
  {
    if n < 2 {
      TinyRoot(n);
      return n;
    }
    var half := (BitLength(n) + 1) / 2;
    FirstGuess(n, half);
    var x: u128 := Pow2(half);
    while true
      invariant Above(x, n)
      decreases x
    {
      DivBounds(n, x);
      QuotientBelow(n, x, 0);
      var q: u128 := n / x;
      NewtonStep(n, x, q);
      var sum: u128 := x + q;
      var next := sum / 2;
      if next >= x {
        return x;
      }
      x := next;
    }
  }

  /** `scaled_for_sqrt`: x * 10^18, or for large x a shifted product whose high bits are dropped.
      The inner product of the second branch is checked and may fail. */
  function ScaledForSqrt(x: i128): Option<u128>
    requires x >= 0
  {
    if x * PRECISION < TWO_128 then Some(x * PRECISION)
    else
      var reduced := x / TWO_32;
      if reduced * PRECISION < TWO_128 then Some((reduced * PRECISION * TWO_32) % TWO_128) else None
  }

  /** The root is the exact floor root of x * 10^18 precisely when that product fits a u128: above it
      the code either fails or returns a value below 2^64, which is too small. None is a panic. */
  method SqrtFixed(x: i128) returns (r: Option<i128>)
    ensures x < 0 ==> r == None
    ensures x >= 0 ==> ((r.Some? && r.value >= 0 && IsFloorRoot(r.value, x * PRECISION)) <==> x * PRECISION < TWO_128)
    ensures x >= 0 ==> match ScaledForSqrt(x)
                       case None => r == None
                       case Some(n) => r.Some? && r.value >= 0 && IsFloorRoot(r.value, n)
  {
    if x < 0 {
      return None;
    }
    if x == 0 {
      return Some(0);
    }
    var scaled := ScaledForSqrt(x);
    if scaled == None {
      return None;
    }
    var root := Isqrt(scaled.value);
    if x * PRECISION >= TWO_128 {
      SmallRootsAreNotRoots(root, x * PRECISION);
    }
    return Some(root);
  }

  lemma {:induction false} SmallRootsAreNotRoots(r: nat, n: nat)
    requires r < TWO_64 && n >= TWO_128
    ensures !IsFloorRoot(r, n)
  {
    MulMonotone(r + 1, r + 1, TWO_64, TWO_64);
  }
}
