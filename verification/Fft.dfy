/** Division with remainder, for divisors that are not numerals. */
module Division {

  function Div(n: nat, d: nat): nat
    requires d > 0
  {
    n / d
  }

  function Mod(n: nat, d: nat): nat
    requires d > 0
  {
    n % d
  }

  lemma Quotient(n: int, d: int, q: int, r: int)
    requires 0 <= r < d && n == d * q + r
    ensures n / d == q && n % d == r
  {
    var e, rest := n / d - q, n % d;
    assert n == d * (q + e) + rest;
    Spread(d, q, e);
    if e >= 1 {
      Monotone(d, 1, e);
    } else if e <= -1 {
      Monotone(d, e, -1);
    }
  }

  lemma Spread(d: int, q: int, e: int)
    ensures d * (q + e) == d * q + d * e
  {
  }

  lemma Monotone(d: int, x: int, y: int)
    requires d >= 0 && x <= y
    ensures d * x <= d * y
  {
  }
}

/** Complex numbers over the reals, with the ring laws the transform needs. */
module ComplexNumbers {

  datatype Complex = Complex(re: real, im: real)

  const ZERO := Complex(0.0, 0.0)
  const ONE := Complex(1.0, 0.0)

  function Add(a: Complex, b: Complex): Complex {
    Complex(a.re + b.re, a.im + b.im)
  }

  function Sub(a: Complex, b: Complex): Complex {
    Complex(a.re - b.re, a.im - b.im)
  }

  function Mul(a: Complex, b: Complex): Complex {
    Complex(a.re * b.re - a.im * b.im, a.re * b.im + a.im * b.re)
  }

  function Pow(w: Complex, n: nat): Complex {
    if n == 0 then ONE else Mul(Pow(w, n - 1), w)
  }

  lemma MulOne(w: Complex, a: Complex)
    requires w == ONE
    ensures Mul(w, a) == a && Mul(a, w) == a
  {
  }

  lemma MulCommutes(a: Complex, b: Complex)
    ensures Mul(a, b) == Mul(b, a)
  {
  }

  lemma MulAssociates(a: Complex, b: Complex, c: Complex)
    ensures Mul(Mul(a, b), c) == Mul(a, Mul(b, c))
  {
  }

  lemma MulDistributes(a: Complex, b: Complex, c: Complex)
    ensures Mul(a, Add(b, c)) == Add(Mul(a, b), Mul(a, c))
  {
  }

  lemma {:induction false} PowOne(w: Complex, n: nat)
    requires w == ONE
    ensures Pow(w, n) == ONE
  {
    hide Mul;
    if n == 0 {
    } else {
      PowOne(w, n - 1);
      MulOne(w, w);
    }
  }

  lemma {:induction false} PowAdds(w: Complex, m: nat, n: nat)
    ensures Pow(w, m + n) == Mul(Pow(w, m), Pow(w, n))
  {
    hide Mul;
    if n == 0 {
      MulOne(ONE, Pow(w, m));
    } else {
      PowAdds(w, m, n - 1);
      MulAssociates(Pow(w, m), Pow(w, n - 1), w);
    }
  }

  lemma {:induction false} PowMultiplies(w: Complex, m: nat, n: nat)
    ensures Pow(w, m * n) == Pow(Pow(w, m), n)
  {
    hide Mul;
    if n == 0 {
    } else {
      PowMultiplies(w, m, n - 1);
      assert m * n == m * (n - 1) + m;
      PowAdds(w, m * (n - 1), m);
    }
  }
}

/** The bit-reversal permutation and the carry that steps through it. */
module BitReversal {
  import opened Division

  function Pow2(p: nat): (n: nat)
    ensures n >= 1
  {
    if p == 0 then 1 else 2 * Pow2(p - 1)
  }

  // The lowest p bits of i, read in the opposite order.
  function Rev(p: nat, i: nat): nat {
    if p == 0 then 0 else (i % 2) * Pow2(p - 1) + Rev(p - 1, i / 2)
  }

  lemma {:induction false} RevBounded(p: nat, i: nat)
    ensures Rev(p, i) < Pow2(p)
  {
    if p != 0 {
      RevBounded(p - 1, i / 2);
      assert (i % 2) * Pow2(p - 1) == if i % 2 == 0 then 0 else Pow2(p - 1);
    }
  }

  // The high bit of i becomes the low bit of its reversal.
  lemma {:induction false} RevHighBit(p: nat, i: nat, high: nat)
    requires i < Pow2(p) && high <= 1
    ensures Rev(p + 1, high * Pow2(p) + i) == 2 * Rev(p, i) + high
  {
    if p == 0 {
      assert Rev(1, high) == (high % 2) * Pow2(0) + Rev(0, high / 2);
    } else {
      var top := if high == 0 then 0 else Pow2(p - 1);
      var j := 2 * top + i;
      HighBit(high, p);
      assert j % 2 == i % 2 && j / 2 == top + i / 2;
      RevHighBit(p - 1, i / 2, high);
      LowBit(p + 1, j);
      LowBit(p, i);
    }
  }

  lemma HighBit(high: nat, p: nat)
    requires high <= 1 && p > 0
    ensures high * Pow2(p) == (if high == 0 then 0 else 2 * Pow2(p - 1))
    ensures high * Pow2(p - 1) == (if high == 0 then 0 else Pow2(p - 1))
  {
  }

  lemma LowBit(p: nat, i: nat)
    requires p > 0
    ensures Rev(p, i) == (if i % 2 == 0 then 0 else Pow2(p - 1)) + Rev(p - 1, i / 2)
  {
  }

  lemma {:induction false} RevInvolutive(p: nat, i: nat)
    requires i < Pow2(p)
    ensures Rev(p, Rev(p, i)) == i
  {
    if p == 0 {
    } else {
      RevBounded(p - 1, i / 2);
      RevHighBit(p - 1, Rev(p - 1, i / 2), i % 2);
      RevInvolutive(p - 1, i / 2);
    }
  }

  // j & bit and j ^ bit, for a bit that is a power of two.
  predicate HasBit(j: nat, bit: nat)
    requires bit > 0
  {
    (j / bit) % 2 == 1
  }

  function FlipBit(j: nat, bit: nat): nat
    requires bit > 0
  {
    if HasBit(j, bit) then BitFits(j, bit); j - bit else j + bit
  }

  lemma BitFits(j: nat, bit: nat)
    requires bit > 0 && HasBit(j, bit)
    ensures bit <= j
  {
  }

  // The top bit of a reversed q-bit number tells whether the number is odd.
  lemma RevTopBit(q: nat, v: nat)
    requires q > 0
    ensures HasBit(Rev(q, v), Pow2(q - 1)) <==> v % 2 == 1
  {
    var bit, low := Pow2(q - 1), Rev(q - 1, v / 2);
    RevBounded(q - 1, v / 2);
    TopBit(bit, low);
    assert Rev(q, v) == if v % 2 == 0 then low else bit + low;
  }

  lemma TopBit(bit: nat, low: nat)
    requires low < bit
    ensures !HasBit(low, bit) && HasBit(bit + low, bit)
  {
    Quotient(low, bit, 0, low);
    Quotient(bit + low, bit, 1, low);
  }

  // One pass of the carry loop: clear the top bit and go on with one bit less,
  // or set it and stop.
  lemma CarryStep(q: nat, v: nat)
    requires q > 0 && v + 1 < Pow2(q)
    ensures HasBit(Rev(q, v), Pow2(q - 1)) ==>
              && q > 1 && v / 2 + 1 < Pow2(q - 1)
              && FlipBit(Rev(q, v), Pow2(q - 1)) == Rev(q - 1, v / 2)
              && Rev(q, v + 1) == Rev(q - 1, v / 2 + 1)
    ensures !HasBit(Rev(q, v), Pow2(q - 1)) ==>
              FlipBit(Rev(q, v), Pow2(q - 1)) == Rev(q, v + 1)
  {
    RevTopBit(q, v);
    if v % 2 == 1 {
      assert (v + 1) % 2 == 0 && (v + 1) / 2 == v / 2 + 1;
      assert Pow2(1) == 2;
    } else {
      assert (v + 1) % 2 == 1 && (v + 1) / 2 == v / 2;
    }
  }

  // The carry loop: from the reversal of i - 1 to the reversal of i.
  method Advance(n: nat, i: nat, j0: nat, ghost p: nat) returns (j: nat)
    requires n == Pow2(p) && 0 < i < n && j0 == Rev(p, i - 1)
    ensures j == Rev(p, i)
  {
    j := j0;
    var bit := n / 2;
    ghost var q: nat, v: nat := p, i - 1;
    while HasBit(j, bit)
      invariant 0 < q && bit == Pow2(q - 1)
      invariant v + 1 < Pow2(q) && j == Rev(q, v) && Rev(p, i) == Rev(q, v + 1)
      decreases bit
    {
      CarryStep(q, v);
      j := FlipBit(j, bit);
      bit := bit / 2;
      q, v := q - 1, v / 2;
    }
    CarryStep(q, v);
    j := FlipBit(j, bit);
  }

  // Reversal pairs up the indices below 2^p.
  lemma RevPairs(p: nat)
    ensures forall t: nat :: t < Pow2(p) ==> Rev(p, t) < Pow2(p) && Rev(p, Rev(p, t)) == t
  {
    forall t: nat | t < Pow2(p)
      ensures Rev(p, t) < Pow2(p) && Rev(p, Rev(p, t)) == t
    {
      RevBounded(p, t);
      RevInvolutive(p, t);
    }
  }

  // The reordering loop: j runs through the reversals of 1, 2, 3, ..., and each
  // pair is exchanged once, at its smaller index.
  method Reorder<T>(a: array<T>, ghost p: nat)
    requires a.Length == Pow2(p)
    modifies a
    ensures forall t: nat :: t < a.Length ==> Rev(p, t) < a.Length && a[t] == old(a[..])[Rev(p, t)]
  {
    ghost var x := a[..];
    var n, i, j := a.Length, 1, 0;
    RevPairs(p);
    RevZero(p);
    while i < n
      invariant 1 <= i <= n && j == Rev(p, i - 1)
      invariant forall t: nat :: t < n ==> a[t] == if t < i || Rev(p, t) < i then x[Rev(p, t)] else x[t]
    {
      j := Advance(n, i, j, p);
      if i < j {
        a[i], a[j] := a[j], a[i];
      }
      i := i + 1;
    }
  }

  lemma {:induction false} RevZero(p: nat)
    ensures Rev(p, 0) == 0
  {
    if p != 0 {
      RevZero(p - 1);
    }
  }
}
