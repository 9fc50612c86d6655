/** The in-place radix-2 transform, proved equal to the discrete Fourier sum. */
module FastFourier {
  import opened BitReversal
  import opened ComplexNumbers
  import opened Division

  // What the transform uses of cosine and sine: the angle -pi and double angles.
  datatype Trig = Trig(cos: real -> real, sin: real -> real, pi: real) {
    ghost predicate Valid() {
      && cos(-pi) == -1.0 && sin(-pi) == 0.0
      && (forall x: real :: cos(2.0 * x) == cos(x) * cos(x) - sin(x) * sin(x))
      && (forall x: real :: sin(2.0 * x) == 2.0 * sin(x) * cos(x))
    }
  }

  // exp(-2 pi i / len), the twiddle step of a block of len points.
  function Root(trig: Trig, len: nat): Complex
    requires len > 0
  {
    var ang := -2.0 * trig.pi / (len as real);
    Complex(trig.cos(ang), trig.sin(ang))
  }

  function At(x: seq<Complex>, i: nat): Complex {
    if i < |x| then x[i] else ZERO
  }

  // The sum of x[off + m*stride] * w^(m*k) over m < count.
  function StridedDft(x: seq<Complex>, off: nat, stride: nat, w: Complex, k: nat, count: nat): Complex {
    if count == 0 then ZERO
    else Add(StridedDft(x, off, stride, w, k, count - 1), Mul(At(x, off + (count - 1) * stride), Pow(w, (count - 1) * k)))
  }

  // The k-th coefficient of the discrete Fourier transform of x.
  function Dft(trig: Trig, x: seq<Complex>, k: nat): Complex
    requires |x| > 0
  {
    StridedDft(x, 0, 1, Root(trig, |x|), k, |x|)
  }

  lemma RootSquares(trig: Trig, len: nat)
    requires trig.Valid() && len > 0
    ensures Mul(Root(trig, 2 * len), Root(trig, 2 * len)) == Root(trig, len)
  {
    hide Mul;
    var wide, narrow := -2.0 * trig.pi / (len as real), -2.0 * trig.pi / ((2 * len) as real);
    HalfAngle(-2.0 * trig.pi, len as real);
    assert wide == 2.0 * narrow;
    DoubleAngle(trig, narrow);
  }

  lemma DoubleAngle(trig: Trig, x: real)
    requires trig.Valid()
    ensures var w := Complex(trig.cos(x), trig.sin(x)); Mul(w, w) == Complex(trig.cos(2.0 * x), trig.sin(2.0 * x))
  {
  }

  lemma HalfAngle(turn: real, n: real)
    requires n > 0.0
    ensures turn / n == 2.0 * (turn / (2.0 * n))
  {
    var h := turn / (2.0 * n);
    assert h * (2.0 * n) == turn;
    assert (2.0 * h) * n == turn;
  }

  // Half a turn is -1.
  lemma {:induction false} RootHalfTurn(trig: Trig, s: nat)
    requires trig.Valid()
    ensures Pow(Root(trig, Pow2(s + 1)), Pow2(s)) == Sub(ZERO, ONE)
  {
    hide Mul;
    var w := Root(trig, Pow2(s + 1));
    if s == 0 {
      assert -2.0 * trig.pi / (2 as real) == -trig.pi;
      assert Pow(w, 1) == Mul(Pow(w, 0), w);
      MulOne(ONE, w);
    } else {
      RootHalfTurn(trig, s - 1);
      RootSquares(trig, Pow2(s));
      PowTwo(w);
      PowMultiplies(w, 2, Pow2(s - 1));
    }
  }

  lemma PowTwo(w: Complex)
    ensures Pow(w, 2) == Mul(w, w)
  {
    hide Mul;
    assert Pow(w, 2) == Mul(Mul(Pow(w, 0), w), w);
    MulOne(ONE, w);
  }

  // A full turn is 1.
  lemma RootFullTurn(trig: Trig, s: nat)
    requires trig.Valid()
    ensures Pow(Root(trig, Pow2(s)), Pow2(s)) == ONE
  {
    hide Mul;
    var w := Root(trig, Pow2(s + 1));
    RootSquares(trig, Pow2(s));
    PowTwo(w);
    PowMultiplies(w, 2, Pow2(s));
    PowMultiplies(w, Pow2(s), 2);
    assert 2 * Pow2(s) == Pow2(s) * 2;
    RootHalfTurn(trig, s);
    PowTwo(Sub(ZERO, ONE));
    MinusOneSquares();
  }

  lemma MinusOneSquares()
    ensures Mul(Sub(ZERO, ONE), Sub(ZERO, ONE)) == ONE
  {
  }

  // The even-indexed and the odd-indexed halves of a sum.
  lemma {:induction false} SplitSum(x: seq<Complex>, off: nat, stride: nat, w: Complex, k: nat, m: nat)
    ensures StridedDft(x, off, stride, w, k, 2 * m)
         == Add(StridedDft(x, off, 2 * stride, Mul(w, w), k, m),
                Mul(Pow(w, k), StridedDft(x, off + stride, 2 * stride, Mul(w, w), k, m)))
  {
    hide Mul, Pow, At;
    if m == 0 {
      MulZero(Pow(w, k));
    } else {
      SplitSum(x, off, stride, w, k, m - 1);
      var even := StridedDft(x, off, 2 * stride, Mul(w, w), k, m - 1);
      var odd := StridedDft(x, off + stride, 2 * stride, Mul(w, w), k, m - 1);
      var a, b := At(x, off + (m - 1) * (2 * stride)), At(x, off + stride + (m - 1) * (2 * stride));
      var e := Pow(Mul(w, w), (m - 1) * k);
      LastTwoTerms(x, off, stride, w, k, m);
      Exchange(b, Pow(w, k), e);
      MulDistributes(Pow(w, k), odd, Mul(b, e));
      AddsPairwise(even, Mul(Pow(w, k), odd), Mul(a, e), Mul(Pow(w, k), Mul(b, e)));
    }
  }

  lemma LastTerm(x: seq<Complex>, off: nat, stride: nat, w: Complex, k: nat, m: nat)
    ensures StridedDft(x, off, stride, w, k, m + 1)
         == Add(StridedDft(x, off, stride, w, k, m), Mul(At(x, off + m * stride), Pow(w, m * k)))
  {
  }

  lemma LastTwoTerms(x: seq<Complex>, off: nat, stride: nat, w: Complex, k: nat, m: nat)
    requires m > 0
    ensures StridedDft(x, off, stride, w, k, 2 * m)
         == Add(Add(StridedDft(x, off, stride, w, k, 2 * (m - 1)),
                    Mul(At(x, off + (m - 1) * (2 * stride)), Pow(Mul(w, w), (m - 1) * k))),
                Mul(At(x, off + stride + (m - 1) * (2 * stride)), Mul(Pow(w, k), Pow(Mul(w, w), (m - 1) * k))))
  {
    hide Mul, Pow, At, StridedDft;
    var j := m - 1;
    EvenPower(w, k, j);
    OddPower(w, k, j);
    LastTerm(x, off, stride, w, k, 2 * j);
    LastTerm(x, off, stride, w, k, 2 * j + 1);
    TwiceAsWide(j, stride);
    assert 2 * m == 2 * j + 1 + 1;
  }

  lemma TwiceAsWide(j: nat, stride: nat)
    ensures (2 * j) * stride == j * (2 * stride) && (2 * j + 1) * stride == stride + j * (2 * stride)
  {
  }

  lemma EvenPower(w: Complex, k: nat, j: nat)
    ensures Pow(w, 2 * j * k) == Pow(Mul(w, w), j * k)
  {
    hide Mul, Pow;
    assert 2 * j * k == 2 * (j * k);
    PowMultiplies(w, 2, j * k);
    PowTwo(w);
  }

  lemma OddPower(w: Complex, k: nat, j: nat)
    ensures Pow(w, (2 * j + 1) * k) == Mul(Pow(w, k), Pow(Mul(w, w), j * k))
  {
    hide Mul, Pow;
    assert (2 * j + 1) * k == k + 2 * j * k;
    PowAdds(w, k, 2 * j * k);
    EvenPower(w, k, j);
  }

  lemma AddsPairwise(a: Complex, b: Complex, c: Complex, d: Complex)
    ensures Add(Add(Add(a, b), c), d) == Add(Add(a, c), Add(b, d))
  {
  }

  lemma MulZero(a: Complex)
    ensures Mul(a, ZERO) == ZERO
  {
  }

  lemma Exchange(a: Complex, b: Complex, c: Complex)
    ensures Mul(a, Mul(b, c)) == Mul(b, Mul(a, c))
  {
    hide Mul;
    MulAssociates(a, b, c);
    MulCommutes(a, b);
    MulAssociates(b, a, c);
  }

  // The coefficients repeat after a full turn.
  lemma {:induction false} SumPeriodic(x: seq<Complex>, off: nat, stride: nat, w: Complex, k: nat, period: nat, m: nat)
    requires Pow(w, period) == ONE
    ensures StridedDft(x, off, stride, w, k + period, m) == StridedDft(x, off, stride, w, k, m)
  {
    hide Mul;
    if m == 0 {
    } else {
      SumPeriodic(x, off, stride, w, k, period, m - 1);
      PowPeriodic(w, k, period, m - 1);
    }
  }

  lemma PowPeriodic(w: Complex, k: nat, period: nat, j: nat)
    requires Pow(w, period) == ONE
    ensures Pow(w, j * (k + period)) == Pow(w, j * k)
  {
    hide *;
    assert j * (k + period) == j * k + period * j;
    PowAdds(w, j * k, period * j);
    PowMultiplies(w, period, j);
    PowOne(ONE, j);
    MulOne(ONE, Pow(w, j * k));
  }

  // Point t after s stages: a coefficient of the transform of one residue class of x.
  function Staged(trig: Trig, x: seq<Complex>, p: nat, s: nat, t: nat): Complex
    requires s <= p
  {
    StridedDft(x, Rev(p - s, Div(t, Pow2(s))), Pow2(p - s), Root(trig, Pow2(s)), Mod(t, Pow2(s)), Pow2(s))
  }

  // The two points of a butterfly before it: the even and the odd terms of one class.
  lemma PointsBefore(trig: Trig, x: seq<Complex>, p: nat, s: nat, b: nat, k: nat)
    requires s < p && k < Pow2(s)
    ensures var i, half, off, stride, w := b * Pow2(s + 1), Pow2(s), Rev(p - s - 1, b), Pow2(p - s - 1), Root(trig, Pow2(s));
            && Staged(trig, x, p, s, i + k) == StridedDft(x, off, 2 * stride, w, k, half)
            && Staged(trig, x, p, s, i + k + half) == StridedDft(x, off + stride, 2 * stride, w, k, half)
  {
    hide StridedDft, Root, Rev, Pow2;
    Residues(s, b, k);
    RevSplits(p - s, b);
    Doubles(p - s);
  }

  lemma Doubles(q: nat)
    requires q > 0
    ensures Pow2(q) == 2 * Pow2(q - 1)
  {
  }

  lemma RevSplits(q: nat, b: nat)
    requires q > 0
    ensures Rev(q, 2 * b) == Rev(q - 1, b) && Rev(q, 2 * b + 1) == Pow2(q - 1) + Rev(q - 1, b)
  {
    hide Pow2;
    assert 2 * b % 2 == 0 && 2 * b / 2 == b && (2 * b + 1) % 2 == 1 && (2 * b + 1) / 2 == b;
  }

  // And after it: two coefficients of the class itself.
  lemma PointsAfter(trig: Trig, x: seq<Complex>, p: nat, s: nat, b: nat, k: nat)
    requires s < p && k < Pow2(s)
    ensures var i, half, off, stride, w := b * Pow2(s + 1), Pow2(s), Rev(p - s - 1, b), Pow2(p - s - 1), Root(trig, Pow2(s + 1));
            && Staged(trig, x, p, s + 1, i + k) == StridedDft(x, off, stride, w, k, 2 * half)
            && Staged(trig, x, p, s + 1, i + k + half) == StridedDft(x, off, stride, w, k + half, 2 * half)
  {
    hide StridedDft, Root, Rev;
    Residues(s, b, k);
  }

  // One butterfly combines two points of stage s into two points of stage s + 1.
  lemma Butterfly(trig: Trig, x: seq<Complex>, p: nat, s: nat, b: nat, k: nat)
    requires trig.Valid() && s < p && k < Pow2(s)
    ensures var i, half := b * Pow2(s + 1), Pow2(s);
            var u, v := Staged(trig, x, p, s, i + k), Mul(Staged(trig, x, p, s, i + k + half), Pow(Root(trig, Pow2(s + 1)), k));
            && Staged(trig, x, p, s + 1, i + k) == Add(u, v)
            && Staged(trig, x, p, s + 1, i + k + half) == Sub(u, v)
  {
    hide Mul, StridedDft, Pow, Rev, Staged;
    var half, w := Pow2(s), Root(trig, Pow2(s + 1));
    var stride, off := Pow2(p - s - 1), Rev(p - s - 1, b);
    PointsBefore(trig, x, p, s, b, k);
    PointsAfter(trig, x, p, s, b, k);
    RootSquares(trig, half);
    var odd := StridedDft(x, off + stride, 2 * stride, Mul(w, w), k, half);
    SplitSum(x, off, stride, w, k, half);
    SplitSum(x, off, stride, w, k + half, half);
    RootFullTurn(trig, s);
    SumPeriodic(x, off, 2 * stride, Mul(w, w), k, half, half);
    SumPeriodic(x, off + stride, 2 * stride, Mul(w, w), k, half, half);
    PowAdds(w, k, half);
    RootHalfTurn(trig, s);
    NegateTwiddle(Pow(w, k), odd);
    MulCommutes(Pow(w, k), odd);
  }

  lemma NegateTwiddle(a: Complex, b: Complex)
    ensures Mul(Mul(a, Sub(ZERO, ONE)), b) == Sub(ZERO, Mul(a, b))
  {
  }

  // Where the two points of a butterfly lie in their blocks, before and after.
  lemma Residues(s: nat, b: nat, k: nat)
    requires k < Pow2(s)
    ensures var i, half := b * Pow2(s + 1), Pow2(s);
            && (i + k) / half == 2 * b && (i + k) % half == k
            && (i + k + half) / half == 2 * b + 1 && (i + k + half) % half == k
            && (i + k) / (2 * half) == b && (i + k) % (2 * half) == k
            && (i + k + half) / (2 * half) == b && (i + k + half) % (2 * half) == k + half
  {
    BlockIndex(Pow2(s), b, k);
    assert Pow2(s + 1) == 2 * Pow2(s);
  }

  lemma BlockIndex(half: nat, b: nat, k: nat)
    requires k < half
    ensures var i := b * (2 * half);
            && (i + k) / half == 2 * b && (i + k) % half == k
            && (i + k + half) / half == 2 * b + 1 && (i + k + half) % half == k
            && (i + k) / (2 * half) == b && (i + k) % (2 * half) == k
            && (i + k + half) / (2 * half) == b && (i + k + half) % (2 * half) == k + half
  {
    var i := b * (2 * half);
    assert i == half * (2 * b) == (2 * half) * b;
    assert i + half == half * (2 * b + 1);
    Quotient(i + k, half, 2 * b, k);
    Quotient(i + k + half, half, 2 * b + 1, k);
    Quotient(i + k, 2 * half, b, k);
    Quotient(i + k + half, 2 * half, b, k + half);
  }

  // One block of a stage: the butterflies from start on, with w running
  // through the powers of the twiddle step.
  method Butterflies(trig: Trig, a: array<Complex>, start: nat, len: nat,
                     ghost x: seq<Complex>, ghost p: nat, ghost s: nat, ghost b: nat)
    requires trig.Valid() && s < p && len == Pow2(s + 1) && start == b * len && start + len <= a.Length
    requires forall t: nat :: start <= t < start + len ==> a[t] == Staged(trig, x, p, s, t)
    modifies a
    ensures forall t: nat :: start <= t < start + len ==> a[t] == Staged(trig, x, p, s + 1, t)
    ensures forall t: nat :: t < start || start + len <= t < a.Length ==> a[t] == old(a[t])
  {
    hide Mul, Staged;
    var half, wl, w := len / 2, Root(trig, len), ONE;
    var k := 0;
    while k < half
      invariant 0 <= k <= half && w == Pow(wl, k)
      invariant forall t: nat :: start <= t < start + len ==>
                  a[t] == Staged(trig, x, p, if t < start + k || start + half <= t < start + half + k then s + 1 else s, t)
      invariant forall t: nat :: t < start || start + len <= t < a.Length ==> a[t] == old(a[t])
    {
      Butterfly(trig, x, p, s, b, k);
      var u, v := a[start + k], Mul(a[start + k + half], w);
      a[start + k] := Add(u, v);
      a[start + k + half] := Sub(u, v);
      w := Mul(w, wl);
      k := k + 1;
    }
  }

  // One stage: every block of len points.
  method Stage(trig: Trig, a: array<Complex>, len: nat, ghost x: seq<Complex>, ghost p: nat, ghost s: nat)
    requires trig.Valid() && s < p && len == Pow2(s + 1) && a.Length == Pow2(p - s - 1) * len
    requires forall t: nat :: t < a.Length ==> a[t] == Staged(trig, x, p, s, t)
    modifies a
    ensures forall t: nat :: t < a.Length ==> a[t] == Staged(trig, x, p, s + 1, t)
  {
    hide *;
    var n, i := a.Length, 0;
    ghost var b: nat, count := 0, Pow2(p - s - 1);
    while i < n
      invariant i == b * len && b <= count && i <= n
      invariant forall t: nat :: t < n ==> a[t] == Staged(trig, x, p, if t < i then s + 1 else s, t)
    {
      NextBlock(b, count, len);
      Butterflies(trig, a, i, len, x, p, s, b);
      i := i + len;
      b := b + 1;
    }
  }

  // The transform: reorder, then one stage for each doubling of the block length.
  method Fft(trig: Trig, a: array<Complex>, ghost p: nat)
    requires trig.Valid() && a.Length == Pow2(p)
    modifies a
    ensures forall k: nat :: k < a.Length ==> a[k] == Dft(trig, old(a[..]), k)
  {
    hide Mul, Staged, StridedDft;
    ghost var x := a[..];
    var n, len := a.Length, 2;
    Reorder(a, p);
    StagedFirst(trig, x, p);
    ghost var s := 0;
    while len <= n
      invariant s <= p && len == Pow2(s + 1)
      invariant forall t: nat :: t < n ==> a[t] == Staged(trig, x, p, s, t)
      decreases p - s
    {
      Blocks(p, s);
      Stage(trig, a, len, x, p, s);
      len := len * 2;
      s := s + 1;
    }
    Blocks(p, s);
    StagedLast(trig, x, p);
  }

  // A stage fits the array exactly when it is one of the p stages, and then its
  // block length divides the array.
  lemma {:induction false} Blocks(p: nat, s: nat)
    ensures Pow2(s + 1) <= Pow2(p) <==> s < p
    ensures s < p ==> Pow2(p) == Pow2(p - s - 1) * Pow2(s + 1)
    decreases p
  {
    if p == 0 {
    } else if s == 0 {
      assert Pow2(1) == 2;
    } else {
      Blocks(p - 1, s - 1);
    }
  }

  lemma NextBlock(b: nat, count: nat, len: nat)
    requires b * len < count * len && b <= count
    ensures b < count && (b + 1) * len == b * len + len <= count * len
  {
    if b < count {
      Monotone(len, b + 1, count);
    }
  }

  lemma StagedFirst(trig: Trig, x: seq<Complex>, p: nat)
    ensures forall t: nat :: Rev(p, t) < |x| ==> Staged(trig, x, p, 0, t) == x[Rev(p, t)]
  {
    hide Mul;
    forall t: nat | Rev(p, t) < |x|
      ensures Staged(trig, x, p, 0, t) == x[Rev(p, t)]
    {
      var w := Root(trig, 1);
      assert Staged(trig, x, p, 0, t) == StridedDft(x, Rev(p, t), Pow2(p), w, 0, 1);
      assert Pow(w, 0 * 0) == ONE;
      MulOne(ONE, x[Rev(p, t)]);
      assert StridedDft(x, Rev(p, t), Pow2(p), w, 0, 0) == ZERO;
    }
  }

  lemma StagedLast(trig: Trig, x: seq<Complex>, p: nat)
    requires |x| == Pow2(p)
    ensures forall t: nat :: t < |x| ==> Staged(trig, x, p, p, t) == Dft(trig, x, t)
  {
    forall t: nat | t < |x|
      ensures Staged(trig, x, p, p, t) == Dft(trig, x, t)
    {
      Quotient(t, |x|, 0, t);
    }
  }
}
