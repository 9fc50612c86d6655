/** The mixer's output stage: smoothed volume, a peak limiter and a soft clip that never clips. */
module Mixer {
  import opened Basics

  const CEILING := 0.89
  const KNEE := 0.95
  const BLOCK: nat := 64

  // The sample rate, and the two functions the stage leaves to the maths library.
  datatype Maths = Maths(fs: real, exp: real -> real, tanh: real -> real) {
    ghost predicate Valid() {
      fs > 0.0 && forall x | x <= 0.0 :: 0.0 < exp(x) <= 1.0
    }
  }

  function Peak(samples: seq<real>): real {
    if samples == [] then 0.0 else Max(Peak(samples[..|samples| - 1]), Abs(samples[|samples| - 1]))
  }

  // How far a level moves towards its goal in n frames with a time constant.
  function Ease(m: Maths, n: nat, tau: real): real
    requires m.Valid() && tau > 0.0
  {
    1.0 - Decay(m, n, tau)
  }

  // What is left of a distance after n frames with a time constant.
  function Decay(m: Maths, n: nat, tau: real): real
    requires m.Valid() && tau > 0.0
  {
    m.exp(Exponent(m.fs, n, tau))
  }

  function Exponent(fs: real, n: nat, tau: real): real
    requires fs > 0.0 && tau > 0.0
  {
    TimeConstant(fs, tau);
    -(n as real) / (tau * fs)
  }

  lemma TimeConstant(fs: real, tau: real)
    requires fs > 0.0 && tau > 0.0
    ensures tau * fs > 0.0
  {
  }

  lemma EaseWithin(m: Maths, n: nat, tau: real)
    requires m.Valid() && tau > 0.0
    ensures 0.0 <= Ease(m, n, tau) < 1.0
  {
    TimeConstant(m.fs, tau);
    NotPositive(n as real, tau * m.fs);
  }

  lemma NotPositive(n: real, d: real)
    requires n >= 0.0 && d > 0.0
    ensures -n / d <= 0.0
  {
    var q := -n / d;
    assert q * d == -n;
  }

  // ---- one block ----------------------------------------------------------------

  datatype Level = Level(master: real, limGain: real)

  ghost predicate LevelOk(s: Level) {
    0.0 <= s.master <= 1.0 && 0.0 <= s.limGain <= 1.0
  }

  function Towards(from: real, goal: real, k: real): real {
    from + Part(goal - from, k)
  }

  // The gain that keeps the peak at the ceiling, or one if it is below.
  function Wanted(peak: real, gain: real): real {
    if peak * gain > CEILING then CEILING / (peak * gain) else 1.0
  }

  // Down at once, up slowly.
  function Limited(limGain: real, want: real, k: real): real {
    if want < limGain then want else Towards(limGain, want, k)
  }

  function NextLevel(m: Maths, s: Level, target: real, samples: seq<real>): Level
    requires m.Valid()
  {
    var n := |samples| / 2;
    var master := Towards(s.master, target, Ease(m, n, 0.05));
    Level(master, Limited(s.limGain, Wanted(Peak(samples), Max(s.master, master)), Ease(m, n, 0.15)))
  }

  // The master gain at frame i of n, from one block's end to the next one's.
  function Ramp(g0: real, g1: real, i: nat, n: nat): real
    requires n > 0
  {
    g0 + (g1 - g0) * (i + 1) as real / n as real
  }

  function FrameGain(g0: real, t: Level, i: nat, n: nat): real
    requires n > 0
  {
    Ramp(g0, t.master, i, n) * t.limGain
  }

  function SoftClip(m: Maths, x: real): real {
    if Abs(x) > KNEE then (if x > 0.0 then 1.0 else -1.0) * (KNEE + 0.05 * m.tanh((Abs(x) - KNEE) * 20.0)) else x
  }

  // A sample under the gain ramped from g0 and the limiter; both channels of a frame alike.
  function Scaled(g0: real, t: Level, samples: seq<real>, j: nat): real
    requires j < |samples| && |samples| % 2 == 0
  {
    samples[j] * FrameGain(g0, t, j / 2, |samples| / 2)
  }

  function BlockOut(m: Maths, g0: real, t: Level, samples: seq<real>): seq<real>
    requires |samples| % 2 == 0
  {
    seq(|samples|, j requires 0 <= j < |samples| => SoftClip(m, Scaled(g0, t, samples, j)))
  }

  lemma {:induction false} PeakBounds(samples: seq<real>, j: nat)
    requires j < |samples|
    ensures Abs(samples[j]) <= Peak(samples)
  {
    if j < |samples| - 1 {
      PeakBounds(samples[..|samples| - 1], j);
    }
  }

  lemma {:induction false} PeakNonnegative(samples: seq<real>)
    ensures Peak(samples) >= 0.0
  {
    if samples != [] {
      PeakNonnegative(samples[..|samples| - 1]);
    }
  }

  lemma TowardsBetween(from: real, goal: real, k: real)
    requires 0.0 <= k <= 1.0
    ensures from <= goal ==> from <= Towards(from, goal, k) <= goal
    ensures goal <= from ==> goal <= Towards(from, goal, k) <= from
  {
    hide Part;
    PartWithin(goal - from, k);
  }

  lemma RampBetween(g0: real, g1: real, i: nat, n: nat)
    requires i < n && g0 >= 0.0 && g1 >= 0.0
    ensures 0.0 <= Ramp(g0, g1, i, n) <= Max(g0, g1)
  {
    hide Part, Towards;
    Fraction((i + 1) as real, n as real);
    TowardsBetween(g0, g1, (i + 1) as real / n as real);
    RampIsTowards(g0, g1, i, n);
  }

  lemma RampIsTowards(g0: real, g1: real, i: nat, n: nat)
    requires i < n
    ensures Ramp(g0, g1, i, n) == Towards(g0, g1, (i + 1) as real / n as real)
  {
    Regroup(g1 - g0, (i + 1) as real, n as real);
  }

  lemma Fraction(a: real, b: real)
    requires 0.0 < a <= b
    ensures 0.0 < a / b <= 1.0
  {
    var f := a / b;
    assert f * b == a;
  }

  lemma Regroup(d: real, a: real, b: real)
    requires b > 0.0
    ensures d * a / b == d * (a / b)
  {
    assert d * a == d * ((a / b) * b);
    assert d * ((a / b) * b) == d * (a / b) * b;
    ExactQuotient(d * a, b, d * (a / b));
  }

  lemma WantedWithin(peak: real, gain: real)
    requires peak >= 0.0 && gain >= 0.0
    ensures 0.0 < Wanted(peak, gain) <= 1.0 && peak * gain * Wanted(peak, gain) <= CEILING
  {
    var p := peak * gain;
    if p > CEILING {
      var q := CEILING / p;
      assert q * p == CEILING;
      Fraction(CEILING, p);
    }
  }

  lemma LimitedBelow(limGain: real, want: real, k: real)
    requires 0.0 <= limGain <= 1.0 && 0.0 < want <= 1.0 && 0.0 <= k < 1.0
    ensures 0.0 <= Limited(limGain, want, k) <= want
  {
    TowardsBetween(limGain, want, k);
  }

  lemma ScaledWithin(x: real, g: real, lim: real, peak: real, gain: real, want: real)
    requires Abs(x) <= peak && 0.0 <= g <= gain && 0.0 <= lim <= want && peak * gain * want <= CEILING
    ensures Abs(x * (g * lim)) <= CEILING
  {
    var a := Abs(x);
    ProductsGrow(a, peak, g, gain);
    ProductsGrow(a * g, peak * gain, lim, want);
    Grouped(x, g, lim);
  }

  lemma ProductsGrow(a: real, b: real, c: real, d: real)
    requires 0.0 <= a <= b && 0.0 <= c <= d
    ensures 0.0 <= a * c <= b * d
  {
    Nonnegative(a, c);
    Nonnegative(b - a, d);
    Nonnegative(a, d - c);
    assert b * d - a * c == (b - a) * d + a * (d - c);
  }

  lemma Nonnegative(a: real, b: real)
    requires a >= 0.0 && b >= 0.0
    ensures a * b >= 0.0
  {
  }

  lemma Grouped(x: real, g: real, lim: real)
    requires g >= 0.0 && lim >= 0.0
    ensures Abs(x * (g * lim)) == Abs(x) * g * lim
  {
    var w := g * lim;
    Nonnegative(g, lim);
    Nonnegative(Abs(x), w);
    assert Abs(x) * g * lim == Abs(x) * w;
    assert x < 0.0 ==> x * w == -(Abs(x) * w);
  }

  lemma NotClipped(m: Maths, x: real)
    requires Abs(x) <= CEILING
    ensures SoftClip(m, x) == x
  {
  }

  lemma SampleWithin(s: Level, t: Level, samples: seq<real>, j: nat, peak: real, gain: real, want: real)
    requires j < |samples| && |samples| % 2 == 0 && Abs(samples[j]) <= peak && gain == Max(s.master, t.master)
    requires 0.0 <= s.master && 0.0 <= t.master && 0.0 <= t.limGain <= want && peak * gain * want <= CEILING
    ensures Abs(Scaled(s.master, t, samples, j)) <= CEILING
  {
    hide Ramp;
    var n := |samples| / 2;
    RampBetween(s.master, t.master, j / 2, n);
    ScaledWithin(samples[j], Ramp(s.master, t.master, j / 2, n), t.limGain, peak, gain, want);
  }

  // Whatever a block holds, the levels stay within bounds and every sample leaves within
  // the ceiling, so the soft clip passes it unchanged.
  lemma BlockWithinCeiling(m: Maths, s: Level, target: real, samples: seq<real>)
    requires m.Valid() && LevelOk(s) && 0.0 <= target <= 1.0 && |samples| % 2 == 0
    ensures LevelOk(NextLevel(m, s, target, samples))
    ensures forall j | 0 <= j < |samples| ::
              var x := BlockOut(m, s.master, NextLevel(m, s, target, samples), samples)[j];
              Abs(x) <= CEILING && x == Scaled(s.master, NextLevel(m, s, target, samples), samples, j)
  {
    hide Peak, Ease, Towards, Wanted, Limited, Ramp, SoftClip, Scaled;
    var n, t := |samples| / 2, NextLevel(m, s, target, samples);
    EaseWithin(m, n, 0.05);
    EaseWithin(m, n, 0.15);
    TowardsBetween(s.master, target, Ease(m, n, 0.05));
    var peak, gain := Peak(samples), Max(s.master, t.master);
    PeakNonnegative(samples);
    WantedWithin(peak, gain);
    LimitedBelow(s.limGain, Wanted(peak, gain), Ease(m, n, 0.15));
    forall j | 0 <= j < |samples|
      ensures Abs(Scaled(s.master, t, samples, j)) <= CEILING
    {
      PeakBounds(samples, j);
      SampleWithin(s, t, samples, j, peak, gain, Wanted(peak, gain));
    }
    forall j | 0 <= j < |samples|
      ensures SoftClip(m, Scaled(s.master, t, samples, j)) == Scaled(s.master, t, samples, j)
    {
      NotClipped(m, Scaled(s.master, t, samples, j));
    }
  }

  // ---- a callback: blocks of 64 frames ----------------------------------------------

  function BlockSize(left: nat): (k: nat)
    requires left % 2 == 0
    ensures k <= left && k % 2 == 0 && (left > 0 ==> k > 0)
  {
    if left < 2 * BLOCK then left else 2 * BLOCK
  }

  function Rendered(m: Maths, s: Level, target: real, samples: seq<real>): (Level, seq<real>)
    requires m.Valid() && |samples| % 2 == 0
    decreases |samples|
  {
    if samples == [] then (s, [])
    else
      var k := BlockSize(|samples|);
      var t := NextLevel(m, s, target, samples[..k]);
      var (u, rest) := Rendered(m, t, target, samples[k..]);
      (u, BlockOut(m, s.master, t, samples[..k]) + rest)
  }

  lemma NextBlock(m: Maths, s: Level, target: real, samples: seq<real>)
    requires m.Valid() && |samples| % 2 == 0 && samples != []
    ensures var k := BlockSize(|samples|);
            var t := NextLevel(m, s, target, samples[..k]);
            Rendered(m, s, target, samples) == (Rendered(m, t, target, samples[k..]).0,
                                                BlockOut(m, s.master, t, samples[..k]) + Rendered(m, t, target, samples[k..]).1)
  {
    hide NextLevel, BlockOut;
  }

  lemma Cuts(now: seq<real>, mix: seq<real>, done: nat, n: nat)
    requires done + n <= |now| == |mix| && now[done..] == mix[done..]
    ensures now[done..done + n] == mix[done..][..n] && now[done + n..] == mix[done + n..] == mix[done..][n..]
  {
    assert mix[done..][..n] == now[done..][..n] && mix[done..][n..] == now[done..][n..];
  }

  lemma Joined(a: seq<real>, b: seq<real>, c: seq<real>)
    ensures (a + b) + c == a + (b + c)
  {
  }

  lemma NoBlocks(m: Maths, s: Level, target: real)
    requires m.Valid()
    ensures Rendered(m, s, target, []) == (s, [])
  {
  }

  ghost predicate WithinCeiling(samples: seq<real>) {
    forall j | 0 <= j < |samples| :: Abs(samples[j]) <= CEILING
  }

  lemma {:induction false} RenderedWithinCeiling(m: Maths, s: Level, target: real, samples: seq<real>)
    requires m.Valid() && LevelOk(s) && 0.0 <= target <= 1.0 && |samples| % 2 == 0
    ensures var (u, out) := Rendered(m, s, target, samples);
            LevelOk(u) && |out| == |samples| && WithinCeiling(out)
    decreases |samples|
  {
    hide NextLevel, LevelOk, SoftClip, Scaled;
    if samples != [] {
      var k := BlockSize(|samples|);
      BlockWithinCeiling(m, s, target, samples[..k]);
      RenderedWithinCeiling(m, NextLevel(m, s, target, samples[..k]), target, samples[k..]);
    }
  }

  // ---- every run ----------------------------------------------------------------------

  // What happens to the engine: volume and mute calls, and callbacks with any mix.
  datatype Event = SetMasterVolume(v: real) | SetMuted(mute: bool) | Render(mix: seq<real>)

  datatype Stage = Stage(masterVol: real, muted: bool, level: Level, heard: seq<real>)

  function After(m: Maths, s: Stage, e: Event): Stage
    requires m.Valid()
  {
    match e
    case SetMasterVolume(v) => s.(masterVol := Clamp(v, 0.0, 1.0))
    case SetMuted(mute) => s.(muted := mute)
    case Render(mix) =>
      if |mix| % 2 != 0 then s
      else
        var (level, out) := Rendered(m, s.level, Target(s), mix);
        s.(level := level, heard := s.heard + out)
  }

  function Target(s: Stage): real {
    if s.muted then 0.0 else s.masterVol
  }

  function Run(m: Maths, s: Stage, events: seq<Event>): Stage
    requires m.Valid()
  {
    if events == [] then s else After(m, Run(m, s, events[..|events| - 1]), events[|events| - 1])
  }

  const STARTED := Stage(0.8, false, Level(0.8, 1.0), [])

  ghost predicate StageOk(s: Stage) {
    0.0 <= s.masterVol <= 1.0 && LevelOk(s.level) && WithinCeiling(s.heard)
  }

  // Over every run, whatever is mixed and however the volume changes, no sample heard is
  // above 0.89 of full scale.
  lemma {:induction false} NothingAboveCeiling(m: Maths, events: seq<Event>)
    requires m.Valid()
    ensures StageOk(Run(m, STARTED, events))
  {
    hide LevelOk, Rendered;
    if events == [] {
      StartsOk();
    } else {
      var front, last := events[..|events| - 1], events[|events| - 1];
      NothingAboveCeiling(m, front);
      var s := Run(m, STARTED, front);
      if last.Render? && |last.mix| % 2 == 0 {
        RenderedWithinCeiling(m, s.level, Target(s), last.mix);
      }
    }
  }

  lemma StartsOk()
    ensures StageOk(STARTED)
  {
  }

  // ---- what is heard ------------------------------------------------------------------

  ghost predicate Exponential(m: Maths) {
    m.exp(0.0) == 1.0 && forall a, b | a <= 0.0 && b <= 0.0 :: m.exp(a + b) == m.exp(a) * m.exp(b)
  }

  lemma TowardsLeaves(from: real, goal: real, k: real)
    ensures Towards(from, goal, 1.0 - k) - goal == (from - goal) * k
  {
  }

  // One block, told by distances: the master level's to its target shrinks by the decay of
  // 50 ms.
  lemma LevelSays(m: Maths, s: Level, target: real, samples: seq<real>)
    requires m.Valid()
    ensures NextLevel(m, s, target, samples).master - target == (s.master - target) * Decay(m, |samples| / 2, 0.05)
  {
    hide Peak, Towards, Limited, Decay;
    TowardsLeaves(s.master, target, Decay(m, |samples| / 2, 0.05));
  }

  // The limiter is at once where it must be to keep the loudest sample at the ceiling, and
  // else its distance to there, or to letting go, shrinks by the decay of 150 ms.
  lemma LimiterSays(m: Maths, s: Level, target: real, samples: seq<real>)
    requires m.Valid()
    ensures var t := NextLevel(m, s, target, samples);
            var loudest := Peak(samples) * Max(s.master, t.master);
            var want := if loudest <= CEILING then 1.0 else CEILING / loudest;
            && (want < s.limGain ==> t.limGain == want)
            && (want >= s.limGain ==> t.limGain - want == (s.limGain - want) * Decay(m, |samples| / 2, 0.15))
  {
    hide Peak, Towards, Decay, Wanted, Limited;
    LimitedSays(s.limGain, Peak(samples), Max(s.master, NextLevel(m, s, target, samples).master), Decay(m, |samples| / 2, 0.15));
  }

  lemma LimitedSays(limGain: real, peak: real, gain: real, left: real)
    ensures var want := if peak * gain <= CEILING then 1.0 else CEILING / (peak * gain);
            var next := Limited(limGain, Wanted(peak, gain), 1.0 - left);
            (want < limGain ==> next == want) && (want >= limGain ==> next - want == (limGain - want) * left)
  {
    hide Towards;
    TowardsLeaves(limGain, Wanted(peak, gain), left);
  }

  // Each frame leaves under the limiter and the gain on the straight way from level to level.
  lemma BlockSays(m: Maths, s: Level, target: real, samples: seq<real>, j: nat)
    requires m.Valid() && LevelOk(s) && 0.0 <= target <= 1.0 && |samples| % 2 == 0 && j < |samples|
    ensures var (t, n) := (NextLevel(m, s, target, samples), |samples| / 2);
            BlockOut(m, s.master, t, samples)[j] ==
            samples[j] * ((s.master + (t.master - s.master) * (j / 2 + 1) as real / n as real) * t.limGain)
  {
    hide NextLevel, SoftClip, LevelOk, BlockOut;
    BlockWithinCeiling(m, s, target, samples);
  }

  lemma {:induction false} DecayAdds(m: Maths, a: nat, b: nat, tau: real)
    requires m.Valid() && Exponential(m) && tau > 0.0
    ensures Decay(m, a + b, tau) == Decay(m, a, tau) * Decay(m, b, tau)
  {
    hide Exponent;
    ExponentAdds(m.fs, a, b, tau);
  }

  lemma ExponentAdds(fs: real, a: nat, b: nat, tau: real)
    requires fs > 0.0 && tau > 0.0
    ensures Exponent(fs, a + b, tau) == Exponent(fs, a, tau) + Exponent(fs, b, tau)
    ensures Exponent(fs, a, tau) <= 0.0 && Exponent(fs, b, tau) <= 0.0
  {
    TimeConstant(fs, tau);
    NotPositive(a as real, tau * fs);
    NotPositive(b as real, tau * fs);
    QuotientAdds(-(a as real), -(b as real), tau * fs);
  }

  lemma QuotientAdds(a: real, b: real, d: real)
    requires d > 0.0
    ensures (a + b) / d == a / d + b / d
  {
    var x, y := a / d, b / d;
    assert x * d == a && y * d == b;
    ExactQuotient(a + b, d, x + y);
  }

  // Over a callback of any size, however it is cut, the master level closes in on its target
  // by the decay of all its frames.
  lemma {:induction false} CallbackEases(m: Maths, s: Level, target: real, samples: seq<real>)
    requires m.Valid() && Exponential(m) && LevelOk(s) && 0.0 <= target <= 1.0 && |samples| % 2 == 0
    ensures Rendered(m, s, target, samples).0.master - target == (s.master - target) * Decay(m, |samples| / 2, 0.05)
    decreases |samples|
  {
    hide NextLevel, LevelOk, BlockOut, Exponential, Decay;
    if samples == [] {
      NothingDecays(m, 0.05);
    } else {
      var k := BlockSize(|samples|);
      var t := NextLevel(m, s, target, samples[..k]);
      BlockWithinCeiling(m, s, target, samples[..k]);
      LevelSays(m, s, target, samples[..k]);
      NextBlock(m, s, target, samples);
      CallbackEases(m, t, target, samples[k..]);
      DecayAdds(m, k / 2, |samples[k..]| / 2, 0.05);
      Chain(s.master - target, Decay(m, k / 2, 0.05), Decay(m, |samples[k..]| / 2, 0.05));
    }
  }

  lemma NothingDecays(m: Maths, tau: real)
    requires m.Valid() && Exponential(m) && tau > 0.0
    ensures Decay(m, 0, tau) == 1.0
  {
    TimeConstant(m.fs, tau);
    ExactQuotient(0.0, tau * m.fs, 0.0);
  }

  lemma Chain(x: real, a: real, b: real)
    ensures (x * a) * b == x * (a * b)
  {
  }

  // No sample is heard louder than the mix under the higher of level and target: a muted
  // engine fades from where it is.
  lemma {:induction false} NotAboveLevel(m: Maths, s: Level, target: real, samples: seq<real>)
    requires m.Valid() && LevelOk(s) && 0.0 <= target <= 1.0 && |samples| % 2 == 0
    ensures var out := Rendered(m, s, target, samples).1;
            |out| == |samples| && forall j | 0 <= j < |samples| :: Abs(out[j]) <= Abs(samples[j]) * Max(s.master, target)
    decreases |samples|
  {
    hide NextLevel, LevelOk, BlockOut;
    if samples != [] {
      var k := BlockSize(|samples|);
      var t := NextLevel(m, s, target, samples[..k]);
      BlockWithinCeiling(m, s, target, samples[..k]);
      BlockNotAbove(m, s, target, samples[..k]);
      NextBlock(m, s, target, samples);
      NotAboveLevel(m, t, target, samples[k..]);
      var here, rest := BlockOut(m, s.master, t, samples[..k]), Rendered(m, t, target, samples[k..]).1;
      forall j | 0 <= j < |samples|
        ensures Abs((here + rest)[j]) <= Abs(samples[j]) * Max(s.master, target)
      {
        if j >= k {
          assert samples[j] == samples[k..][j - k] && (here + rest)[j] == rest[j - k];
          ProductsGrow(Abs(samples[j]), Abs(samples[j]), Max(t.master, target), Max(s.master, target));
        } else {
          assert samples[j] == samples[..k][j];
        }
      }
    }
  }

  lemma BlockNotAbove(m: Maths, s: Level, target: real, samples: seq<real>)
    requires m.Valid() && LevelOk(s) && 0.0 <= target <= 1.0 && |samples| % 2 == 0
    ensures var t := NextLevel(m, s, target, samples);
            && 0.0 <= Max(t.master, target) <= Max(s.master, target)
            && |BlockOut(m, s.master, t, samples)| == |samples|
            && forall j | 0 <= j < |samples| :: Abs(BlockOut(m, s.master, t, samples)[j]) <= Abs(samples[j]) * Max(s.master, target)
  {
    hide Peak, Ease, Towards, Wanted, Limited, Ramp, SoftClip;
    var n, t := |samples| / 2, NextLevel(m, s, target, samples);
    EaseWithin(m, n, 0.05);
    TowardsBetween(s.master, target, Ease(m, n, 0.05));
    BlockWithinCeiling(m, s, target, samples);
    forall j | 0 <= j < |samples|
      ensures Abs(Scaled(s.master, t, samples, j)) <= Abs(samples[j]) * Max(s.master, target)
    {
      ScaledBelow(s.master, t, samples, j, Max(s.master, target));
    }
  }

  lemma ScaledBelow(g0: real, t: Level, samples: seq<real>, j: nat, gain: real)
    requires j < |samples| && |samples| % 2 == 0 && 0.0 <= g0 <= gain && 0.0 <= t.master <= gain && 0.0 <= t.limGain <= 1.0
    ensures Abs(Scaled(g0, t, samples, j)) <= Abs(samples[j]) * gain
  {
    hide Ramp;
    RampBetween(g0, t.master, j / 2, |samples| / 2);
    Damped(samples[j], Ramp(g0, t.master, j / 2, |samples| / 2), t.limGain, gain);
  }

  lemma Damped(x: real, g: real, lim: real, gain: real)
    requires 0.0 <= g <= gain && 0.0 <= lim <= 1.0
    ensures Abs(x * (g * lim)) <= Abs(x) * gain
  {
    Grouped(x, g, lim);
    ProductsGrow(Abs(x), Abs(x), g, gain);
    ProductsGrow(Abs(x) * g, Abs(x) * gain, lim, 1.0);
  }

  // No sample passes the ceiling under the gain.
  ghost predicate Quiet(samples: seq<real>, gain: real) {
    forall j | 0 <= j < |samples| :: Abs(samples[j]) * gain <= CEILING
  }

  lemma QuietParts(samples: seq<real>, gain: real, k: nat)
    requires Quiet(samples, gain) && k <= |samples|
    ensures Quiet(samples[..k], gain) && Quiet(samples[k..], gain)
  {
  }

  // A mix that stays below the ceiling at a settled level with the limiter released leaves
  // as it was times that level, and nothing changes.
  lemma {:induction false} QuietMixPlain(m: Maths, s: Level, samples: seq<real>)
    requires m.Valid() && LevelOk(s) && s.limGain == 1.0 && |samples| % 2 == 0
    requires Quiet(samples, s.master)
    ensures var (t, out) := Rendered(m, s, s.master, samples);
            t == s && |out| == |samples| && forall j | 0 <= j < |samples| :: out[j] == samples[j] * s.master
    decreases |samples|
  {
    hide NextLevel, LevelOk, BlockOut, Quiet, BlockSize;
    if samples != [] {
      var k := BlockSize(|samples|);
      QuietParts(samples, s.master, k);
      QuietBlockPlain(m, s, samples[..k]);
      NextBlock(m, s, s.master, samples);
      QuietMixPlain(m, s, samples[k..]);
      var here, rest := BlockOut(m, s.master, s, samples[..k]), Rendered(m, s, s.master, samples[k..]).1;
      forall j | 0 <= j < |samples|
        ensures (here + rest)[j] == samples[j] * s.master
      {
        assert if j < k then (here + rest)[j] == here[j] else (here + rest)[j] == rest[j - k];
      }
    }
  }

  lemma QuietBlockPlain(m: Maths, s: Level, samples: seq<real>)
    requires m.Valid() && LevelOk(s) && s.limGain == 1.0 && |samples| % 2 == 0 && samples != []
    requires Quiet(samples, s.master)
    ensures NextLevel(m, s, s.master, samples) == s && |BlockOut(m, s.master, s, samples)| == |samples|
    ensures forall j | 0 <= j < |samples| :: BlockOut(m, s.master, s, samples)[j] == samples[j] * s.master
  {
    hide NextLevel, BlockOut, LevelOk;
    QuietLevel(m, s, samples);
    QuietSample(m, s, samples, 0);
    forall j | 0 <= j < |samples|
      ensures |BlockOut(m, s.master, s, samples)| == |samples| && BlockOut(m, s.master, s, samples)[j] == samples[j] * s.master
    {
      QuietSample(m, s, samples, j);
    }
  }

  lemma QuietSample(m: Maths, s: Level, samples: seq<real>, j: nat)
    requires LevelOk(s) && s.limGain == 1.0 && |samples| % 2 == 0 && j < |samples| && Quiet(samples, s.master)
    ensures |BlockOut(m, s.master, s, samples)| == |samples| && BlockOut(m, s.master, s, samples)[j] == samples[j] * s.master
  {
    hide FrameGain;
    PlainScaled(s.master, s, samples, j);
    AbsTimes(samples[j], s.master);
    NotClipped(m, samples[j] * s.master);
  }

  lemma QuietLevel(m: Maths, s: Level, samples: seq<real>)
    requires m.Valid() && LevelOk(s) && s.limGain == 1.0
    requires Quiet(samples, s.master)
    ensures NextLevel(m, s, s.master, samples) == s
  {
    hide Peak, Ease, Towards;
    PeakTimes(samples, s.master);
    Settled(s.master, Ease(m, |samples| / 2, 0.05));
    Settled(1.0, Ease(m, |samples| / 2, 0.15));
  }

  lemma AbsTimes(x: real, g: real)
    requires g >= 0.0
    ensures Abs(x * g) == Abs(x) * g
  {
    Grouped(x, g, 1.0);
  }

  lemma Settled(level: real, k: real)
    ensures Towards(level, level, k) == level
  {
  }

  lemma PlainScaled(g: real, t: Level, samples: seq<real>, j: nat)
    requires j < |samples| && |samples| % 2 == 0 && t.master == g && t.limGain == 1.0
    ensures Scaled(g, t, samples, j) == samples[j] * g
  {
    hide Ramp, Towards;
    var n := |samples| / 2;
    RampIsTowards(g, g, j / 2, n);
    Settled(g, (j / 2 + 1) as real / n as real);
  }

  lemma PeakTimes(samples: seq<real>, gain: real)
    requires gain >= 0.0 && Quiet(samples, gain)
    ensures Peak(samples) * gain <= CEILING
  {
    hide Peak;
    PeakReached(samples);
  }

  lemma {:induction false} PeakReached(samples: seq<real>)
    ensures Peak(samples) == 0.0 || exists j :: 0 <= j < |samples| && Peak(samples) == Abs(samples[j])
  {
    if samples != [] {
      var front := samples[..|samples| - 1];
      PeakReached(front);
      assert forall j | 0 <= j < |front| :: front[j] == samples[j];
    }
  }

  // Over any callbacks without a call in between, the level closes in on its target by the
  // decay of all their frames; with the engine muted the sound dies away.
  lemma {:induction false} LevelSettles(m: Maths, s: Stage, mixes: seq<seq<real>>)
    requires m.Valid() && Exponential(m) && StageOk(s) && forall i | 0 <= i < |mixes| :: |mixes[i]| % 2 == 0
    ensures var u := Run(m, s, Renders(mixes));
            && StageOk(u) && u.masterVol == s.masterVol && u.muted == s.muted
            && u.level.master - Target(s) == (s.level.master - Target(s)) * Decay(m, Frames(mixes), 0.05)
  {
    hide LevelOk, Rendered, Exponential, Decay, WithinCeiling;
    if mixes == [] {
      NothingDecays(m, 0.05);
    } else {
      var front, mix := mixes[..|mixes| - 1], mixes[|mixes| - 1];
      LevelSettles(m, s, front);
      assert Renders(mixes)[..|mixes| - 1] == Renders(front);
      var u := Run(m, s, Renders(front));
      RenderedWithinCeiling(m, u.level, Target(u), mix);
      HeardWithin(u.heard, Rendered(m, u.level, Target(u), mix).1);
      CallbackEases(m, u.level, Target(u), mix);
      DecayAdds(m, Frames(front), |mix| / 2, 0.05);
      Chain(s.level.master - Target(s), Decay(m, Frames(front), 0.05), Decay(m, |mix| / 2, 0.05));
    }
  }

  lemma HeardWithin(a: seq<real>, b: seq<real>)
    requires WithinCeiling(a) && WithinCeiling(b)
    ensures WithinCeiling(a + b)
  {
  }

  function Renders(mixes: seq<seq<real>>): seq<Event> {
    seq(|mixes|, i requires 0 <= i < |mixes| => Render(mixes[i]))
  }

  function Frames(mixes: seq<seq<real>>): nat {
    if mixes == [] then 0 else Frames(mixes[..|mixes| - 1]) + |mixes[|mixes| - 1]| / 2
  }

  class OutputStage {
    const maths: Maths
    var masterVol: real
    var muted: bool
    var master: real
    var limGain: real

    function Levels(): Level
      reads this
    {
      Level(master, limGain)
    }

    constructor (maths: Maths)
      requires maths.Valid()
      ensures this.maths == maths && masterVol == STARTED.masterVol && muted == STARTED.muted && Levels() == STARTED.level
    {
      this.maths, masterVol, muted := maths, 0.8, false;
      master, limGain := 0.8, 1.0;
    }

    method SetMasterVolume(v: real)
      modifies this`masterVol
      ensures masterVol == Clamp(v, 0.0, 1.0)
    {
      masterVol := Clamp(v, 0.0, 1.0);
    }

    method SetMuted(mute: bool)
      modifies this`muted
      ensures muted == mute
    {
      muted := mute;
    }

    // Finish a buffer that holds the mix, in place.
    method Render(out: array<real>)
      requires maths.Valid() && out.Length % 2 == 0
      modifies `master, `limGain, out
      ensures (Levels(), out[..]) == Rendered(maths, old(Levels()), if muted then 0.0 else masterVol, old(out[..]))
    {
      hide NextLevel, BlockOut, Rendered, BlockSize;
      var target := if muted then 0.0 else masterVol;
      ghost var whole, mix := Rendered(maths, Levels(), target, out[..]), out[..];
      var done := 0;
      while done < out.Length
        invariant 0 <= done <= out.Length == |mix| && done % 2 == 0 && out[done..] == mix[done..]
        invariant Rendered(maths, Levels(), target, mix[done..]).0 == whole.0
        invariant out[..done] + Rendered(maths, Levels(), target, mix[done..]).1 == whole.1
      {
        var n := BlockSize(out.Length - done);
        NextBlock(maths, Levels(), target, mix[done..]);
        ghost var front, now := out[..done], out[..];
        Cuts(now, mix, done, n);
        assert now[done..done + n] == out[done..done + n] && now[done + n..] == out[done + n..];
        FinishBlock(out, done, n, target);
        assert out[..done + n] == front + out[done..done + n];
        Joined(front, out[done..done + n], Rendered(maths, Levels(), target, mix[done + n..]).1);
        done := done + n;
      }
      assert out[..done] == out[..] && mix[done..] == [];
      NoBlocks(maths, Levels(), target);
      assert out[..] + [] == out[..];
    }

    method FinishBlock(out: array<real>, lo: nat, size: nat, target: real)
      requires maths.Valid() && size % 2 == 0 && size > 0 && lo + size <= out.Length
      modifies `master, `limGain, out
      ensures Levels() == NextLevel(maths, old(Levels()), target, old(out[lo..lo + size]))
      ensures out[..lo] == old(out[..lo]) && out[lo + size..] == old(out[lo + size..])
      ensures out[lo..lo + size] == BlockOut(maths, old(master), Levels(), old(out[lo..lo + size]))
    {
      hide Peak, Ease, Limited, Wanted, SoftClip, Scaled, Towards, Ramp;
      ghost var samples := out[lo..lo + size];
      var n := size / 2;
      var peak := PeakOf(out, lo, size);
      var g0 := master;
      var g1 := Towards(master, target, Ease(maths, n, 0.05));
      master := g1;
      limGain := Limited(limGain, Wanted(peak, Max(g0, g1)), Ease(maths, n, 0.15));
      ScaleBlock(out, lo, size, g0);
    }

    method ScaleBlock(out: array<real>, lo: nat, size: nat, g0: real)
      requires size % 2 == 0 && size > 0 && lo + size <= out.Length
      modifies out
      ensures out[..lo] == old(out[..lo]) && out[lo + size..] == old(out[lo + size..])
      ensures out[lo..lo + size] == BlockOut(maths, g0, Levels(), old(out[lo..lo + size]))
    {
      hide SoftClip, FrameGain;
      ghost var samples := out[lo..lo + size];
      var n, t := size / 2, Levels();
      for i := 0 to size
        invariant forall k | 0 <= k < lo || lo + i <= k < out.Length :: out[k] == old(out[k])
        invariant forall j | 0 <= j < i :: out[lo + j] == BlockOut(maths, g0, t, samples)[j]
      {
        assert out[lo + i] == samples[i];
        var x := out[lo + i] * FrameGain(g0, t, i / 2, n);
        assert x == Scaled(g0, t, samples, i);
        out[lo + i] := SoftClip(maths, x);
      }
    }

    method PeakOf(out: array<real>, lo: nat, size: nat) returns (peak: real)
      requires lo + size <= out.Length
      ensures peak == Peak(out[lo..lo + size])
    {
      peak := 0.0;
      for i := 0 to size
        invariant peak == Peak(out[lo..lo + i])
      {
        assert out[lo..lo + i + 1][..i] == out[lo..lo + i];
        peak := Max(peak, Abs(out[lo + i]));
      }
    }
  }
}
