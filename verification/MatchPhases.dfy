/** The host's phase machine: every match runs its course within a bound set by the config. */
module MatchPhases {
  import opened Basics
  import opened Snapshots

  datatype Config = Config(countdownSeconds: real, raceSeconds: real, resultsSeconds: real, dt: real)

  function PhaseDuration(c: Config, p: MatchPhase): real {
    match p
    case Countdown => c.countdownSeconds
    case Racing => c.raceSeconds
    case Results => c.resultsSeconds
    case Lobby => 0.0
  }

  datatype Clock = Clock(phase: MatchPhase, timer: real, active: bool)

  // The end of a host tick; finished tells whether the race has a winner.
  function PhaseTick(k: Clock, finished: bool, c: Config): Clock {
    if !k.active then k
    else
      var timer := k.timer - c.dt;
      match k.phase
      case Countdown => if timer <= 0.0 then Clock(Racing, c.raceSeconds, true) else k.(timer := timer)
      case Racing => if finished || timer <= 0.0 then Clock(Results, c.resultsSeconds, true) else k.(timer := timer)
      case Results => if timer <= 0.0 then Clock(Lobby, 0.0, false) else k.(timer := timer)
      case Lobby => Clock(Lobby, timer, false)
  }

  class MatchClock {
    const c: Config
    var phase: MatchPhase
    var phaseTimer: real
    var active: bool

    constructor (c: Config)
      ensures this.c == c && phase == Countdown && phaseTimer == c.countdownSeconds && active
    {
      this.c, phase, phaseTimer, active := c, Countdown, c.countdownSeconds, true;
    }

    method SetPhase(p: MatchPhase)
      modifies this`phase, this`phaseTimer
      ensures phase == p && phaseTimer == PhaseDuration(c, p)
    {
      phase, phaseTimer := p, PhaseDuration(c, p);
    }

    method Tick(finished: bool)
      modifies this
      ensures Clock(phase, phaseTimer, active) == PhaseTick(old(Clock(phase, phaseTimer, active)), finished, c)
    {
      if !active {
        return;
      }
      phaseTimer := phaseTimer - c.dt;
      if phase == Countdown && phaseTimer <= 0.0 {
        SetPhase(Racing);
      } else if phase == Racing && (finished || phaseTimer <= 0.0) {
        SetPhase(Results);
      } else if phase == Results && phaseTimer <= 0.0 {
        SetPhase(Lobby);
      }
      if phase == Lobby {
        active := false;
      }
    }
  }

  // The fewest ticks, at least one, that last for d seconds.
  function TicksFor(d: real, c: Config): nat
    requires c.dt > 0.0
  {
    if d <= c.dt then 1 else -((-(d / c.dt)).Floor)
  }

  lemma OneTickLess(d: real, c: Config)
    requires c.dt > 0.0 && d > c.dt
    ensures TicksFor(d - c.dt, c) == TicksFor(d, c) - 1
  {
    var q := d / c.dt;
    ExactQuotient(d - c.dt, c.dt, q - 1.0);
    QuotientBounds(d, c.dt);
  }

  lemma QuotientBounds(a: real, b: real)
    requires b > 0.0
    ensures a / b > 1.0 <==> a > b
    ensures a - b <= b <==> a / b <= 2.0
  {
    var q := a / b;
    assert q * b == a;
  }

  // The ticks a match can still take.
  function TicksLeft(k: Clock, c: Config): nat
    requires c.dt > 0.0
  {
    if !k.active then 0
    else match k.phase
      case Countdown => TicksFor(k.timer, c) + TicksFor(c.raceSeconds, c) + TicksFor(c.resultsSeconds, c)
      case Racing => TicksFor(k.timer, c) + TicksFor(c.resultsSeconds, c)
      case Results => TicksFor(k.timer, c)
      case Lobby => 1
  }

  lemma TickCountsDown(k: Clock, finished: bool, c: Config)
    requires c.dt > 0.0 && k.active
    ensures TicksLeft(PhaseTick(k, finished, c), c) < TicksLeft(k, c)
  {
    if k.timer > c.dt {
      OneTickLess(k.timer, c);
    }
  }

  function Rank(p: MatchPhase): nat {
    match p
    case Countdown => 0
    case Racing => 1
    case Results => 2
    case Lobby => 3
  }

  // The clock after n ticks of a new match, whatever the race does.
  function After(c: Config, finished: nat -> bool, n: nat): Clock {
    if n == 0 then Clock(Countdown, c.countdownSeconds, true) else PhaseTick(After(c, finished, n - 1), finished(n), c)
  }

  // The phases come in order, none is skipped, and the match is over, back in the
  // lobby, after at most the ticks the three durations take.
  lemma {:induction false} MatchRunsItsCourse(c: Config, finished: nat -> bool, n: nat)
    requires c.dt > 0.0
    ensures var k := After(c, finished, n);
      && (k.active <==> k.phase != Lobby)
      && Rank(k.phase) <= Rank(After(c, finished, n + 1).phase) <= Rank(k.phase) + 1
      && TicksLeft(k, c) + (if k.active then n else 0)
           <= TicksFor(c.countdownSeconds, c) + TicksFor(c.raceSeconds, c) + TicksFor(c.resultsSeconds, c)
  {
    if n != 0 {
      MatchRunsItsCourse(c, finished, n - 1);
      var before := After(c, finished, n - 1);
      if before.active {
        TickCountsDown(before, finished(n), c);
      }
    }
  }

  lemma MatchEnds(c: Config, finished: nat -> bool)
    requires c.dt > 0.0
    ensures var bound := TicksFor(c.countdownSeconds, c) + TicksFor(c.raceSeconds, c) + TicksFor(c.resultsSeconds, c);
      After(c, finished, bound) == Clock(Lobby, 0.0, false)
  {
    var bound := TicksFor(c.countdownSeconds, c) + TicksFor(c.raceSeconds, c) + TicksFor(c.resultsSeconds, c);
    hide PhaseTick, After, TicksFor;
    MatchRunsItsCourse(c, finished, bound);
    ActiveHasTicksLeft(After(c, finished, bound), c);
    LobbyIsOver(c, finished, bound);
  }

  lemma ActiveHasTicksLeft(k: Clock, c: Config)
    requires c.dt > 0.0
    ensures k.active ==> TicksLeft(k, c) > 0
  {
  }

  lemma {:induction false} LobbyIsOver(c: Config, finished: nat -> bool, n: nat)
    requires c.dt > 0.0
    ensures After(c, finished, n).phase == Lobby ==> After(c, finished, n) == Clock(Lobby, 0.0, false)
  {
    if n != 0 {
      LobbyIsOver(c, finished, n - 1);
    }
  }

  // ---- how long each phase lasts ---------------------------------------------------

  // n ticks last for d seconds and fewer, but at least one, do not.
  lemma TicksForMeans(d: real, c: Config, n: nat)
    requires c.dt > 0.0
    ensures n == TicksFor(d, c) <==> n >= 1 && n as real * c.dt >= d && (n > 1 ==> (n - 1) as real * c.dt < d)
  {
    var q := d / c.dt;
    Lasts(n as real, d, c.dt);
    Lasts((n - 1) as real, d, c.dt);
    Lasts(1.0, d, c.dt);
    CeilingMeans(q, n);
    assert n == TicksFor(d, c) <==> n >= 1 && n as real >= q && (n > 1 ==> (n - 1) as real < q);
  }

  lemma CeilingMeans(q: real, n: int)
    ensures n == -((-q).Floor) <==> (n - 1) as real < q <= n as real
  {
  }

  lemma Lasts(n: real, d: real, dt: real)
    requires dt > 0.0
    ensures n * dt >= d <==> n >= d / dt
  {
    var q := d / dt;
    assert q * dt == d;
    Scaled(n, q, dt);
  }

  lemma Scaled(a: real, b: real, dt: real)
    requires dt > 0.0
    ensures a * dt >= b * dt <==> a >= b
  {
    if a >= b {
      assert (a - b) * dt >= 0.0;
    } else {
      assert (b - a) * dt > 0.0;
    }
  }

  // The race, green after tick from, is over r ticks later: decided then, or out of time.
  ghost predicate RaceLasts(finished: nat -> bool, from: nat, limit: nat, r: nat) {
    && 1 <= r <= limit && (r < limit ==> finished(from + r))
    && forall t: nat | from < t < from + r :: !finished(t)
  }

  lemma {:induction false} SomeRaceEnd(finished: nat -> bool, from: nat, limit: nat) returns (r: nat)
    requires limit >= 1
    ensures RaceLasts(finished, from, limit, r)
    decreases limit
  {
    if limit == 1 || finished(from + 1) {
      r := 1;
    } else {
      r := SomeRaceEnd(finished, from + 1, limit - 1);
      r := r + 1;
    }
  }

  // Which phase it is after n ticks, from how long each takes.
  function PhaseAt(countdown: nat, race: nat, results: nat, n: nat): MatchPhase {
    if n < countdown then Countdown
    else if n < countdown + race then Racing
    else if n < countdown + race + results then Results
    else Lobby
  }

  lemma LastTick(d: real, c: Config)
    requires c.dt > 0.0
    ensures TicksFor(d, c) == 1 <==> d <= c.dt
    ensures TicksFor(d, c) >= 1
  {
    if d > c.dt {
      OneTickLess(d, c);
      if d - c.dt > c.dt {
        QuotientBounds(d - c.dt, c.dt);
      }
    }
  }

  // The countdown lasts for its ticks, whatever the race does; the race until the first tick
  // on which it is decided or its time is up; the podium for its ticks; and then the match is
  // over. On the way the time left is the phase's, less a tick each.
  lemma {:induction false} PhasesLast(c: Config, finished: nat -> bool, r: nat, n: nat)
    requires c.dt > 0.0 && RaceLasts(finished, TicksFor(c.countdownSeconds, c), TicksFor(c.raceSeconds, c), r)
    ensures var countdown, results := TicksFor(c.countdownSeconds, c), TicksFor(c.resultsSeconds, c);
            var k := After(c, finished, n);
            && k.phase == PhaseAt(countdown, r, results, n) && (k.active <==> k.phase != Lobby)
            && (n < countdown ==> TicksFor(k.timer, c) == countdown - n)
            && (countdown <= n < countdown + r ==> TicksFor(k.timer, c) == TicksFor(c.raceSeconds, c) - (n - countdown))
            && (countdown + r <= n < countdown + r + results ==> TicksFor(k.timer, c) == results - (n - countdown - r))
  {
    hide TicksFor;
    LastTick(c.countdownSeconds, c);
    LastTick(c.resultsSeconds, c);
    if n != 0 {
      PhasesLast(c, finished, r, n - 1);
      var k, countdown := After(c, finished, n - 1), TicksFor(c.countdownSeconds, c);
      LastTick(k.timer, c);
      if k.timer > c.dt {
        OneTickLess(k.timer, c);
      }
    }
  }
}
