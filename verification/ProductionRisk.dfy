/** The daily risk controller: a session clock and a rolling peak around the breaker. */
module ProductionRisk {
  import opened Common
  import opened AdaptiveBreaker
  import opened BreakerRuns

  // ---------- the clock as a value ----------

  datatype ClockError = ClockMustAdvance | PriorSessionOpen | InvalidEquity | CloseOrdering

  datatype Clock = Clock(closes: seq<real>, previousClose: real, lastDay: Option<int>, lastClosedDay: Option<int>)

  function InitialClock(initial: real): Clock {
    Clock([initial], initial, None, None)
  }

  /** A bounded deque: a non-positive window keeps everything. */
  function Trim(window: int, s: seq<real>): seq<real> {
    if 0 < window < |s| then s[|s| - window..] else s
  }

  /** What is retained: everything up to `window` values, then exactly the last `window`. */
  lemma TrimKeepsLast(window: int, s: seq<real>)
    ensures var r := Trim(window, s);
      |r| == (if window <= 0 || |s| <= window then |s| else window) && r == s[|s| - |r|..]
  {
  }

  function MaxOf(s: seq<real>): (m: real)
    requires s != []
    ensures m in s && forall x :: x in s ==> x <= m
  {
    if |s| == 1 then s[0]
    else
      assert s == s[..|s| - 1] + [s[|s| - 1]];
      Max(MaxOf(s[..|s| - 1]), s[|s| - 1])
  }

  /** The largest of the retained closes and of the equity being evaluated. */
  function ReferencePeak(c: Clock, equity: real): real {
    MaxOf(c.closes + [equity])
  }

  function EvaluateGuard(c: Clock, day: int, equity: real): Option<ClockError> {
    if c.lastDay.Some? && day <= c.lastDay.value then Some(ClockMustAdvance)
    else if c.lastDay.Some? && c.lastClosedDay != c.lastDay then Some(PriorSessionOpen)
    else if equity <= 0.0 then Some(InvalidEquity)
    else None
  }

  function FinishGuard(c: Clock, day: int, equity: real): Option<ClockError> {
    if c.lastDay != Some(day) || c.lastClosedDay == Some(day) then Some(CloseOrdering)
    else if equity <= 0.0 then Some(InvalidEquity)
    else None
  }

  function Evaluated(c: Clock, day: int): Clock {
    c.(lastDay := Some(day))
  }

  function Finished(window: int, c: Clock, day: int, equity: real): Clock {
    Clock(Trim(window, c.closes + [equity]), equity, c.lastDay, Some(day))
  }

  /** The reported drawdown: never negative, and a percentage of the reference peak. */
  function DrawdownPct(equity: real, peak: real): (pct: real)
    requires 0.0 < equity <= peak
    ensures 0.0 <= pct && pct * peak == 100.0 * (peak - equity)
  {
    DivTimes(equity, peak);
    DivMono(equity, peak, peak);
    assert peak / peak == 1.0;
    100.0 * (1.0 - equity / peak)
  }

  /** The daily-loss status: it is reported, and never halts an adaptive policy. */
  predicate DailyLoss(previousClose: real, equity: real, maxDailyLoss: real)
    requires equity > 0.0
  {
    Abs(Min(equity - previousClose, 0.0)) / equity >= maxDailyLoss
  }

  lemma DailyLossIff(previousClose: real, equity: real, maxDailyLoss: real)
    requires equity > 0.0
    ensures DailyLoss(previousClose, equity, maxDailyLoss) <==>
      Max(previousClose - equity, 0.0) >= maxDailyLoss * equity
  {
    LossAgainstFraction(Abs(Min(equity - previousClose, 0.0)), equity, maxDailyLoss);
  }

  // ---------- the controller ----------

  datatype Report = Report(
    day: int,
    equityBefore: real,
    referencePeak: real,
    drawdownPct: real,
    previousClose: real,
    dailyPnl: real,
    dailyLoss: bool,
    active: bool,
    justTripped: bool,
    allocationScale: real,
    regime: Regime,
    episodeBefore: Episode,
    episodeAfter: Episode)

  class ProductionRiskController {
    const window: int
    const maxDailyLoss: real
    const breaker: CircuitBreaker
    var closes: seq<real>
    var previousClose: real
    var lastDay: Option<int>
    var lastClosedDay: Option<int>

    constructor (p: Params, maxDailyLoss: real, window: int, initialEquity: real)
      requires p.policy != B0
      ensures Valid() && fresh(breaker) && fresh(breaker.episode)
      ensures this.window == window && this.maxDailyLoss == maxDailyLoss && breaker.params == p
      ensures ClockState() == InitialClock(initialEquity) && breaker.episode.State() == FRESH
    {
      this.window, this.maxDailyLoss := window, maxDailyLoss;
      breaker := new CircuitBreaker(p);
      closes, previousClose, lastDay, lastClosedDay := [initialEquity], initialEquity, None, None;
    }

    ghost predicate Valid()
      reads this, breaker, breaker.episode
    {
      breaker.Valid() && breaker.params.policy != B0 && closes != []
    }

    function ClockState(): Clock
      reads this
    {
      Clock(closes, previousClose, lastDay, lastClosedDay)
    }

    method DriveBreaker(equity: real, peak: real, regime: Regime) returns (trip: bool, scale: real)
      requires Valid()
      modifies breaker, breaker.episode
      ensures Valid()
      ensures breaker.episode.State() ==
        Session(breaker.params, old(breaker.episode.State()), Tick(equity, peak, regime))
      ensures trip == (!old(breaker.episode.tripped) && breaker.episode.tripped)
      ensures scale == AllocationScale(breaker.episode.State())
    {
      breaker.SetRegime(regime);
      var _ := breaker.Update(equity, peak);
      trip := breaker.JustTripped();
      breaker.UpdateRegimeStreak();
      scale := breaker.Scale();
    }

    /** One risk evaluation per session, at the open; a refused call changes nothing. */
    method Evaluate(day: int, equity: real, regime: Regime) returns (r: Result<Report, ClockError>)
      requires Valid()
      modifies this`lastDay, breaker, breaker.episode
      ensures Valid()
      ensures match EvaluateGuard(old(ClockState()), day, equity) case Some(e) => r == Err(e) case None => r.Ok?
      ensures r.Err? ==> ClockState() == old(ClockState()) && breaker.episode.State() == old(breaker.episode.State())
      ensures r.Ok? ==> ClockState() == Evaluated(old(ClockState()), day)
      ensures r.Ok? ==>
        breaker.episode.State() ==
        Session(breaker.params, old(breaker.episode.State()), Tick(equity, r.value.referencePeak, regime))
      ensures r.Ok? ==>
        r.value.referencePeak == ReferencePeak(ClockState(), equity) && 0.0 < equity <= r.value.referencePeak
      ensures r.Ok? ==> r.value.drawdownPct == DrawdownPct(equity, r.value.referencePeak)
      ensures r.Ok? ==>
        r.value.day == day && r.value.equityBefore == equity && r.value.regime == regime &&
        r.value.previousClose == previousClose && r.value.dailyPnl == equity - previousClose &&
        r.value.dailyLoss == DailyLoss(previousClose, equity, maxDailyLoss) && !r.value.active
      ensures r.Ok? ==>
        r.value.episodeBefore == old(breaker.episode.State()) && r.value.episodeAfter == breaker.episode.State() &&
        r.value.justTripped == (!r.value.episodeBefore.tripped && r.value.episodeAfter.tripped) &&
        r.value.allocationScale == AllocationScale(r.value.episodeAfter)
    {
      if lastDay.Some? && day <= lastDay.value {
        return Err(ClockMustAdvance);
      }
      if lastDay.Some? && lastClosedDay != lastDay {
        return Err(PriorSessionOpen);
      }
      if equity <= 0.0 {
        return Err(InvalidEquity);
      }
      var peak := Max(MaxOf(closes), equity);
      MaxWithLast(closes, equity);
      var before := breaker.episode.State();
      var trip, scale := DriveBreaker(equity, peak, regime);
      lastDay := Some(day);
      r := Ok(Report(day, equity, peak, DrawdownPct(equity, peak), previousClose, equity - previousClose,
                     DailyLoss(previousClose, equity, maxDailyLoss), breaker.IsActive(), trip, scale, regime, before,
                     breaker.episode.State()));
    }

    /** The daily close: the only call that feeds the rolling window. */
    method Finish(day: int, equity: real) returns (r: Result<(), ClockError>)
      requires Valid()
      modifies this
      ensures Valid() && breaker.episode.State() == old(breaker.episode.State())
      ensures match FinishGuard(old(ClockState()), day, equity)
        case Some(e) => r == Err(e) && ClockState() == old(ClockState())
        case None => r.Ok? && ClockState() == Finished(window, old(ClockState()), day, equity)
    {
      if lastDay != Some(day) || lastClosedDay == Some(day) {
        return Err(CloseOrdering);
      }
      if equity <= 0.0 {
        return Err(InvalidEquity);
      }
      closes := Trim(window, closes + [equity]);
      previousClose := equity;
      lastClosedDay := Some(day);
      r := Ok(());
    }
  }

  lemma MaxWithLast(s: seq<real>, x: real)
    requires s != []
    ensures MaxOf(s + [x]) == Max(MaxOf(s), x)
  {
    assert (s + [x])[..|s|] == s;
  }
}
