/** Accepted call sequences of the risk controller, and the breaker run they amount to. */
module RiskClockRuns {
  import opened Common
  import opened AdaptiveBreaker
  import opened BreakerRuns
  import opened ProductionRisk

  datatype Call = EvaluateCall(day: int, equity: real, regime: Regime) | FinishCall(day: int, equity: real)

  function Step(window: int, c: Clock, call: Call): Result<Clock, ClockError> {
    match call
    case EvaluateCall(day, equity, _) =>
      (match EvaluateGuard(c, day, equity) case Some(e) => Err(e) case None => Ok(Evaluated(c, day)))
    case FinishCall(day, equity) =>
      (match FinishGuard(c, day, equity) case Some(e) => Err(e) case None => Ok(Finished(window, c, day, equity)))
  }

  /** The clock after the first `k` calls, or the error that stopped it. */
  function ClockAt(window: int, initial: real, calls: seq<Call>, k: nat): Result<Clock, ClockError>
    requires k <= |calls|
  {
    if k == 0 then Ok(InitialClock(initial))
    else match ClockAt(window, initial, calls, k - 1)
      case Err(e) => Err(e)
      case Ok(c) => Step(window, c, calls[k - 1])
  }

  /** Call `j` has its place: evaluations and closes alternate, an evaluation opens a later day, a
      close ends the day just evaluated, and the equity is positive. */
  predicate Fits(calls: seq<Call>, j: nat)
    requires j < |calls|
  {
    calls[j].equity > 0.0 &&
    if j == 0 || calls[j - 1].FinishCall? then calls[j].EvaluateCall? && (j > 0 ==> calls[j].day > calls[j - 1].day)
    else calls[j].FinishCall? && calls[j].day == calls[j - 1].day
  }

  ghost predicate WellOrdered(calls: seq<Call>, k: nat)
    requires k <= |calls|
  {
    forall j :: 0 <= j < k ==> Fits(calls, j)
  }

  /** The closes recorded by the first `k` calls, oldest first, after the initial equity. */
  function History(initial: real, calls: seq<Call>, k: nat): (h: seq<real>)
    requires k <= |calls|
    ensures h != []
  {
    if k == 0 then [initial]
    else History(initial, calls, k - 1) + if calls[k - 1].FinishCall? then [calls[k - 1].equity] else []
  }

  lemma TrimAppend(window: int, s: seq<real>, x: real)
    ensures Trim(window, Trim(window, s) + [x]) == Trim(window, s + [x])
  {
  }

  /** What the clock knows after `k` accepted calls. */
  ghost predicate Remembers(window: int, initial: real, calls: seq<Call>, k: nat, c: Clock)
    requires k <= |calls|
  {
    var h := History(initial, calls, k);
    c.closes == Trim(window, h) && c.previousClose == h[|h| - 1] &&
    c.lastDay == (if k == 0 then None else Some(calls[k - 1].day)) &&
    (if k == 0 || calls[k - 1].FinishCall? then c.lastClosedDay == c.lastDay
     else c.lastClosedDay.Some? ==> c.lastClosedDay.value < calls[k - 1].day)
  }

  lemma EvaluationRemembers(window: int, initial: real, calls: seq<Call>, k: nat, c: Clock)
    requires k < |calls| && calls[k].EvaluateCall? && Remembers(window, initial, calls, k, c)
    ensures EvaluateGuard(c, calls[k].day, calls[k].equity).None? <==> Fits(calls, k)
    ensures Fits(calls, k) ==> Remembers(window, initial, calls, k + 1, Evaluated(c, calls[k].day))
  {
  }

  lemma CloseRemembers(window: int, initial: real, calls: seq<Call>, k: nat, c: Clock)
    requires k < |calls| && calls[k].FinishCall? && Remembers(window, initial, calls, k, c)
    ensures FinishGuard(c, calls[k].day, calls[k].equity).None? <==> Fits(calls, k)
    ensures Fits(calls, k) ==>
      Remembers(window, initial, calls, k + 1, Finished(window, c, calls[k].day, calls[k].equity))
  {
    TrimAppend(window, History(initial, calls, k), calls[k].equity);
  }

  lemma StepRemembers(window: int, initial: real, calls: seq<Call>, k: nat, c: Clock)
    requires k < |calls| && Remembers(window, initial, calls, k, c)
    ensures Step(window, c, calls[k]).Ok? <==> Fits(calls, k)
    ensures Step(window, c, calls[k]).Ok? ==>
      Remembers(window, initial, calls, k + 1, Step(window, c, calls[k]).value)
  {
    if calls[k].EvaluateCall? {
      EvaluationRemembers(window, initial, calls, k, c);
    } else {
      CloseRemembers(window, initial, calls, k, c);
    }
  }

  /** A call sequence is accepted in full exactly when it is well ordered; the deque then holds the
      last `window` closes and the previous close is the latest of them. */
  lemma {:induction false} AcceptedIffWellOrdered(window: int, initial: real, calls: seq<Call>, k: nat)
    requires k <= |calls|
    ensures ClockAt(window, initial, calls, k).Ok? <==> WellOrdered(calls, k)
    ensures ClockAt(window, initial, calls, k).Ok? ==>
      Remembers(window, initial, calls, k, ClockAt(window, initial, calls, k).value)
  {
    if k > 0 {
      AcceptedIffWellOrdered(window, initial, calls, k - 1);
      if ClockAt(window, initial, calls, k - 1).Ok? {
        StepRemembers(window, initial, calls, k - 1, ClockAt(window, initial, calls, k - 1).value);
      }
    }
  }

  lemma EvaluationRefusal(window: int, initial: real, calls: seq<Call>, k: nat, c: Clock)
    requires k < |calls| && calls[k].EvaluateCall? && Remembers(window, initial, calls, k, c)
    ensures EvaluateGuard(c, calls[k].day, calls[k].equity) ==
      if k > 0 && calls[k].day <= calls[k - 1].day then Some(ClockMustAdvance)
      else if k > 0 && calls[k - 1].EvaluateCall? then Some(PriorSessionOpen)
      else if calls[k].equity <= 0.0 then Some(InvalidEquity)
      else None
  {
  }

  lemma CloseRefusal(window: int, initial: real, calls: seq<Call>, k: nat, c: Clock)
    requires k < |calls| && calls[k].FinishCall? && Remembers(window, initial, calls, k, c)
    ensures FinishGuard(c, calls[k].day, calls[k].equity) ==
      if k == 0 || calls[k - 1].FinishCall? || calls[k].day != calls[k - 1].day then Some(CloseOrdering)
      else if calls[k].equity <= 0.0 then Some(InvalidEquity)
      else None
  {
  }

  /** Why a call is refused after `k` accepted ones: an evaluation that does not advance the day or finds the
      prior session open, a close that does not end the session just evaluated, an equity that is not
      positive; in that order. */
  lemma {:induction false} RefusalReason(window: int, initial: real, calls: seq<Call>, k: nat)
    requires k < |calls| && ClockAt(window, initial, calls, k).Ok?
    ensures var r, call := ClockAt(window, initial, calls, k + 1), calls[k];
      if call.EvaluateCall? && k > 0 && call.day <= calls[k - 1].day then r == Err(ClockMustAdvance)
      else if call.EvaluateCall? && k > 0 && calls[k - 1].EvaluateCall? then r == Err(PriorSessionOpen)
      else if call.FinishCall? && (k == 0 || calls[k - 1].FinishCall? || call.day != calls[k - 1].day) then
        r == Err(CloseOrdering)
      else if call.equity <= 0.0 then r == Err(InvalidEquity)
      else r.Ok?
  {
    AcceptedIffWellOrdered(window, initial, calls, k);
    var c := ClockAt(window, initial, calls, k).value;
    if calls[k].EvaluateCall? {
      EvaluationRefusal(window, initial, calls, k, c);
    } else {
      CloseRefusal(window, initial, calls, k, c);
    }
  }

  /** The reference peak of an evaluation is the largest of the window and of the equity itself. */
  lemma ReferencePeakIsMaximum(window: int, initial: real, calls: seq<Call>, k: nat)
    requires k < |calls| && calls[k].EvaluateCall? && ClockAt(window, initial, calls, k + 1).Ok?
    ensures ClockAt(window, initial, calls, k).Ok?
    ensures var h := Trim(window, History(initial, calls, k));
      var peak := ReferencePeak(ClockAt(window, initial, calls, k).value, calls[k].equity);
      h != [] && peak >= calls[k].equity > 0.0 && (forall i :: 0 <= i < |h| ==> h[i] <= peak) &&
      (peak == calls[k].equity || peak in h)
  {
    AcceptedIffWellOrdered(window, initial, calls, k);
    var c := ClockAt(window, initial, calls, k).value;
    var s := c.closes + [calls[k].equity];
    assert s[|s| - 1] == calls[k].equity;
    forall i | 0 <= i < |c.closes|
      ensures c.closes[i] <= MaxOf(s)
    {
      assert s[i] in s;
    }
  }

  // ---------- the ticks the breaker receives ----------

  /** The tick call `k` hands to the breaker; a close and a refused call hand over none. */
  function HandedOver(window: int, initial: real, calls: seq<Call>, k: nat): Option<Tick>
    requires k < |calls|
  {
    var before := ClockAt(window, initial, calls, k);
    if before.Ok? && calls[k].EvaluateCall? && Step(window, before.value, calls[k]).Ok?
    then Some(Tick(calls[k].equity, ReferencePeak(before.value, calls[k].equity), calls[k].regime))
    else None
  }

  /** The ticks of the first `k` calls, in order. */
  function Ticks(window: int, initial: real, calls: seq<Call>, k: nat): seq<Tick>
    requires k <= |calls|
  {
    if k == 0 then []
    else
      var before := Ticks(window, initial, calls, k - 1);
      match HandedOver(window, initial, calls, k - 1) case Some(t) => before + [t] case None => before
  }

  /** Every tick of an accepted call sequence satisfies what the run theorems of the breaker ask of
      the market data: a positive equity not above its peak. */
  lemma {:induction false} BreakerSeesObservedTicks(window: int, initial: real, calls: seq<Call>, k: nat)
    requires k <= |calls| && ClockAt(window, initial, calls, k).Ok?
    ensures forall j :: 0 <= j < |Ticks(window, initial, calls, k)| ==> Observed(Ticks(window, initial, calls, k)[j])
  {
    if k > 0 {
      BreakerSeesObservedTicks(window, initial, calls, k - 1);
      if calls[k - 1].EvaluateCall? {
        ReferencePeakIsMaximum(window, initial, calls, k - 1);
      }
    }
  }

  lemma {:induction false} RunOfPrefix(p: Params, ts: seq<Tick>, more: seq<Tick>, k: nat)
    requires k <= |ts|
    ensures At(p, ts + more, k) == At(p, ts, k)
  {
    if k > 0 {
      RunOfPrefix(p, ts, more, k - 1);
    }
  }

  lemma RunOfAppended(p: Params, ts: seq<Tick>, t: Tick)
    ensures At(p, ts + [t], |ts| + 1) == Session(p, At(p, ts, |ts|), t)
  {
    RunOfPrefix(p, ts, [t], |ts|);
  }

  /** A clock and an episode are those of the first `n` calls, all accepted: the episode is the breaker run
      of exactly the ticks of the evaluations among them. */
  ghost predicate Follows(p: Params, window: int, initial: real, calls: seq<Call>, n: nat, c: Clock, e: Episode)
    requires n <= |calls|
  {
    ClockAt(window, initial, calls, n) == Ok(c) &&
    var ts := Ticks(window, initial, calls, n); e == At(p, ts, |ts|)
  }

  /** What one accepted call makes of the episode. */
  function EpisodeAfter(p: Params, c: Clock, e: Episode, call: Call): Episode {
    match call
    case EvaluateCall(_, equity, regime) => Session(p, e, Tick(equity, ReferencePeak(c, equity), regime))
    case FinishCall(_, _) => e
  }

  lemma TicksNext(window: int, initial: real, calls: seq<Call>, n: nat, c: Clock)
    requires n < |calls| && ClockAt(window, initial, calls, n) == Ok(c) && Step(window, c, calls[n]).Ok?
    ensures ClockAt(window, initial, calls, n + 1) == Step(window, c, calls[n])
    ensures Ticks(window, initial, calls, n + 1) == Ticks(window, initial, calls, n) +
      match calls[n]
      case EvaluateCall(_, equity, regime) => [Tick(equity, ReferencePeak(c, equity), regime)]
      case FinishCall(_, _) => []
  {
  }

  lemma {:induction false} StepFollows(p: Params, window: int, initial: real, calls: seq<Call>, n: nat, c: Clock,
                                       e: Episode)
    requires n < |calls| && Follows(p, window, initial, calls, n, c, e) && Step(window, c, calls[n]).Ok?
    ensures Follows(p, window, initial, calls, n + 1, Step(window, c, calls[n]).value, EpisodeAfter(p, c, e, calls[n]))
  {
    var ts := Ticks(window, initial, calls, n);
    TicksNext(window, initial, calls, n, c);
    match calls[n]
    case EvaluateCall(_, equity, regime) => RunOfAppended(p, ts, Tick(equity, ReferencePeak(c, equity), regime));
    case FinishCall(_, _) =>
  }

  /** One call on the controller: accepted exactly when the clock accepts it, and otherwise without effect. */
  method Take(c: ProductionRiskController, call: Call) returns (ok: bool)
    requires c.Valid()
    modifies c, c.breaker, c.breaker.episode
    ensures c.Valid() && ok == Step(c.window, old(c.ClockState()), call).Ok?
    ensures ok ==> c.ClockState() == Step(c.window, old(c.ClockState()), call).value
    ensures ok ==>
      c.breaker.episode.State() ==
      EpisodeAfter(c.breaker.params, old(c.ClockState()), old(c.breaker.episode.State()), call)
    ensures !ok ==>
      c.ClockState() == old(c.ClockState()) && c.breaker.episode.State() == old(c.breaker.episode.State())
  {
    match call {
      case EvaluateCall(day, equity, regime) =>
        var r := c.Evaluate(day, equity, regime);
        ok := r.Ok?;
      case FinishCall(day, equity) =>
        var r := c.Finish(day, equity);
        ok := r.Ok?;
    }
  }

  /** A fresh controller taken through the calls, up to the first one it refuses: it follows exactly the
      calls before, so every run theorem of the breaker applies to it. */
  method RunController(p: Params, maxDailyLoss: real, window: int, initial: real, calls: seq<Call>)
    returns (c: ProductionRiskController, n: nat)
    requires p.policy != B0
    ensures c.Valid() && c.window == window && c.breaker.params == p && n <= |calls|
    ensures Follows(p, window, initial, calls, n, c.ClockState(), c.breaker.episode.State())
    ensures n < |calls| ==> ClockAt(window, initial, calls, n + 1).Err?
  {
    c := new ProductionRiskController(p, maxDailyLoss, window, initial);
    n := 0;
    while n < |calls|
      invariant n <= |calls| && fresh(c) && fresh(c.breaker) && fresh(c.breaker.episode)
      invariant c.Valid() && c.window == window && c.breaker.params == p
      invariant Follows(p, window, initial, calls, n, c.ClockState(), c.breaker.episode.State())
    {
      ghost var clock, episode := c.ClockState(), c.breaker.episode.State();
      var ok := Take(c, calls[n]);
      if !ok {
        return;
      }
      StepFollows(p, window, initial, calls, n, clock, episode);
      n := n + 1;
    }
  }

  /** The ticks of a prefix that was accepted are those of an accepted sequence, so they satisfy what the
      run theorems ask; after a refusal no further tick is handed over. */
  lemma {:induction false} RefusalEndsTheRun(window: int, initial: real, calls: seq<Call>, n: nat, k: nat)
    requires n < k <= |calls| && ClockAt(window, initial, calls, n + 1).Err?
    ensures ClockAt(window, initial, calls, k).Err?
    ensures Ticks(window, initial, calls, k) == Ticks(window, initial, calls, n)
    decreases k
  {
    if k > n + 1 {
      RefusalEndsTheRun(window, initial, calls, n, k - 1);
    }
  }
}
