/** The adaptive drawdown breaker: one episode (peak, trough, recovery) and its six policies.

    `Episode` is the value of a `BreakerEpisode` object at one instant. The functions below say what
    each operation turns that value into; the class at the end updates its fields in place and is
    proved against them. Money and fractions are reals. */
module AdaptiveBreaker {
  import opened Common

  const HYSTERESIS_FAVORABLE_DAYS: int := 3
  const B4_FLOOR: real := 0.10
  const B4_RR_25: real := 0.25
  const B4_RR_50: real := 0.50
  const RELAPSE_DD_PTS: real := 0.03
  const B4_BULL_STREAK_ALLOC: real := 0.50
  const B4A_BULL_STREAK_ALLOC: real := 0.75
  const B4_MONEY_ABS_TOL_USD: real := 0.000001

  datatype Policy = B0 | B1 | B2 | B3 | B4 | B4a

  /** Daily SPY regime; `Unclassified` is a missing or unrecognised one. */
  datatype Regime = Bull | Rebound | Correction | Slide | Unclassified

  datatype Params = Params(policy: Policy, maxDd: real, recoveryPct: real, degraded: real, rampMax: real)

  datatype Episode = Episode(
    peak: real,
    trough: real,
    allocation: real,
    streak: int,
    tripped: bool,
    rearmStartDd: Option<real>,
    relapseDay: bool)

  const FRESH: Episode := Episode(0.0, 0.0, 1.0, 0, false, None, false)

  predicate IsB4(policy: Policy) {
    policy == B4 || policy == B4a
  }

  predicate IsFavorable(regime: Regime) {
    regime == Bull || regime == Rebound
  }

  // ---------- money comparisons of B4/B4a ----------

  predicate MoneyGe(amount: real, threshold: real) {
    amount >= threshold || threshold - amount <= B4_MONEY_ABS_TOL_USD
  }

  predicate MoneyLe(amount: real, threshold: real) {
    amount <= threshold || amount - threshold <= B4_MONEY_ABS_TOL_USD
  }

  predicate NewTrough(equity: real, trough: real) {
    trough - equity > B4_MONEY_ABS_TOL_USD
  }

  predicate RecoveredFraction(e: Episode, equity: real, fraction: real) {
    var span := e.peak - e.trough;
    span <= 0.0 || MoneyGe(equity, e.trough + fraction * span)
  }

  function RecoveryRatio(e: Episode, equity: real): real {
    var span := e.peak - e.trough;
    if span <= 0.0 then 1.0 else Max(0.0, Min(1.0, (equity - e.trough) / span))
  }

  /** Drawdown against the frozen peak of the episode. */
  function DdPct(e: Episode, equity: real): real {
    if e.peak <= 0.0 then 0.0 else Max(0.0, (e.peak - equity) / e.peak)
  }

  // ---------- allocation policies ----------

  function B0Allocation(p: Params, e: Episode, favorable: bool): real {
    if favorable && e.streak > 0 then Min(p.rampMax, p.degraded + e.streak as real * 0.025) else p.degraded
  }

  /** Recovery tiers: (threshold of the recovery ratio, allocation), by increasing threshold. */
  const B1_TIERS: seq<(real, real)> := [(0.0, 0.10), (0.25, 0.25), (0.50, 0.50), (0.75, 0.75), (0.90, 1.00)]
  const B3_FAVORABLE: seq<(real, real)> := [(0.0, 0.25), (0.25, 0.50), (0.50, 0.75), (0.75, 1.00), (0.90, 1.00)]
  const B3_DEFENSIVE: seq<(real, real)> := [(0.0, 0.10), (0.25, 0.25), (0.50, 0.50), (0.75, 0.75), (0.90, 1.00)]

  /** The level of the last of the first `n` tiers whose threshold is reached. */
  function LastReached(rr: real, tiers: seq<(real, real)>, n: nat): real
    requires 0 < |tiers| && n <= |tiers|
  {
    if n == 0 then tiers[0].1
    else if rr >= tiers[n - 1].0 then tiers[n - 1].1
    else LastReached(rr, tiers, n - 1)
  }

  function B1Allocation(e: Episode, equity: real): real {
    LastReached(RecoveryRatio(e, equity), B1_TIERS, |B1_TIERS|)
  }

  function B2Allocation(e: Episode, equity: real, favorable: bool): real {
    var base := if favorable then 0.25 else 0.10;
    if RecoveryRatio(e, equity) <= 0.0 then base
    else Min(1.0, base + (if e.streak > 0 then e.streak else 0) as real * base)
  }

  function B3Allocation(e: Episode, equity: real, favorable: bool): real {
    var tiers := if favorable then B3_FAVORABLE else B3_DEFENSIVE;
    LastReached(RecoveryRatio(e, equity), tiers, |tiers|)
  }

  /** The ceiling the regime and the recovery allow, before any relapse is considered. */
  function B4Cap(e: Episode, equity: real, regime: Regime, bullStreakLevel: real): real {
    var byStreak :=
      if e.streak < HYSTERESIS_FAVORABLE_DAYS then B4_FLOOR
      else if regime == Rebound then 0.25 else if regime == Bull then bullStreakLevel else B4_FLOOR;
    var byRecovery :=
      if regime == Rebound && RecoveredFraction(e, equity, B4_RR_25) then 0.50
      else if regime == Bull && RecoveredFraction(e, equity, B4_RR_50) then 1.00
      else if regime == Bull && RecoveredFraction(e, equity, B4_RR_25) then 0.75
      else B4_FLOOR;
    Max(byStreak, byRecovery)
  }

  /** B4 and B4a: the returned fraction, and the episode with its re-arm memory updated. */
  function B4Allocation(e: Episode, equity: real, regime: Regime, bullStreakLevel: real): (Episode, real) {
    if e.relapseDay then
      (e.(relapseDay := false, rearmStartDd := None), B4_FLOOR)
    else
      var cap := B4Cap(e, equity, regime, bullStreakLevel);
      var memory :=
        if cap > B4_FLOOR && e.rearmStartDd.None? then Some(DdPct(e, equity))
        else if cap <= B4_FLOOR then None else e.rearmStartDd;
      (e.(rearmStartDd := memory), cap)
  }

  function Allocate(p: Params, e: Episode, equity: real, regime: Regime): (Episode, real) {
    match p.policy
    case B0 => (e, B0Allocation(p, e, IsFavorable(regime)))
    case B1 => (e, B1Allocation(e, equity))
    case B2 => (e, B2Allocation(e, equity, IsFavorable(regime)))
    case B3 => (e, B3Allocation(e, equity, IsFavorable(regime)))
    case B4 => B4Allocation(e, equity, regime, B4_BULL_STREAK_ALLOC)
    case B4a => B4Allocation(e, equity, regime, B4A_BULL_STREAK_ALLOC)
  }

  // ---------- trip, trough, relapse, closure ----------

  /** The equity at which the drawdown is three points worse than when the re-arming started. */
  function RelapseBoundary(peak: real, rearmStart: real): real {
    peak * (1.0 - rearmStart - RELAPSE_DD_PTS)
  }

  /** Does the equity relapse against a re-arming that is under way? */
  predicate RelapseSeen(e: Episode, equity: real, previousTrough: real) {
    e.rearmStartDd.Some? &&
    (NewTrough(equity, previousTrough) ||
     (e.peak > 0.0 && MoneyLe(equity, RelapseBoundary(e.peak, e.rearmStartDd.value))))
  }

  function CheckRelapse(e: Episode, equity: real, previousTrough: real): Episode {
    if RelapseSeen(e, equity, previousTrough)
    then e.(allocation := B4_FLOOR, streak := 0, rearmStartDd := None, relapseDay := true)
    else e
  }

  predicate Trips(p: Params, equity: real, peakEquity: real) {
    if IsB4(p.policy) then peakEquity > 0.0 && MoneyLe(equity, peakEquity * (1.0 - p.maxDd))
    else (if peakEquity > 0.0 then (peakEquity - equity) / peakEquity else 0.0) >= p.maxDd
  }

  function TrackTrough(p: Params, e: Episode, equity: real): Episode {
    if (if IsB4(p.policy) then NewTrough(equity, e.trough) else equity < e.trough)
    then e.(trough := equity) else e
  }

  /** Is the episode over, once the trough and the relapse of the session are known? */
  predicate Recovered(p: Params, e: Episode, equity: real) {
    match p.policy
    case B4 => RecoveredFraction(e, equity, 0.90) && e.allocation >= 0.999
    case B4a => RecoveredFraction(e, equity, 0.90) && e.allocation >= 0.999
    case B1 => RecoveryRatio(e, equity) >= 0.90 && e.allocation >= 0.999
    case B3 => RecoveryRatio(e, equity) >= 0.90 && e.allocation >= 0.999
    case B0 => equity >= e.peak * p.recoveryPct
    case B2 => equity >= e.peak * p.recoveryPct
  }

  function Close(p: Params, e: Episode): Episode {
    var e1 := e.(tripped := false, allocation := 1.0, streak := 0);
    if p.policy == B0 || p.policy == B2 then e1 else e1.(rearmStartDd := None, relapseDay := false)
  }

  function TripOrRecover(p: Params, e: Episode, equity: real, peakEquity: real): Episode {
    if !e.tripped then
      if Trips(p, equity, peakEquity)
      then e.(tripped := true, peak := peakEquity, trough := Min(peakEquity, equity)) else e
    else
      var e1 := TrackTrough(p, e, equity);
      var e2 := if IsB4(p.policy) then CheckRelapse(e1, equity, e.trough) else e1;
      if Recovered(p, e2, equity) then Close(p, e2) else e2
  }

  function UpdateStreak(e: Episode, favorable: bool): Episode {
    if !favorable then e.(streak := 0)
    else e.(streak := if e.streak + 1 <= HYSTERESIS_FAVORABLE_DAYS then e.streak + 1 else HYSTERESIS_FAVORABLE_DAYS)
  }

  // ---------- one session of the production breaker ----------

  datatype Tick = Tick(equity: real, peak: real, regime: Regime)

  /** `update_adaptive`: trip or recover, then store the allocation of the day, tripped or not. */
  function UpdateAdaptive(p: Params, e: Episode, t: Tick): Episode {
    var (e1, allocation) := Allocate(p, TripOrRecover(p, e, t.equity, t.peak), t.equity, t.regime);
    e1.(allocation := allocation)
  }

  /** `update_adaptive` followed by `update_regime_streak`, as the daily risk session calls them. */
  function Session(p: Params, e: Episode, t: Tick): Episode {
    var e1 := UpdateAdaptive(p, e, t);
    if p.policy != B0 && e1.tripped then UpdateStreak(e1, IsFavorable(t.regime)) else e1
  }

  /** The entry scale the breaker reports after a session (adaptive policies). */
  function AllocationScale(e: Episode): real {
    if e.tripped then e.allocation else 1.0
  }

  // ---------- the comparisons in dollars ----------

  /** One microdollar is forgiven on either side, and no more. */
  lemma OneMicrodollar(amount: real, threshold: real)
    ensures MoneyGe(amount, threshold) <==> amount >= threshold - 0.000001
    ensures MoneyLe(amount, threshold) <==> amount <= threshold + 0.000001
    ensures NewTrough(amount, threshold) <==> amount < threshold - 0.000001
  {
  }

  /** A quarter, half or nine tenths of the loss is back when the equity is that far above the trough, to one
      microdollar. */
  lemma RecoveredShares(e: Episode, equity: real)
    ensures RecoveredFraction(e, equity, 0.25) <==>
      e.peak <= e.trough || equity >= e.trough + 0.25 * (e.peak - e.trough) - 0.000001
    ensures RecoveredFraction(e, equity, 0.50) <==>
      e.peak <= e.trough || equity >= e.trough + 0.50 * (e.peak - e.trough) - 0.000001
    ensures RecoveredFraction(e, equity, 0.90) <==>
      e.peak <= e.trough || equity >= e.trough + 0.90 * (e.peak - e.trough) - 0.000001
  {
  }

  /** A part over its whole: a share of it, between none and all when the part is. */
  lemma ShareOfWhole(part: real, whole: real)
    requires whole > 0.0
    ensures part / whole * whole == part
    ensures part <= 0.0 ==> part / whole <= 0.0
    ensures part >= 0.0 ==> part / whole >= 0.0
    ensures part >= whole ==> part / whole >= 1.0
    ensures part <= whole ==> part / whole <= 1.0
  {
    var x := part / whole;
    DivTimes(part, whole);
    if x > 0.0 {
      assert x * whole > 0.0;
    } else if x < 0.0 {
      assert -x * whole > 0.0;
    }
    if x < 1.0 {
      assert (1.0 - x) * whole > 0.0;
    } else if x > 1.0 {
      assert (x - 1.0) * whole > 0.0;
    }
  }

  /** The recovery ratio is the recovered share of the loss, between none and all of it. */
  lemma RatioIsShare(e: Episode, equity: real)
    ensures var loss, ratio := e.peak - e.trough, RecoveryRatio(e, equity);
      if loss <= 0.0 || equity >= e.peak then ratio == 1.0
      else if equity <= e.trough then ratio == 0.0
      else ratio * loss == equity - e.trough
  {
    var loss := e.peak - e.trough;
    if loss > 0.0 {
      ShareOfWhole(equity - e.trough, loss);
    }
  }

  /** A re-armed episode relapses on an equity a microdollar under its trough, or within one of the line
      three points below where the re-arming started; an episode that is not re-armed never does. */
  lemma RelapseIff(e: Episode, equity: real, previousTrough: real)
    ensures RelapseSeen(e, equity, previousTrough) <==>
      e.rearmStartDd.Some? &&
      (equity < previousTrough - 0.000001 ||
       (e.peak > 0.0 && equity <= e.peak * (1.0 - e.rearmStartDd.value - 0.03) + 0.000001))
  {
    OneMicrodollar(equity, previousTrough);
    if e.rearmStartDd.Some? {
      OneMicrodollar(equity, RelapseBoundary(e.peak, e.rearmStartDd.value));
    }
  }

  // ---------- recovery tiers ----------

  method TiersFromRatio(rr: real, tiers: seq<(real, real)>) returns (alloc: real)
    requires 0 < |tiers|
    ensures alloc == LastReached(rr, tiers, |tiers|)
  {
    alloc := tiers[0].1;
    for i := 0 to |tiers|
      invariant alloc == LastReached(rr, tiers, i)
    {
      if rr >= tiers[i].0 {
        alloc := tiers[i].1;
      }
    }
  }

  ghost predicate Increasing(tiers: seq<(real, real)>) {
    forall i, j :: 0 <= i < j < |tiers| ==> tiers[i].0 < tiers[j].0 && tiers[i].1 <= tiers[j].1
  }

  /** The selected tier is the one whose threshold interval holds the ratio. */
  lemma {:induction false} TierHoldsRatio(rr: real, tiers: seq<(real, real)>, n: nat, i: nat)
    requires Increasing(tiers) && i < n <= |tiers|
    requires tiers[i].0 <= rr && (i + 1 < n ==> rr < tiers[i + 1].0)
    ensures LastReached(rr, tiers, n) == tiers[i].1
  {
    if i + 1 < n {
      assert rr < tiers[n - 1].0 by {
        if i + 1 < n - 1 {
          assert tiers[i + 1].0 < tiers[n - 1].0;
        }
      }
      TierHoldsRatio(rr, tiers, n - 1, i);
    }
  }

  lemma {:induction false} TiersGrowWithRatio(low: real, high: real, tiers: seq<(real, real)>, n: nat)
    requires Increasing(tiers) && 0 < |tiers| && n <= |tiers| && low <= high
    ensures LastReached(low, tiers, n) <= LastReached(high, tiers, n)
    ensures n > 0 ==> LastReached(high, tiers, n) <= tiers[n - 1].1
  {
    if n > 0 {
      TiersGrowWithRatio(low, high, tiers, n - 1);
    }
  }

  /** B1 and B3 never allocate less for more equity, favourable B3 is never below defensive B3, and
      defensive B3 is exactly B1. */
  lemma RecoveryLadders(e: Episode, low: real, high: real)
    requires low <= high
    ensures B1Allocation(e, low) <= B1Allocation(e, high)
    ensures B3Allocation(e, low, true) <= B3Allocation(e, high, true)
    ensures B3Allocation(e, low, false) == B1Allocation(e, low) <= B3Allocation(e, low, true)
    ensures B1Allocation(e, high) == 1.00 <==> RecoveryRatio(e, high) >= 0.90
    ensures B3Allocation(e, high, true) == 1.00 <==> RecoveryRatio(e, high) >= 0.75
  {
    RatioGrowsWithEquity(e, low, high);
    TiersGrowWithRatio(RecoveryRatio(e, low), RecoveryRatio(e, high), B1_TIERS, 5);
    TiersGrowWithRatio(RecoveryRatio(e, low), RecoveryRatio(e, high), B3_FAVORABLE, 5);
    FavorableTiersAbove(RecoveryRatio(e, low), 5);
    FullTier(RecoveryRatio(e, high));
  }

  /** The tiers of B1 and of defensive and favourable B3, by recovery ratio. */
  lemma RecoveryTable(e: Episode, equity: real)
    ensures var rr := RecoveryRatio(e, equity);
      B1Allocation(e, equity) ==
      if rr >= 0.90 then 1.00 else if rr >= 0.75 then 0.75 else if rr >= 0.50 then 0.50
      else if rr >= 0.25 then 0.25 else 0.10
    ensures B3Allocation(e, equity, false) == B1Allocation(e, equity)
    ensures var rr := RecoveryRatio(e, equity);
      B3Allocation(e, equity, true) ==
      if rr >= 0.75 then 1.00 else if rr >= 0.50 then 0.75 else if rr >= 0.25 then 0.50 else 0.25
  {
    var rr := RecoveryRatio(e, equity);
    FavorableTiersAbove(rr, 5);
    var i := if rr >= 0.90 then 4 else if rr >= 0.75 then 3 else if rr >= 0.50 then 2 else if rr >= 0.25 then 1 else 0;
    TierHoldsRatio(rr, B1_TIERS, 5, i);
    TierHoldsRatio(rr, B3_FAVORABLE, 5, i);
  }

  lemma {:induction false} FavorableTiersAbove(rr: real, n: nat)
    requires n <= 5
    ensures LastReached(rr, B3_DEFENSIVE, n) == LastReached(rr, B1_TIERS, n) <= LastReached(rr, B3_FAVORABLE, n)
  {
    if n > 0 {
      FavorableTiersAbove(rr, n - 1);
    }
  }

  lemma FullTier(rr: real)
    requires 0.0 <= rr
    ensures if rr >= 0.90 then LastReached(rr, B1_TIERS, 5) == 1.00 else LastReached(rr, B1_TIERS, 5) <= 0.75
    ensures if rr >= 0.75 then LastReached(rr, B3_FAVORABLE, 5) == 1.00 else LastReached(rr, B3_FAVORABLE, 5) <= 0.75
  {
    TiersGrowWithRatio(rr, rr, B1_TIERS, 4);
    TiersGrowWithRatio(rr, rr, B3_FAVORABLE, 3);
    assert LastReached(rr, B3_FAVORABLE, 5) == if rr >= 0.75 then 1.00 else LastReached(rr, B3_FAVORABLE, 3);
  }

  lemma RatioGrowsWithEquity(e: Episode, low: real, high: real)
    requires low <= high
    ensures RecoveryRatio(e, low) <= RecoveryRatio(e, high)
  {
    var span := e.peak - e.trough;
    if span > 0.0 {
      DivMono(low - e.trough, high - e.trough, span);
    }
  }

  /** The speed policies. B2 starts at 25% on a favourable regime alone, even at the trough; it reaches
      100% exactly on three favourable sessions with some recovery, and never exceeds 40% otherwise
      defensive. B0 adds at most its ramp. */
  lemma SpeedLadders(p: Params, e: Episode, equity: real)
    requires 0 <= e.streak <= HYSTERESIS_FAVORABLE_DAYS
    ensures B2Allocation(e, equity, true) >= 0.25 && B2Allocation(e, equity, false) <= 0.40
    ensures B2Allocation(e, equity, true) == 1.00 <==> e.streak == 3 && RecoveryRatio(e, equity) > 0.0
    ensures RecoveryRatio(e, equity) <= 0.0 ==>
      B2Allocation(e, equity, true) == 0.25 && B2Allocation(e, equity, false) == 0.10
    ensures RecoveryRatio(e, equity) > 0.0 ==>
      B2Allocation(e, equity, true) ==
        (match e.streak case 0 => 0.25 case 1 => 0.50 case 2 => 0.75 case _ => 1.00) &&
      B2Allocation(e, equity, false) ==
        (match e.streak case 0 => 0.10 case 1 => 0.20 case 2 => 0.30 case _ => 0.40)
    ensures B0Allocation(p, e, true) ==
      if e.streak == 0 then p.degraded
      else Min(p.rampMax, p.degraded + match e.streak case 1 => 0.025 case 2 => 0.050 case _ => 0.075)
    ensures p.degraded <= p.rampMax ==> p.degraded <= B0Allocation(p, e, true) <= Min(p.rampMax, p.degraded + 0.075)
    ensures B0Allocation(p, e, false) == p.degraded
  {
    assert e.streak == 0 || e.streak == 1 || e.streak == 2 || e.streak == 3;
  }

  /** The documented ladder of B4 (50% on a confirmed BULL) and B4a (75%): an unfavourable regime or a
      relapse allows 10%, REBOUND at most half, and only BULL with half the loss back everything. */
  lemma B4Ladder(e: Episode, equity: real, regime: Regime, level: real)
    requires level == B4_BULL_STREAK_ALLOC || level == B4A_BULL_STREAK_ALLOC
    ensures B4Allocation(e, equity, regime, level).1 ==
      if e.relapseDay then 0.10
      else match regime
        case Bull =>
          if RecoveredFraction(e, equity, 0.50) then 1.00
          else if RecoveredFraction(e, equity, 0.25) then 0.75
          else if e.streak >= 3 then level else 0.10
        case Rebound => if RecoveredFraction(e, equity, 0.25) then 0.50 else if e.streak >= 3 then 0.25 else 0.10
        case _ => 0.10
  {
  }

  // ---------- the object ----------

  class BreakerEpisode {
    var peak: real
    var trough: real
    var allocation: real
    var favorableStreak: int
    var tripped: bool
    var rearmStartDd: Option<real>
    var relapseDay: bool

    constructor ()
      ensures State() == FRESH
    {
      peak, trough, allocation, favorableStreak := 0.0, 0.0, 1.0, 0;
      tripped, rearmStartDd, relapseDay := false, None, false;
    }

    function State(): Episode
      reads this
    {
      Episode(peak, trough, allocation, favorableStreak, tripped, rearmStartDd, relapseDay)
    }

    method CheckRelapseOf(equity: real, previousTrough: real)
      modifies this
      ensures State() == CheckRelapse(old(State()), equity, previousTrough)
    {
      if rearmStartDd.None? {
        return;
      }
      var newTrough := NewTrough(equity, previousTrough);
      var boundary := RelapseBoundary(peak, rearmStartDd.value);
      var ddWorsened := peak > 0.0 && MoneyLe(equity, boundary);
      if newTrough || ddWorsened {
        allocation := B4_FLOOR;
        favorableStreak := 0;
        rearmStartDd := None;
        relapseDay := true;
      }
    }

    method AllocateB4(equity: real, regime: Regime, bullStreakLevel: real) returns (r: real)
      modifies this
      ensures (State(), r) == B4Allocation(old(State()), equity, regime, bullStreakLevel)
    {
      if relapseDay {
        relapseDay := false;
        rearmStartDd := None;
        return B4_FLOOR;
      }
      var cap := B4_FLOOR;
      if regime == Rebound {
        if favorableStreak >= HYSTERESIS_FAVORABLE_DAYS {
          cap := Max(cap, 0.25);
        }
        if RecoveredFraction(State(), equity, B4_RR_25) {
          cap := Max(cap, 0.50);
        }
      } else if regime == Bull {
        if favorableStreak >= HYSTERESIS_FAVORABLE_DAYS {
          cap := Max(cap, bullStreakLevel);
        }
        if RecoveredFraction(State(), equity, B4_RR_25) {
          cap := Max(cap, 0.75);
        }
        if RecoveredFraction(State(), equity, B4_RR_50) {
          cap := Max(cap, 1.00);
        }
      }
      HalfImpliesQuarter(State(), equity);
      if cap > B4_FLOOR && rearmStartDd.None? {
        rearmStartDd := Some(DdPct(State(), equity));
      } else if cap <= B4_FLOOR {
        rearmStartDd := None;
      }
      return cap;
    }

    method AllocateFor(p: Params, equity: real, regime: Regime) returns (r: real)
      modifies this
      ensures (State(), r) == Allocate(p, old(State()), equity, regime)
    {
      var favorable := IsFavorable(regime);
      match p.policy {
        case B0 => r := B0Allocation(p, State(), favorable);
        case B1 => r := TiersFromRatio(RecoveryRatio(State(), equity), B1_TIERS);
        case B2 => r := B2Allocation(State(), equity, favorable);
        case B3 =>
          r := TiersFromRatio(RecoveryRatio(State(), equity), if favorable then B3_FAVORABLE else B3_DEFENSIVE);
        case B4 => r := AllocateB4(equity, regime, B4_BULL_STREAK_ALLOC);
        case B4a => r := AllocateB4(equity, regime, B4A_BULL_STREAK_ALLOC);
      }
    }

    method TripOrRecoverAt(p: Params, equity: real, peakEquity: real)
      modifies this
      ensures State() == TripOrRecover(p, old(State()), equity, peakEquity)
    {
      if !tripped {
        if Trips(p, equity, peakEquity) {
          tripped := true;
          peak := peakEquity;
          trough := Min(peakEquity, equity);
        }
        return;
      }
      var previousTrough := trough;
      var lower := if IsB4(p.policy) then NewTrough(equity, trough) else equity < trough;
      if lower {
        trough := equity;
      }
      if IsB4(p.policy) {
        CheckRelapseOf(equity, previousTrough);
      }
      if p.policy != B0 && p.policy != B2 {
        var recovered := if IsB4(p.policy) then RecoveredFraction(State(), equity, 0.90)
                         else RecoveryRatio(State(), equity) >= 0.90;
        if recovered && allocation >= 0.999 {
          tripped, allocation, favorableStreak := false, 1.0, 0;
          rearmStartDd, relapseDay := None, false;
        }
      } else if equity >= peak * p.recoveryPct {
        tripped, allocation, favorableStreak := false, 1.0, 0;
      }
    }

    method UpdateStreakWith(favorable: bool)
      modifies this`favorableStreak
      ensures State() == UpdateStreak(old(State()), favorable)
    {
      if favorable {
        favorableStreak := if favorableStreak + 1 <= HYSTERESIS_FAVORABLE_DAYS
                           then favorableStreak + 1 else HYSTERESIS_FAVORABLE_DAYS;
      } else {
        favorableStreak := 0;
      }
    }
  }

  /** The 50% recovery line is above the 25% one, so testing it first changes nothing. */
  lemma HalfImpliesQuarter(e: Episode, equity: real)
    ensures RecoveredFraction(e, equity, B4_RR_50) ==> RecoveredFraction(e, equity, B4_RR_25)
  {
  }

  /** The part of `CircuitBreaker` that drives an episode; it owns the episode object. */
  class CircuitBreaker {
    const params: Params
    const episode: BreakerEpisode
    var tripped: bool
    var wasTripped: bool
    var regimeToday: Regime
    var allocToday: real

    constructor (p: Params)
      ensures params == p && fresh(episode) && episode.State() == FRESH
      ensures Valid() && !wasTripped
    {
      params := p;
      episode := new BreakerEpisode();
      tripped, wasTripped, regimeToday, allocToday := false, false, Unclassified, 1.0;
    }

    ghost predicate Valid()
      reads this, episode
    {
      tripped == episode.tripped && allocToday == episode.allocation
    }

    method SetRegime(regime: Regime)
      requires Valid()
      modifies this`regimeToday
      ensures Valid() && regimeToday == regime
    {
      regimeToday := regime;
    }

    method Update(equity: real, peakEquity: real) returns (open: bool)
      requires Valid()
      modifies this, episode
      ensures Valid() && regimeToday == old(regimeToday)
      ensures episode.State() == UpdateAdaptive(params, old(episode.State()), Tick(equity, peakEquity, regimeToday))
      ensures wasTripped == old(tripped) && open == !tripped
    {
      wasTripped := tripped;
      episode.TripOrRecoverAt(params, equity, peakEquity);
      tripped := episode.tripped;
      var a := episode.AllocateFor(params, equity, regimeToday);
      episode.allocation := a;
      allocToday := a;
      open := !tripped;
    }

    method UpdateRegimeStreak()
      requires Valid()
      modifies episode`favorableStreak
      ensures Valid()
      ensures episode.State() ==
        if params.policy != B0 && tripped then UpdateStreak(old(episode.State()), IsFavorable(regimeToday))
        else old(episode.State())
    {
      if params.policy != B0 && tripped {
        episode.UpdateStreakWith(IsFavorable(regimeToday));
      }
    }

    /** True exactly when the latest update moved the breaker from untripped to tripped. */
    predicate JustTripped()
      reads this
    {
      tripped && !wasTripped
    }

    /** An adaptive policy never halts entries: it scales them. */
    function IsActive(): bool
      requires params.policy != B0
    {
      false
    }

    method Scale() returns (s: real)
      requires Valid() && params.policy != B0
      ensures s == AllocationScale(episode.State())
    {
      s := if !tripped then 1.0 else allocToday;
    }
  }
}
