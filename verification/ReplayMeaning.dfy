/** What the batch replay of a position exits on, read off its prices alone: the first scanned bar that
    touches the stop in force or the take-profit. */
module ReplayMeaning {
  import opened Common
  import opened Microstructure
  import opened ProtectionReplay

  // ---------- the vocabulary of prices ----------

  predicate TouchesStopAt(side: Side, b: Bar, stop: real) {
    Complete(b) && match side case Buy => b.low.value <= stop case Sell => b.high.value >= stop
  }

  predicate TouchesProfitAt(side: Side, b: Bar, profit: real) {
    Complete(b) && match side case Buy => b.high.value >= profit case Sell => b.low.value <= profit
  }

  /** `x` is the best price among the fill and the complete bars of days `first .. d`: the highest high of a
      long, the lowest low of a short. */
  ghost predicate BestPrice(p: Protection, h: seq<Bar>, first: nat, d: nat, x: real)
    requires d <= |h|
  {
    match p.side
    case Buy =>
      x >= p.fillPrice && (forall j :: first <= j < d && Complete(h[j]) ==> h[j].high.value <= x) &&
      (x == p.fillPrice || exists j :: first <= j < d && Complete(h[j]) && h[j].high.value == x)
    case Sell =>
      x <= p.fillPrice && (forall j :: first <= j < d && Complete(h[j]) ==> h[j].low.value >= x) &&
      (x == p.fillPrice || exists j :: first <= j < d && Complete(h[j]) && h[j].low.value == x)
  }

  /** Day `t` reaches the activation price. */
  predicate Activates(p: Protection, b: Bar) {
    p.activation.Some? &&
    match p.side
    case Buy => b.high.Some? && b.high.value >= p.activation.value
    case Sell => b.low.Some? && b.low.value <= p.activation.value
  }

  /** The trailing stop is in force from the session after the first one that reaches the activation. */
  ghost predicate TrailingInForce(p: Protection, s: Settings, h: seq<Bar>, start: nat, d: nat)
    requires d < |h|
  {
    s.trailingEnabled && p.trailingPct.Some? && exists t :: start <= t < d && Activates(p, h[t])
  }

  /** `stop` is the stop of day `d`: the trailing percentage off the best earlier price once the trailing
      stop is in force, before that the initial stop if it is on the losing side of the fill. */
  ghost predicate StopOf(p: Protection, s: Settings, h: seq<Bar>, start: nat, d: nat, stop: real)
    requires d < |h|
  {
    if TrailingInForce(p, s, h, start, d) then
      exists best ::
        BestPrice(p, h, FirstScanned(s, start), d, best) &&
        stop == match p.side
                case Buy => best * (1.0 - p.trailingPct.value)
                case Sell => best * (1.0 + p.trailingPct.value)
    else
      p.initialStop == Some(stop) &&
      match p.side case Buy => stop < p.fillPrice case Sell => stop > p.fillPrice
  }

  ghost predicate StopTouchedOn(p: Protection, s: Settings, h: seq<Bar>, start: nat, d: nat)
    requires d < |h|
  {
    exists stop :: StopOf(p, s, h, start, d, stop) && TouchesStopAt(p.side, h[d], stop)
  }

  predicate ProfitTouchedOn(p: Protection, s: Settings, h: seq<Bar>, d: nat)
    requires d < |h| && p.takeProfit.Some?
  {
    s.takeProfitEnabled && TouchesProfitAt(p.side, h[d], p.takeProfit.value)
  }

  /** When one bar touches both the trailing stop and the take-profit. */
  predicate PrefersProfit(priority: Priority) {
    match priority
    case Conservative => false
    case TsFirst => false
    case TpFirst => true
    case Random(draw) => draw
  }

  /** How day `d` ends the position. */
  ghost predicate EndsOn(p: Protection, s: Settings, h: seq<Bar>, start: nat, d: nat, price: real, reason: Reason)
    requires d < |h| && p.takeProfit.Some?
  {
    match reason
    case TakeProfit =>
      ProfitTouchedOn(p, s, h, d) && price == p.takeProfit.value &&
      (StopTouchedOn(p, s, h, start, d) ==> TrailingInForce(p, s, h, start, d) && PrefersProfit(s.priority))
    case TrailingStop =>
      TrailingInForce(p, s, h, start, d) && StopOf(p, s, h, start, d, price) && TouchesStopAt(p.side, h[d], price) &&
      (ProfitTouchedOn(p, s, h, d) ==> !PrefersProfit(s.priority))
    case InitialStop =>
      !TrailingInForce(p, s, h, start, d) && StopOf(p, s, h, start, d, price) && TouchesStopAt(p.side, h[d], price)
  }

  // ---------- the watcher ----------

  lemma {:induction false} FirstTriggerIsFirst(p: Protection, h: seq<Bar>, i: nat)
    requires p.activation.Some?
    ensures match FirstTrigger(p.side, p.activation.value, h, i)
      case Some(t) => i <= t < |h| && Activates(p, h[t]) && forall j :: i <= j < t ==> !Activates(p, h[j])
      case None => forall j :: i <= j < |h| ==> !Activates(p, h[j])
    decreases |h| - i
  {
    if i < |h| {
      FirstTriggerIsFirst(p, h, i + 1);
    }
  }

  /** The watcher, in prices: pending while no session reaches the activation, otherwise triggered by the
      first that does and effective the session after, if there is one. */
  lemma WatcherMeaning(p: Protection, h: seq<Bar>, start: nat)
    ensures match Watch(p, h, start)
      case NotApplicable => p.activation.None?
      case Pending => p.activation.Some? && forall j :: start <= j < |h| ==> !Activates(p, h[j])
      case TransitionFailed(t) =>
        start <= t && t + 1 == |h| && Activates(p, h[t]) && forall j :: start <= j < t ==> !Activates(p, h[j])
      case Transitioned(t, e) =>
        start <= t && e == t + 1 < |h| && Activates(p, h[t]) && forall j :: start <= j < t ==> !Activates(p, h[j])
  {
    if p.activation.Some? {
      FirstTriggerIsFirst(p, h, start);
    }
  }

  lemma ForceIsActive(p: Protection, s: Settings, h: seq<Bar>, start: nat, d: nat)
    requires d < |h|
    ensures TrailingInForce(p, s, h, start, d) <==> TrailingActive(p, s, Watch(p, h, start), d)
  {
    WatcherMeaning(p, h, start);
  }

  // ---------- one day ----------

  lemma BestIsUnique(p: Protection, h: seq<Bar>, first: nat, d: nat, x: real, y: real)
    requires d <= |h| && BestPrice(p, h, first, d, x) && BestPrice(p, h, first, d, y)
    ensures x == y
  {
  }

  lemma BestGrows(p: Protection, h: seq<Bar>, first: nat, d: nat, x: real)
    requires first <= d < |h| && BestPrice(p, h, first, d, x)
    ensures BestPrice(p, h, first, d + 1, if Complete(h[d]) then NextExtreme(p.side, x, h[d]) else x)
  {
    var y := if Complete(h[d]) then NextExtreme(p.side, x, h[d]) else x;
    if y == x && x != p.fillPrice {
      match p.side {
        case Buy => var j :| first <= j < d && Complete(h[j]) && h[j].high.value == x;
        case Sell => var j :| first <= j < d && Complete(h[j]) && h[j].low.value == x;
      }
    }
  }

  /** The level the scan compares day `d` with is the stop of that day. */
  lemma LevelIsStop(p: Protection, s: Settings, h: seq<Bar>, start: nat, d: nat, best: real, stop: real)
    requires d < |h| && BestPrice(p, h, FirstScanned(s, start), d, best)
    ensures var active := TrailingActive(p, s, Watch(p, h, start), d);
      StopOf(p, s, h, start, d, stop) <==>
        if active then stop == TrailingLevel(p, best) else GuardedInitialStop(p) == Some(stop)
  {
    ForceIsActive(p, s, h, start, d);
    if TrailingInForce(p, s, h, start, d) {
      forall x | BestPrice(p, h, FirstScanned(s, start), d, x)
        ensures x == best
      {
        BestIsUnique(p, h, FirstScanned(s, start), d, x, best);
      }
    }
  }

  /** What the levels of one bar decide, whatever day it is. */
  lemma BarMeaning(p: Protection, s: Settings, w: Watcher, b: Bar, d: nat, best: real)
    requires Complete(b) && p.takeProfit.Some?
    ensures var r, active := ResolveDay(p, s, w, b, d, best), TrailingActive(p, s, w, d);
      var stop := if active then Some(TrailingLevel(p, best)) else GuardedInitialStop(p);
      var onStop := stop.Some? && TouchesStopAt(p.side, b, stop.value);
      var onProfit := s.takeProfitEnabled && TouchesProfitAt(p.side, b, p.takeProfit.value);
      r == if onStop && !(active && onProfit && PrefersProfit(s.priority))
           then Exit(At(stop.value), if active then TrailingStop else InitialStop)
           else if onProfit then Exit(At(p.takeProfit.value), TakeProfit) else NoExit
  {
    var active := TrailingActive(p, s, w, d);
    ResolutionMeaning(b.high.value, b.low.value,
      if s.takeProfitEnabled then At(p.takeProfit.value) else if p.side == Sell then NegInf else PosInf,
      if active then At(TrailingLevel(p, best)) else if p.side == Sell then PosInf else NegInf,
      if active then None else GuardedInitialStop(p), s.priority, p.side);
  }

  /** A scanned bar resolves to an exit exactly as `EndsOn` says, and to none exactly when it touches
      neither level. */
  lemma DayIff(p: Protection, s: Settings, h: seq<Bar>, start: nat, d: nat, best: real)
    requires d < |h| && Complete(h[d]) && p.takeProfit.Some? && BestPrice(p, h, FirstScanned(s, start), d, best)
    ensures match ResolveDay(p, s, Watch(p, h, start), h[d], d, best)
      case Exit(level, reason) => level.At? && EndsOn(p, s, h, start, d, level.price, reason)
      case NoExit => !StopTouchedOn(p, s, h, start, d) && !ProfitTouchedOn(p, s, h, d)
    ensures ResolveDay(p, s, Watch(p, h, start), h[d], d, best).Exit? ==>
      StopTouchedOn(p, s, h, start, d) || ProfitTouchedOn(p, s, h, d)
  {
    var w := Watch(p, h, start);
    var active := TrailingActive(p, s, w, d);
    ForceIsActive(p, s, h, start, d);
    BarMeaning(p, s, w, h[d], d, best);
    forall stop
      ensures StopOf(p, s, h, start, d, stop) <==>
        if active then stop == TrailingLevel(p, best) else GuardedInitialStop(p) == Some(stop)
    {
      LevelIsStop(p, s, h, start, d, best, stop);
    }
    var level := if active then Some(TrailingLevel(p, best)) else GuardedInitialStop(p);
    assert level.Some? ==> StopOf(p, s, h, start, d, level.value);
  }

  // ---------- the whole replay ----------

  /** Day `j` touches neither the stop in force nor the take-profit. */
  ghost predicate Passes(p: Protection, s: Settings, h: seq<Bar>, start: nat, j: nat)
    requires j < |h| && p.takeProfit.Some?
  {
    !StopTouchedOn(p, s, h, start, j) && !ProfitTouchedOn(p, s, h, j)
  }

  ghost predicate FirstExit(p: Protection, s: Settings, h: seq<Bar>, start: nat, i: nat, x: Option<ExitRow>)
    requires p.takeProfit.Some?
  {
    match x
    case None => forall j :: i <= j < |h| ==> Passes(p, s, h, start, j)
    case Some(row) =>
      i <= row.day < |h| && EndsOn(p, s, h, start, row.day, row.price, row.reason) &&
      forall j :: i <= j < row.day ==> Passes(p, s, h, start, j)
  }

  lemma {:induction false} ScanMeaning(p: Protection, s: Settings, h: seq<Bar>, start: nat, i: nat, best: real)
    requires p.takeProfit.Some? && FirstScanned(s, start) <= i
    requires i < |h| ==> BestPrice(p, h, FirstScanned(s, start), i, best)
    ensures FirstExit(p, s, h, start, i, ScanFrom(p, s, Watch(p, h, start), h, i, best))
    decreases |h| - i
  {
    if i < |h| {
      BestGrows(p, h, FirstScanned(s, start), i, best);
      if Complete(h[i]) {
        DayIff(p, s, h, start, i, best);
      }
      if !Complete(h[i]) || ResolveDay(p, s, Watch(p, h, start), h[i], i, best).NoExit? {
        assert Passes(p, s, h, start, i);
        ScanMeaning(p, s, h, start, i + 1, if Complete(h[i]) then NextExtreme(p.side, best, h[i]) else best);
      }
    }
  }

  /** The replay of a position with a fill and a take-profit: it ends on the first scanned day whose bar
      touches the stop of that day or the enabled take-profit, for the reason and at the price `EndsOn`
      gives, and does not end when there is none. */
  lemma ReplayMeaning(p: Protection, s: Settings, h: seq<Bar>, start: nat)
    ensures if p.fillPrice > 0.0 && p.takeProfit.Some?
      then FirstExit(p, s, h, start, FirstScanned(s, start), Replay(p, s, h, start))
      else Replay(p, s, h, start) == None
  {
    if p.fillPrice > 0.0 && p.takeProfit.Some? {
      ScanMeaning(p, s, h, start, FirstScanned(s, start), p.fillPrice);
    }
  }

  /** With the conservative priority, a position that takes its profit never touched its stop that day. */
  lemma ConservativeProfit(p: Protection, s: Settings, h: seq<Bar>, start: nat)
    requires s.priority == Conservative && Replay(p, s, h, start).Some?
    requires Replay(p, s, h, start).value.reason == TakeProfit
    ensures var d := Replay(p, s, h, start).value.day; d < |h| && !StopTouchedOn(p, s, h, start, d)
  {
    ReplayMeaning(p, s, h, start);
  }
}
