/** Replay of the protections of one position: the watcher that promotes the initial stop to a
    trailing stop, and the scan for the first exit. Trading days are indices into the history. */
module ProtectionReplay {
  import opened Common
  import opened Microstructure

  /** One day of one symbol; a missing (or not yet observed) price is `None`. */
  datatype Bar = Bar(high: Option<real>, low: Option<real>)

  predicate Complete(b: Bar) {
    b.high.Some? && b.low.Some?
  }

  datatype Protection = Protection(
    side: Side,
    fillPrice: real,
    takeProfit: Option<real>,
    initialStop: Option<real>,
    trailingPct: Option<real>,
    activation: Option<real>)

  datatype Settings = Settings(priority: Priority, swingOnly: bool, takeProfitEnabled: bool, trailingEnabled: bool)

  datatype ExitRow = ExitRow(day: nat, price: real, reason: Reason)

  // ---------- watcher ----------

  datatype Watcher =
    | NotApplicable
    | Pending
    | TransitionFailed(trigger: nat)
    | Transitioned(trigger: nat, effective: nat)

  predicate Triggers(side: Side, price: real, b: Bar) {
    if side == Sell then b.low.Some? && b.low.value <= price else b.high.Some? && b.high.value >= price
  }

  function FirstTrigger(side: Side, price: real, h: seq<Bar>, i: nat): Option<nat>
    decreases |h| - i
  {
    if i >= |h| then None
    else if Triggers(side, price, h[i]) then Some(i)
    else FirstTrigger(side, price, h, i + 1)
  }

  function NextTradingDay(day: nat, days: nat): Option<nat> {
    if day + 1 < days then Some(day + 1) else None
  }

  function Watch(p: Protection, h: seq<Bar>, start: nat): Watcher {
    if p.activation.None? then NotApplicable
    else match FirstTrigger(p.side, p.activation.value, h, start)
      case None => Pending
      case Some(t) => if t + 1 < |h| then Transitioned(t, t + 1) else TransitionFailed(t)
  }

  method FindTriggerDate(side: Side, price: real, h: seq<Bar>, start: nat) returns (r: Option<nat>)
    ensures r == FirstTrigger(side, price, h, start)
    ensures r.Some? ==>
      start <= r.value < |h| && Triggers(side, price, h[r.value]) &&
      forall j :: start <= j < r.value ==> !Triggers(side, price, h[j])
    ensures r.None? ==> forall j :: start <= j < |h| ==> !Triggers(side, price, h[j])
  {
    var i := start;
    while i < |h|
      invariant start <= i
      invariant FirstTrigger(side, price, h, start) == FirstTrigger(side, price, h, i)
      invariant forall j :: start <= j < i && j < |h| ==> !Triggers(side, price, h[j])
    {
      if Triggers(side, price, h[i]) {
        return Some(i);
      }
      i := i + 1;
    }
    r := None;
  }

  method RunWatcher(p: Protection, h: seq<Bar>, start: nat) returns (w: Watcher)
    ensures w == Watch(p, h, start)
  {
    w := NotApplicable;
    if p.activation.Some? {
      var trigger := FindTriggerDate(p.side, p.activation.value, h, start);
      if trigger.None? {
        w := Pending;
      } else {
        var effective := NextTradingDay(trigger.value, |h|);
        w := if effective.None? then TransitionFailed(trigger.value) else Transitioned(trigger.value, effective.value);
      }
    }
  }

  // ---------- exit scan ----------

  /** Is the trailing stop in force on day `i`? */
  predicate TrailingActive(p: Protection, s: Settings, w: Watcher, i: nat) {
    s.trailingEnabled && p.trailingPct.Some? && w.Transitioned? && i >= w.effective
  }

  /** The initial stop, unless it lies on the wrong side of the fill. */
  function GuardedInitialStop(p: Protection): Option<real> {
    if p.initialStop.Some? &&
       (if p.side == Sell then p.initialStop.value <= p.fillPrice else p.initialStop.value >= p.fillPrice)
    then None else p.initialStop
  }

  function TrailingLevel(p: Protection, extreme: real): real
    requires p.trailingPct.Some?
  {
    if p.side == Sell then extreme * (1.0 + p.trailingPct.value) else extreme * (1.0 - p.trailingPct.value)
  }

  /** The best price seen so far: the running low of a short, the running high of a long. */
  function NextExtreme(side: Side, extreme: real, b: Bar): real {
    if side == Sell then (if b.low.Some? then Min(extreme, b.low.value) else extreme)
    else (if b.high.Some? then Max(extreme, b.high.value) else extreme)
  }

  /** How day `i` resolves, given the extreme of the earlier days. */
  function ResolveDay(p: Protection, s: Settings, w: Watcher, b: Bar, i: nat, extreme: real): (r: Resolution)
    requires Complete(b) && p.takeProfit.Some?
    ensures r.Exit? ==> r.price.At?
  {
    var active := TrailingActive(p, s, w, i);
    ResolveIntrabarExit(
      b.high.value, b.low.value,
      if s.takeProfitEnabled then At(p.takeProfit.value) else if p.side == Sell then NegInf else PosInf,
      if active then At(TrailingLevel(p, extreme)) else if p.side == Sell then PosInf else NegInf,
      if active then None else GuardedInitialStop(p),
      s.priority, p.side)
  }

  function ScanFrom(p: Protection, s: Settings, w: Watcher, h: seq<Bar>, i: nat, extreme: real): Option<ExitRow>
    requires p.takeProfit.Some?
    decreases |h| - i
  {
    if i >= |h| then None
    else if !Complete(h[i]) then ScanFrom(p, s, w, h, i + 1, extreme)
    else match ResolveDay(p, s, w, h[i], i, extreme)
      case Exit(level, reason) => Some(ExitRow(i, level.price, reason))
      case NoExit => ScanFrom(p, s, w, h, i + 1, NextExtreme(p.side, extreme, h[i]))
  }

  /** The first day the scan looks at. */
  function FirstScanned(s: Settings, start: nat): nat {
    start + if s.swingOnly then 1 else 0
  }

  function ScanExit(p: Protection, s: Settings, w: Watcher, h: seq<Bar>, start: nat): Option<ExitRow> {
    if p.fillPrice <= 0.0 || p.takeProfit.None? then None
    else ScanFrom(p, s, w, h, FirstScanned(s, start), p.fillPrice)
  }

  /** The scan as the source runs it: one pass over the days, updating the running extremes. */
  method RunScan(p: Protection, s: Settings, w: Watcher, h: seq<Bar>, start: nat) returns (r: Option<ExitRow>)
    ensures r == ScanExit(p, s, w, h, start)
  {
    r := None;
    if p.fillPrice <= 0.0 || p.takeProfit.None? {
      return;
    }
    var short := p.side == Sell;
    var takeProfit := if s.takeProfitEnabled then At(p.takeProfit.value) else if short then NegInf else PosInf;
    var initialStop := GuardedInitialStop(p);
    var i := FirstScanned(s, start);
    var peakHigh, peakLow := p.fillPrice, p.fillPrice;
    while i < |h|
      invariant ScanExit(p, s, w, h, start) == ScanFrom(p, s, w, h, i, if short then peakLow else peakHigh)
    {
      if Complete(h[i]) {
        ghost var extreme := if short then peakLow else peakHigh;
        var dayHigh, dayLow := h[i].high.value, h[i].low.value;
        var active := TrailingActive(p, s, w, i);
        var trailingStop: Level;
        if short {
          var previousPeakLow := peakLow;
          peakLow := Min(peakLow, dayLow);
          trailingStop := if active then At(previousPeakLow * (1.0 + p.trailingPct.value)) else PosInf;
        } else {
          var previousPeakHigh := peakHigh;
          peakHigh := Max(peakHigh, dayHigh);
          trailingStop := if active then At(previousPeakHigh * (1.0 - p.trailingPct.value)) else NegInf;
        }
        assert trailingStop == if active then At(TrailingLevel(p, extreme)) else if short then PosInf else NegInf;
        var resolution := ResolveIntrabarExit(dayHigh, dayLow, takeProfit, trailingStop,
                                              if active then None else initialStop, s.priority, p.side);
        if resolution.Exit? {
          return Some(ExitRow(i, resolution.price.price, resolution.reason));
        }
      }
      i := i + 1;
    }
  }

  /** Watcher then scan on one history: the batch replay of a position entered on day `start`. */
  function Replay(p: Protection, s: Settings, h: seq<Bar>, start: nat): Option<ExitRow> {
    ScanExit(p, s, Watch(p, h, start), h, start)
  }

  // ---------- what the scan guarantees ----------

  /** Exits are inside the scanned days; a trailing exit needs a trailing stop in force, and an
      initial-stop exit needs it not to be. */
  lemma {:induction false} ExitMatchesProtection(p: Protection, s: Settings, w: Watcher, h: seq<Bar>, i: nat,
                                                 extreme: real)
    requires p.takeProfit.Some? && ScanFrom(p, s, w, h, i, extreme).Some?
    ensures var x := ScanFrom(p, s, w, h, i, extreme).value;
      i <= x.day < |h| && Complete(h[x.day]) &&
      (x.reason == TrailingStop ==> TrailingActive(p, s, w, x.day)) &&
      (x.reason == InitialStop ==> !TrailingActive(p, s, w, x.day) && GuardedInitialStop(p) == Some(x.price)) &&
      (x.reason == TakeProfit ==> s.takeProfitEnabled && p.takeProfit == Some(x.price))
    decreases |h| - i
  {
    if !Complete(h[i]) {
      ExitMatchesProtection(p, s, w, h, i + 1, extreme);
    } else if ResolveDay(p, s, w, h[i], i, extreme).NoExit? {
      ExitMatchesProtection(p, s, w, h, i + 1, NextExtreme(p.side, extreme, h[i]));
    }
  }

  /** The hand-off: with trailing enabled, trailing exits happen on or after the transition day and
      initial-stop exits strictly before it (or when no transition takes effect). */
  lemma HandOff(p: Protection, s: Settings, h: seq<Bar>, start: nat)
    requires Replay(p, s, h, start).Some? && s.trailingEnabled && p.trailingPct.Some?
    ensures var x, w := Replay(p, s, h, start).value, Watch(p, h, start);
      (x.reason == TrailingStop ==> w.Transitioned? && x.day >= w.effective) &&
      (x.reason == InitialStop ==> w.Transitioned? ==> x.day < w.effective)
  {
    ExitMatchesProtection(p, s, Watch(p, h, start), h, FirstScanned(s, start), p.fillPrice);
  }

  // ---------- exits on the initial stop, read off the bars ----------

  predicate TouchesStop(p: Protection, b: Bar) {
    Complete(b) && GuardedInitialStop(p).Some? &&
    var stop := GuardedInitialStop(p).value;
    if p.side == Sell then b.high.value >= stop else b.low.value <= stop
  }

  predicate TouchesProfit(p: Protection, s: Settings, b: Bar) {
    s.takeProfitEnabled && Complete(b) && p.takeProfit.Some? &&
    if p.side == Sell then b.low.value <= p.takeProfit.value else b.high.value >= p.takeProfit.value
  }

  /** Day `d` touches the initial stop with no trailing stop in force, and no day from `i` on touched it or
      the take-profit before. */
  ghost predicate StoppedOn(p: Protection, s: Settings, w: Watcher, h: seq<Bar>, i: nat, d: nat) {
    i <= d < |h| && !TrailingActive(p, s, w, d) && TouchesStop(p, h[d]) &&
    forall j :: i <= j < d ==> !TouchesStop(p, h[j]) && !TouchesProfit(p, s, h[j])
  }

  /** While no trailing stop is in force, a bar exits on the initial stop if it touches it, otherwise on the
      take-profit if it touches that. */
  lemma InitialDayMeaning(p: Protection, s: Settings, w: Watcher, b: Bar, i: nat, extreme: real)
    requires Complete(b) && p.takeProfit.Some?
    ensures var r := ResolveDay(p, s, w, b, i, extreme);
      if TrailingActive(p, s, w, i) then r.Exit? ==> r.reason != InitialStop
      else (r.Exit? && r.reason == InitialStop <==> TouchesStop(p, b)) &&
           (r.Exit? <==> TouchesStop(p, b) || TouchesProfit(p, s, b))
  {
  }

  lemma {:induction false} ScanStopsOnInitial(p: Protection, s: Settings, w: Watcher, h: seq<Bar>, i: nat,
                                              extreme: real)
    requires p.takeProfit.Some?
    ensures var x := ScanFrom(p, s, w, h, i, extreme);
      x.Some? && x.value.reason == InitialStop <==> exists d: nat :: StoppedOn(p, s, w, h, i, d)
    decreases |h| - i
  {
    if i < |h| {
      var next := if Complete(h[i]) then NextExtreme(p.side, extreme, h[i]) else extreme;
      var later := i + 1;
      ScanStopsOnInitial(p, s, w, h, later, next);
      if Complete(h[i]) {
        InitialDayMeaning(p, s, w, h[i], i, extreme);
      }
      if d: nat :| StoppedOn(p, s, w, h, later, d) {
        assert !TouchesStop(p, h[i]) && !TouchesProfit(p, s, h[i]) ==> StoppedOn(p, s, w, h, i, d);
      }
      if d: nat :| StoppedOn(p, s, w, h, i, d) {
        assert d > i ==> StoppedOn(p, s, w, h, later, d) && !TrailingActive(p, s, w, i);
      }
      if TouchesStop(p, h[i]) && !TrailingActive(p, s, w, i) {
        assert StoppedOn(p, s, w, h, i, i);
      }
    }
  }

  /** A position exits on its initial stop exactly when some scanned day touches that stop with no trailing
      stop in force, before any scanned day has touched it or the take-profit. */
  lemma InitialStopExitIff(p: Protection, s: Settings, h: seq<Bar>, start: nat)
    ensures Replay(p, s, h, start).Some? && Replay(p, s, h, start).value.reason == InitialStop <==>
      p.fillPrice > 0.0 && p.takeProfit.Some? &&
      exists d: nat :: StoppedOn(p, s, Watch(p, h, start), h, FirstScanned(s, start), d)
  {
    if p.fillPrice > 0.0 && p.takeProfit.Some? {
      ScanStopsOnInitial(p, s, Watch(p, h, start), h, FirstScanned(s, start), p.fillPrice);
    }
  }
}
