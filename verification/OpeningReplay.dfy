/** The opening phase of the ledger: the opening price against the protections of a held position, before
    the bar of the day is known, and how it agrees with the scan of that bar. */
module OpeningReplay {
  import opened Common
  import opened Microstructure
  import opened ProtectionReplay
  import opened IncrementalReplay
  import opened ReplayMeaning

  datatype OpenReason = TrailingStopGap | InitialStopGap | TakeProfitGap

  datatype OpenExit = OpenExit(price: real, reason: OpenReason)

  /** Protections checked when a position is booked: positive prices, with stop, fill and take-profit in
      order. */
  predicate Booked(p: Protection) {
    p.fillPrice > 0.0 && p.takeProfit.Some? && p.initialStop.Some? && p.trailingPct.Some? &&
    p.takeProfit.value > 0.0 && p.initialStop.value > 0.0 && 0.0 < p.trailingPct.value < 1.0 &&
    if p.side == Sell then p.takeProfit.value < p.fillPrice < p.initialStop.value
    else p.initialStop.value < p.fillPrice < p.takeProfit.value
  }

  lemma TrailingLevelPositive(p: Protection, extreme: real)
    requires Booked(p) && extreme > 0.0
    ensures TrailingLevel(p, extreme) > 0.0
  {
    var share := if p.side == Sell then 1.0 + p.trailingPct.value else 1.0 - p.trailingPct.value;
    assert share > 0.0;
    assert extreme * share > 0.0;
  }

  /** On usable bars, a booked position always exits at a positive price. */
  lemma {:induction false} ExitPricePositive(p: Protection, s: Settings, w: Watcher, h: seq<Bar>, i: nat, d: nat,
                                             extreme: real)
    requires Booked(p) && extreme > 0.0 && forall j :: i <= j <= d && j < |h| ==> Tradable(h[j])
    ensures var x := ScanFrom(p, s, w, h, i, extreme); x.Some? && x.value.day <= d ==> x.value.price > 0.0
    decreases |h| - i
  {
    if i < |h| {
      TrailingLevelPositive(p, extreme);
      if i > d {
        if ScanFrom(p, s, w, h, i, extreme).Some? {
          ExitMatchesProtection(p, s, w, h, i, extreme);
        }
      } else if ResolveDay(p, s, w, h[i], i, extreme).NoExit? {
        ExitPricePositive(p, s, w, h, i + 1, d, NextExtreme(p.side, extreme, h[i]));
      }
    }
  }

  /** The extreme of the observed days `i .. d`, starting from `extreme`. */
  function ExtremeUntil(side: Side, h: seq<Bar>, i: nat, d: nat, extreme: real): real
    requires d <= |h|
    decreases d - i
  {
    if i >= d then extreme else ExtremeUntil(side, h, i + 1, d, NextExtreme(side, extreme, h[i]))
  }

  /** That extreme is the best price among the start and the observed days: the highest high of a long,
      the lowest low of a short. */
  lemma {:induction false} ExtremeIsBest(side: Side, h: seq<Bar>, i: nat, d: nat, extreme: real)
    requires i <= d <= |h|
    ensures var r := ExtremeUntil(side, h, i, d, extreme);
      if side == Sell then
        r <= extreme && (forall j :: i <= j < d && h[j].low.Some? ==> r <= h[j].low.value) &&
        (r == extreme || exists j :: i <= j < d && h[j].low == Some(r))
      else
        r >= extreme && (forall j :: i <= j < d && h[j].high.Some? ==> r >= h[j].high.value) &&
        (r == extreme || exists j :: i <= j < d && h[j].high == Some(r))
    decreases d - i
  {
    if i < d {
      ExtremeIsBest(side, h, i + 1, d, NextExtreme(side, extreme, h[i]));
    }
  }

  lemma {:induction false} ExtremeSplits(side: Side, h: seq<Bar>, i: nat, m: nat, d: nat, extreme: real)
    requires i <= m <= d <= |h|
    ensures ExtremeUntil(side, h, i, d, extreme) == ExtremeUntil(side, h, m, d, ExtremeUntil(side, h, i, m, extreme))
    decreases m - i
  {
    if i < m {
      ExtremeSplits(side, h, i + 1, m, d, NextExtreme(side, extreme, h[i]));
    }
  }

  lemma ShareGrows(low: real, high: real, pct: real)
    requires low <= high && pct < 1.0
    ensures low * (1.0 - pct) <= high * (1.0 - pct)
  {
    MulMono(low, high, 1.0 - pct);
  }

  lemma TrailingLevelGrows(p: Protection, low: real, high: real)
    requires Booked(p) && low <= high
    ensures TrailingLevel(p, low) <= TrailingLevel(p, high)
  {
    var pct := p.trailingPct.value;
    if p.side == Sell {
      ShareGrows(low, high, -pct);
      assert 1.0 - -pct == 1.0 + pct;
    } else {
      ShareGrows(low, high, pct);
    }
  }

  /** A trailing stop only ever tightens: it never falls for a long and never rises for a short. */
  lemma TrailingNeverLoosens(p: Protection, h: seq<Bar>, start: nat, d: nat, later: nat)
    requires Booked(p) && start <= d <= later <= |h|
    ensures var before := TrailingLevel(p, ExtremeUntil(p.side, h, start, d, p.fillPrice));
      var after := TrailingLevel(p, ExtremeUntil(p.side, h, start, later, p.fillPrice));
      if p.side == Sell then after <= before else after >= before
  {
    ExtremeSplits(p.side, h, start, d, later, p.fillPrice);
    var x := ExtremeUntil(p.side, h, start, d, p.fillPrice);
    ExtremeIsBest(p.side, h, d, later, x);
    var y := ExtremeUntil(p.side, h, start, later, p.fillPrice);
    if p.side == Sell {
      TrailingLevelGrows(p, y, x);
    } else {
      TrailingLevelGrows(p, x, y);
    }
  }

  predicate OpeningTrailingActive(p: Protection, s: Settings, h: seq<Bar>, start: nat, d: nat)
    requires start <= d < |h|
  {
    var w := Watch(p, OpeningFrame(h, start, d), 0);
    s.trailingEnabled && w.Transitioned? && start + w.effective <= d
  }

  /** The stop the opening phase of day `d` compares the opening price with. */
  function OpeningStop(p: Protection, s: Settings, h: seq<Bar>, start: nat, d: nat): real
    requires start <= d < |h| && Booked(p)
  {
    if OpeningTrailingActive(p, s, h, start, d)
    then TrailingLevel(p, ExtremeUntil(p.side, OpeningFrame(h, start, d), 0, d - start, p.fillPrice))
    else p.initialStop.value
  }

  function OpeningExit(p: Protection, s: Settings, h: seq<Bar>, start: nat, d: nat, opening: real): Option<OpenExit>
    requires start <= d < |h| && Booked(p)
  {
    var stop := OpeningStop(p, s, h, start, d);
    if (if p.side == Sell then opening >= stop else opening <= stop) then
      Some(OpenExit(opening, if OpeningTrailingActive(p, s, h, start, d) then TrailingStopGap else InitialStopGap))
    else if s.takeProfitEnabled &&
            (if p.side == Sell then opening <= p.takeProfit.value else opening >= p.takeProfit.value) then
      Some(OpenExit(p.takeProfit.value, TakeProfitGap))
    else None
  }

  /** The opening price of a day lies inside its bar. */
  predicate Inside(b: Bar, opening: real) {
    Complete(b) && b.low.value <= opening <= b.high.value
  }

  /** The opening phase as the source runs it: the watcher on the frame, the best observed price, then
      the comparison with the stop and the take-profit. */
  method ObserveOpening(p: Protection, s: Settings, h: seq<Bar>, start: nat, d: nat, opening: real)
    returns (r: Option<OpenExit>)
    requires start <= d < |h| && Booked(p)
    ensures r == OpeningExit(p, s, h, start, d, opening)
  {
    var frame := OpeningFrame(h, start, d);
    var w := RunWatcher(p, frame, 0);
    var active := s.trailingEnabled && w.Transitioned? && start + w.effective <= d;
    var short := p.side == Sell;
    var extreme := p.fillPrice;
    for j := 0 to d - start
      invariant ExtremeUntil(p.side, frame, 0, d - start, p.fillPrice) ==
        ExtremeUntil(p.side, frame, j, d - start, extreme)
    {
      if short && frame[j].low.Some? {
        extreme := Min(extreme, frame[j].low.value);
      } else if !short && frame[j].high.Some? {
        extreme := Max(extreme, frame[j].high.value);
      }
    }
    var stop := if active then TrailingLevel(p, extreme) else p.initialStop.value;
    r := None;
    if (if short then opening >= stop else opening <= stop) {
      r := Some(OpenExit(opening, if active then TrailingStopGap else InitialStopGap));
    } else if s.takeProfitEnabled && (if short then opening <= p.takeProfit.value else opening >= p.takeProfit.value) {
      r := Some(OpenExit(p.takeProfit.value, TakeProfitGap));
    }
  }

  lemma {:induction false} ExtremeOnFrame(side: Side, h: seq<Bar>, start: nat, d: nat, i: nat, extreme: real)
    requires start <= d < |h| && i <= d - start
    ensures ExtremeUntil(side, OpeningFrame(h, start, d), i, d - start, extreme) ==
      ExtremeUntil(side, h, start + i, d, extreme)
    decreases d - i
  {
    if start + i < d {
      ExtremeOnFrame(side, h, start, d, i + 1, NextExtreme(side, extreme, h[start + i]));
    }
  }

  // ---------- the opening phase in prices ----------

  /** `x` is the best price among the fill and the observed prices of days `start .. d`. */
  ghost predicate BestObserved(p: Protection, h: seq<Bar>, start: nat, d: nat, x: real)
    requires d <= |h|
  {
    match p.side
    case Buy =>
      x >= p.fillPrice && (forall j :: start <= j < d && h[j].high.Some? ==> h[j].high.value <= x) &&
      (x == p.fillPrice || exists j :: start <= j < d && h[j].high == Some(x))
    case Sell =>
      x <= p.fillPrice && (forall j :: start <= j < d && h[j].low.Some? ==> h[j].low.value >= x) &&
      (x == p.fillPrice || exists j :: start <= j < d && h[j].low == Some(x))
  }

  /** `stop` is what the open of day `d` is compared with: the trailing percentage off the best observed
      price once a session before has reached the activation, else the initial stop. */
  ghost predicate StopAtOpen(p: Protection, s: Settings, h: seq<Bar>, start: nat, d: nat, stop: real)
    requires start <= d < |h| && Booked(p)
  {
    if TrailingInForce(p, s, h, start, d) then
      exists best ::
        BestObserved(p, h, start, d, best) &&
        stop == match p.side
                case Buy => best * (1.0 - p.trailingPct.value)
                case Sell => best * (1.0 + p.trailingPct.value)
    else stop == p.initialStop.value
  }

  /** The price is at or beyond a stop. */
  predicate GapsThrough(side: Side, opening: real, stop: real) {
    match side case Buy => opening <= stop case Sell => opening >= stop
  }

  predicate ReachesProfit(side: Side, opening: real, profit: real) {
    match side case Buy => opening >= profit case Sell => opening <= profit
  }

  lemma OpeningStopIs(p: Protection, s: Settings, h: seq<Bar>, start: nat, d: nat, stop: real)
    requires start <= d < |h| && Booked(p)
    ensures StopAtOpen(p, s, h, start, d, stop) <==> stop == OpeningStop(p, s, h, start, d)
    ensures TrailingInForce(p, s, h, start, d) <==> OpeningTrailingActive(p, s, h, start, d)
  {
    ForceIsActive(p, s, h, start, d);
    ActiveOnFrame(p, s, h, start, d, d, d - start);
    ExtremeOnFrame(p.side, h, start, d, 0, p.fillPrice);
    ExtremeIsBest(p.side, h, start, d, p.fillPrice);
    var best := ExtremeUntil(p.side, h, start, d, p.fillPrice);
    assert BestObserved(p, h, start, d, best);
    forall x | BestObserved(p, h, start, d, x)
      ensures x == best
    {
    }
  }

  /** The opening phase fires exactly when the opening price is at or beyond the stop, and then fills at the
      open; or, that failing, when it reaches the enabled take-profit, and then fills at the take-profit. */
  lemma OpeningMeaning(p: Protection, s: Settings, h: seq<Bar>, start: nat, d: nat, opening: real, stop: real)
    requires start <= d < |h| && Booked(p) && StopAtOpen(p, s, h, start, d, stop)
    ensures OpeningExit(p, s, h, start, d, opening) ==
      if GapsThrough(p.side, opening, stop) then
        Some(OpenExit(opening, if TrailingInForce(p, s, h, start, d) then TrailingStopGap else InitialStopGap))
      else if s.takeProfitEnabled && ReachesProfit(p.side, opening, p.takeProfit.value) then
        Some(OpenExit(p.takeProfit.value, TakeProfitGap))
      else None
    ensures forall other :: StopAtOpen(p, s, h, start, d, other) ==> other == stop
  {
    OpeningStopIs(p, s, h, start, d, stop);
    forall other | StopAtOpen(p, s, h, start, d, other)
      ensures other == stop
    {
      OpeningStopIs(p, s, h, start, d, other);
    }
  }

  /** A scan that has not exited before day `d` reaches it with the extreme of the earlier days. */
  lemma {:induction false} ScanReaches(p: Protection, s: Settings, w: Watcher, h: seq<Bar>, i: nat, d: nat,
                                       extreme: real)
    requires p.takeProfit.Some? && i <= d <= |h| && forall j :: i <= j < d ==> Complete(h[j])
    requires ScanFrom(p, s, w, h, i, extreme).Some? ==> ScanFrom(p, s, w, h, i, extreme).value.day >= d
    ensures ScanFrom(p, s, w, h, i, extreme) == ScanFrom(p, s, w, h, d, ExtremeUntil(p.side, h, i, d, extreme))
    decreases d - i
  {
    if i < d {
      ScanReaches(p, s, w, h, i + 1, d, NextExtreme(p.side, extreme, h[i]));
    }
  }

  /** On day `d`, the scan of a position that is still held resolves that very bar, with the protection
      the opening phase sees and the extreme of the days scanned so far. */
  lemma ScanResolvesDay(p: Protection, s: Settings, h: seq<Bar>, start: nat, d: nat)
    requires FirstScanned(s, start) <= d < |h| && Booked(p) && forall j :: start <= j <= d ==> Complete(h[j])
    requires Replay(p, s, h, start).Some? ==> Replay(p, s, h, start).value.day >= d
    ensures var w := Watch(p, h, start);
      var r := ResolveDay(p, s, w, h[d], d, ExtremeUntil(p.side, h, FirstScanned(s, start), d, p.fillPrice));
      TrailingActive(p, s, w, d) == OpeningTrailingActive(p, s, h, start, d) &&
      (r.Exit? ==> Replay(p, s, h, start) == Some(ExitRow(d, r.price.price, r.reason))) &&
      (r.NoExit? ==> Replay(p, s, h, start).Some? ==> Replay(p, s, h, start).value.day > d)
  {
    var w := Watch(p, h, start);
    var extreme := ExtremeUntil(p.side, h, FirstScanned(s, start), d, p.fillPrice);
    ScanReaches(p, s, w, h, FirstScanned(s, start), d, p.fillPrice);
    ActiveOnFrame(p, s, h, start, d, d, d - start);
    if ResolveDay(p, s, w, h[d], d, extreme).NoExit? && Replay(p, s, h, start).Some? {
      ExitMatchesProtection(p, s, w, h, d + 1, NextExtreme(p.side, extreme, h[d]));
    }
  }

  /** The levels the scan compares day `d` with, and what they decide. */
  lemma DayMeaning(p: Protection, s: Settings, w: Watcher, b: Bar, d: nat, extreme: real)
    requires Complete(b) && Booked(p)
    ensures var r, active := ResolveDay(p, s, w, b, d, extreme), TrailingActive(p, s, w, d);
      var stop := if active then TrailingLevel(p, extreme) else p.initialStop.value;
      var onStop := StopTouched(b.high.value, b.low.value, At(stop), p.side);
      var onProfit := s.takeProfitEnabled && ProfitTouched(b.high.value, b.low.value, At(p.takeProfit.value), p.side);
      (r.Exit? <==> onStop || onProfit) &&
      (onStop && (!active || !onProfit || !ProfitFirst(s.priority)) ==>
        r == Exit(At(stop), if active then TrailingStop else InitialStop)) &&
      (r.Exit? && r.reason == TakeProfit ==> r.price == At(p.takeProfit.value)) &&
      (r.Exit? && r.reason != TakeProfit ==> onStop && r.price == At(stop))
  {
    var active := TrailingActive(p, s, w, d);
    ResolutionMeaning(b.high.value, b.low.value,
      if s.takeProfitEnabled then At(p.takeProfit.value) else if p.side == Sell then NegInf else PosInf,
      if active then At(TrailingLevel(p, extreme)) else if p.side == Sell then PosInf else NegInf,
      if active then None else p.initialStop, s.priority, p.side);
  }

  /** When the opening phase closes a position that is still held, the scan exits that same day exactly
      when it looks at the day and the stop is the initial one, or its own trailing level or the
      take-profit is touched. */
  lemma OpeningAgreesIff(p: Protection, s: Settings, h: seq<Bar>, start: nat, d: nat, opening: real)
    requires start <= d < |h| && Booked(p) && Inside(h[d], opening) && forall j :: start <= j < d ==> Complete(h[j])
    requires Replay(p, s, h, start).Some? ==> Replay(p, s, h, start).value.day >= d
    requires OpeningExit(p, s, h, start, d, opening).Some?
    ensures Replay(p, s, h, start).Some? && Replay(p, s, h, start).value.day == d <==>
      FirstScanned(s, start) <= d &&
      (!OpeningTrailingActive(p, s, h, start, d) ||
       StopTouched(h[d].high.value, h[d].low.value,
         At(TrailingLevel(p, ExtremeUntil(p.side, h, FirstScanned(s, start), d, p.fillPrice))), p.side) ||
       (s.takeProfitEnabled && ProfitTouched(h[d].high.value, h[d].low.value, At(p.takeProfit.value), p.side)))
  {
    var w := Watch(p, h, start);
    if FirstScanned(s, start) <= d {
      ScanResolvesDay(p, s, h, start, d);
      DayMeaning(p, s, w, h[d], d, ExtremeUntil(p.side, h, FirstScanned(s, start), d, p.fillPrice));
    } else if Replay(p, s, h, start).Some? {
      ExitMatchesProtection(p, s, w, h, FirstScanned(s, start), p.fillPrice);
    }
  }

  /** The scan starts on the entry day, or the entry day does not set the running extreme. */
  predicate SameExtreme(p: Protection, s: Settings, h: seq<Bar>, start: nat, d: nat)
    requires start <= d <= |h|
  {
    s.swingOnly ==>
      start < d &&
      match p.side
      case Buy => h[start].high.Some? ==> h[start].high.value <= ExtremeUntil(Buy, h, start + 1, d, p.fillPrice)
      case Sell => h[start].low.Some? ==> h[start].low.value >= ExtremeUntil(Sell, h, start + 1, d, p.fillPrice)
  }

  lemma ExtremeWithoutEntryDay(p: Protection, s: Settings, h: seq<Bar>, start: nat, d: nat)
    requires start <= d <= |h| && SameExtreme(p, s, h, start, d)
    ensures ExtremeUntil(p.side, h, FirstScanned(s, start), d, p.fillPrice) ==
      ExtremeUntil(p.side, h, start, d, p.fillPrice)
  {
    if s.swingOnly {
      var after := NextExtreme(p.side, p.fillPrice, h[start]);
      ExtremeIsBest(p.side, h, start + 1, d, p.fillPrice);
      ExtremeIsBest(p.side, h, start + 1, d, after);
    }
  }

  /** Opening and intraday agree, with `swing_only` off, and with it on whenever the entry day does not
      set the running extreme: when the opening phase closes a position that is still held, the batch
      replay exits that same day. A gapped stop is the very level of the scan, with the same stop in
      force, and is filled at the open, never better than that level. */
  lemma OpeningAgreesWithScan(p: Protection, s: Settings, h: seq<Bar>, start: nat, d: nat, opening: real)
    requires start <= d < |h| && Booked(p) && SameExtreme(p, s, h, start, d)
    requires Inside(h[d], opening) && forall j :: start <= j < d ==> Complete(h[j])
    requires Replay(p, s, h, start).Some? ==> Replay(p, s, h, start).value.day >= d
    requires OpeningExit(p, s, h, start, d, opening).Some?
    ensures Replay(p, s, h, start).Some? && Replay(p, s, h, start).value.day == d
    ensures var o, stop := OpeningExit(p, s, h, start, d, opening).value, OpeningStop(p, s, h, start, d);
      o.reason != TakeProfitGap ==> if p.side == Sell then o.price >= stop else o.price <= stop
    ensures !ProfitFirst(s.priority) ==>
      var x, o := Replay(p, s, h, start).value, OpeningExit(p, s, h, start, d, opening).value;
      var stop := OpeningStop(p, s, h, start, d);
      (o.reason != TakeProfitGap ==>
        x.price == stop && x.reason == (if o.reason == TrailingStopGap then TrailingStop else InitialStop)) &&
      (o.reason == TakeProfitGap ==>
        (x.reason == TakeProfit && x.price == o.price) ||
        (x.reason != TakeProfit && x.price == stop &&
         StopTouched(h[d].high.value, h[d].low.value, At(stop), p.side)))
  {
    ScanResolvesDay(p, s, h, start, d);
    ExtremeWithoutEntryDay(p, s, h, start, d);
    ExtremeOnFrame(p.side, h, start, d, 0, p.fillPrice);
    DayMeaning(p, s, Watch(p, h, start), h[d], d, ExtremeUntil(p.side, h, start, d, p.fillPrice));
  }

  /** A history on which the two differ: with `swing_only` on, the scan skips the entry day, so its running high
      misses that day's rally while the opening stop counts it. Here the opening phase closes the
      position at 107 and the batch replay never exits. */
  lemma SwingOnlyBreaksAgreement()
    ensures
      var p := Protection(Buy, 100.0, Some(200.0), Some(50.0), Some(0.1), Some(110.0));
      var s := Settings(Conservative, true, true, true);
      var h := [Bar(Some(120.0), Some(99.0)), Bar(Some(110.0), Some(106.0))];
      Booked(p) && OpeningExit(p, s, h, 0, 1, 107.0) == Some(OpenExit(107.0, TrailingStopGap)) &&
      Replay(p, s, h, 0) == None
  {
    var p := Protection(Buy, 100.0, Some(200.0), Some(50.0), Some(0.1), Some(110.0));
    var s := Settings(Conservative, true, true, true);
    var h := [Bar(Some(120.0), Some(99.0)), Bar(Some(110.0), Some(106.0))];
    var f := OpeningFrame(h, 0, 1);
    assert f[0] == h[0];
    assert Watch(p, h, 0) == Transitioned(0, 1) && Watch(p, f, 0) == Transitioned(0, 1);
    assert ExtremeUntil(Buy, f, 0, 1, 100.0) == ExtremeUntil(Buy, f, 1, 1, 120.0) == 120.0;
    assert ResolveDay(p, s, Watch(p, h, 0), h[1], 1, 100.0) == NoExit;
    assert ScanFrom(p, s, Watch(p, h, 0), h, 1, 100.0) == ScanFrom(p, s, Watch(p, h, 0), h, 2, 110.0);
  }
}
