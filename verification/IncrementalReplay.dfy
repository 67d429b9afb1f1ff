/** The ledger re-runs watcher and scan every day on what has been observed so far, which agrees with one
    batch replay of the full history. */
module IncrementalReplay {
  import opened Common
  import opened Microstructure
  import opened ProtectionReplay

  const UNOBSERVED: Bar := Bar(None, None)

  /** The frame of day `d`: the days from `start` to the day after `d`, with every price from day
      `hidden` on masked out. */
  function Frame(h: seq<Bar>, start: nat, d: nat, hidden: nat): seq<Bar>
    requires start <= d < |h|
  {
    var end := if d + 2 <= |h| then d + 2 else |h|;
    seq(end - start, i requires 0 <= i < end - start => if start + i < hidden then h[start + i] else UNOBSERVED)
  }

  /** What the intraday phase of day `d` sees: its own bar included. */
  function IntradayFrame(h: seq<Bar>, start: nat, d: nat): seq<Bar>
    requires start <= d < |h|
  {
    Frame(h, start, d, d + 1)
  }

  /** What the opening phase of day `d` sees: nothing of day `d` itself. */
  function OpeningFrame(h: seq<Bar>, start: nat, d: nat): seq<Bar>
    requires start <= d < |h|
  {
    Frame(h, start, d, d)
  }

  // ---------- watcher on a frame ----------

  /** A trigger is found on a frame exactly when the full history has it before the hidden days. */
  lemma {:induction false} TriggerOnFrame(side: Side, price: real, h: seq<Bar>, start: nat, d: nat, hidden: nat, i: nat)
    requires start <= d < |h| && hidden <= d + 1
    requires i <= |Frame(h, start, d, hidden)|
    ensures FirstTrigger(side, price, Frame(h, start, d, hidden), i) ==
      match FirstTrigger(side, price, h, start + i)
      case None => None
      case Some(t) => if t < hidden then Some(t - start) else None
    ensures FirstTrigger(side, price, h, start + i).Some? ==>
      start + i <= FirstTrigger(side, price, h, start + i).value < |h|
    decreases |h| - i
  {
    var f := Frame(h, start, d, hidden);
    if i < |f| {
      TriggerOnFrame(side, price, h, start, d, hidden, i + 1);
    } else {
      TriggerIsLater(side, price, h, start + i);
    }
  }

  lemma {:induction false} TriggerIsLater(side: Side, price: real, h: seq<Bar>, i: nat)
    ensures FirstTrigger(side, price, h, i).Some? ==> i <= FirstTrigger(side, price, h, i).value < |h|
    decreases |h| - i
  {
    if i < |h| && !Triggers(side, price, h[i]) {
      TriggerIsLater(side, price, h, i + 1);
    }
  }

  /** On every day up to `d`, the frame and the full history agree on the trailing stop being in force. */
  lemma ActiveOnFrame(p: Protection, s: Settings, h: seq<Bar>, start: nat, d: nat, hidden: nat, i: nat)
    requires start <= start + i <= d < |h| && d <= hidden <= d + 1
    ensures TrailingActive(p, s, Watch(p, Frame(h, start, d, hidden), 0), i)
       <==> TrailingActive(p, s, Watch(p, h, start), start + i)
  {
    if p.activation.Some? {
      TriggerOnFrame(p.side, p.activation.value, h, start, d, hidden, 0);
    }
  }

  // ---------- scan on a frame ----------

  ghost predicate ShiftedExit(masked: Option<ExitRow>, full: Option<ExitRow>, start: nat, d: nat) {
    masked == match full
      case None => None
      case Some(x) => if start <= x.day <= d then Some(x.(day := x.day - start)) else None
  }

  lemma {:induction false} ScanOnFrame(p: Protection, s: Settings, h: seq<Bar>, start: nat, d: nat, i: nat,
                                       extreme: real)
    requires start <= d < |h| && p.takeProfit.Some?
    ensures ShiftedExit(ScanFrom(p, s, Watch(p, IntradayFrame(h, start, d), 0), IntradayFrame(h, start, d), i, extreme),
                        ScanFrom(p, s, Watch(p, h, start), h, start + i, extreme), start, d)
    decreases |h| - i
  {
    var f := IntradayFrame(h, start, d);
    if start + i <= d {
      assert f[i] == h[start + i];
      ActiveOnFrame(p, s, h, start, d, d + 1, i);
      ScanOnFrame(p, s, h, start, d, i + 1, extreme);
      ScanOnFrame(p, s, h, start, d, i + 1, NextExtreme(p.side, extreme, h[start + i]));
    } else {
      NothingBeyond(p, s, Watch(p, f, 0), f, i, extreme, d + 1 - start);
      if ScanFrom(p, s, Watch(p, h, start), h, start + i, extreme).Some? {
        ExitMatchesProtection(p, s, Watch(p, h, start), h, start + i, extreme);
      }
    }
  }

  lemma {:induction false} NothingBeyond(p: Protection, s: Settings, w: Watcher, f: seq<Bar>, i: nat, extreme: real,
                                         from: nat)
    requires p.takeProfit.Some? && from <= i && forall j :: from <= j < |f| ==> f[j] == UNOBSERVED
    ensures ScanFrom(p, s, w, f, i, extreme) == None
    decreases |f| - i
  {
    if i < |f| {
      NothingBeyond(p, s, w, f, i + 1, extreme, from);
    }
  }

  /** Incremental equals batch: on the frame of day `d`, watcher and scan report an exit exactly when
      the full history exits on a day up to `d`, and then with the same day, price and reason. */
  lemma IncrementalEqualsBatch(p: Protection, s: Settings, h: seq<Bar>, start: nat, d: nat)
    requires start <= d < |h|
    ensures ShiftedExit(Replay(p, s, IntradayFrame(h, start, d), 0), Replay(p, s, h, start), start, d)
    ensures Replay(p, s, h, start).Some? ==> start <= Replay(p, s, h, start).value.day < |h|
  {
    if p.fillPrice > 0.0 && p.takeProfit.Some? {
      var first := FirstScanned(s, 0);
      ScanOnFrame(p, s, h, start, d, first, p.fillPrice);
      if Replay(p, s, h, start).Some? {
        ExitMatchesProtection(p, s, Watch(p, h, start), h, start + first, p.fillPrice);
      }
    }
  }

  // ---------- the daily loop ----------

  datatype DailyError = UnconsumedEarlierExit | IncompletePath

  /** An observed bar the ledger accepts. */
  predicate Tradable(b: Bar) {
    Complete(b) && b.high.value > 0.0 && b.low.value > 0.0
  }

  /** A bar is accepted exactly when both its prices are there and positive. */
  lemma TradableIff(b: Bar)
    ensures Tradable(b) <==> b.high.Some? && b.low.Some? && b.high.value > 0.0 && b.low.value > 0.0
  {
  }

  /** The first day whose bar cannot be used, from `i` on. */
  function FirstGap(h: seq<Bar>, i: nat): (g: nat)
    ensures i <= g && (i <= |h| ==> g <= |h|) && (g < |h| ==> !Tradable(h[g]))
    ensures forall j :: i <= j < g && j < |h| ==> Tradable(h[j])
    decreases |h| - i
  {
    if i < |h| && Tradable(h[i]) then FirstGap(h, i + 1) else i
  }

  /** The intraday observation of one position on day `d`, for a history whose batch replay is `batch`
      and whose first unusable bar is `gap`. */
  function Verdict(batch: Option<ExitRow>, gap: nat, d: nat): Result<Option<ExitRow>, DailyError> {
    if gap <= d then Err(IncompletePath)
    else if batch.Some? && batch.value.day < d then Err(UnconsumedEarlierExit)
    else if batch.Some? && batch.value.day == d then Ok(batch)
    else Ok(None)
  }

  /** The ledger knows only the frame of the day, and still reaches the verdict of the full history. */
  method ObserveIntraday(p: Protection, s: Settings, h: seq<Bar>, start: nat, d: nat)
    returns (r: Result<Option<ExitRow>, DailyError>)
    requires start <= d < |h|
    ensures r == Verdict(Replay(p, s, h, start), FirstGap(h, start), d)
  {
    IncrementalEqualsBatch(p, s, h, start, d);
    var frame := IntradayFrame(h, start, d);
    var w := RunWatcher(p, frame, 0);
    for j := 0 to d + 1 - start
      invariant FirstGap(h, start) == FirstGap(h, start + j)
    {
      if !Tradable(frame[j]) {
        return Err(IncompletePath);
      }
    }
    var x := RunScan(p, s, w, frame, 0);
    if x.Some? {
      if start + x.value.day < d {
        return Err(UnconsumedEarlierExit);
      }
      return Ok(Some(x.value.(day := start + x.value.day)));
    }
    r := Ok(None);
  }

  /** One position through consecutive ledger days, observing each and stopping at the first exit. The
      result is the batch replay: no exit is ever found late, and only an unusable bar on or before the
      exit day can stop the loop. */
  method DailyReplay(p: Protection, s: Settings, h: seq<Bar>, start: nat)
    returns (r: Result<Option<ExitRow>, DailyError>)
    requires start < |h|
    ensures var batch := Replay(p, s, h, start);
      var gap := FirstGap(h, start);
      r == if gap < |h| && (batch.None? || gap <= batch.value.day) then Err(IncompletePath) else Ok(batch)
  {
    IncrementalEqualsBatch(p, s, h, start, start);
    for d := start to |h|
      invariant d > start ==> FirstGap(h, start) >= d
      invariant Replay(p, s, h, start).Some? ==> d <= Replay(p, s, h, start).value.day < |h|
    {
      r := ObserveIntraday(p, s, h, start, d);
      if r.Err? || r.value.Some? {
        return;
      }
    }
    r := Ok(None);
  }
}
