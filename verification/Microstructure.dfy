/** Which protection closes a position inside one daily bar. */
module Microstructure {
  import opened Common

  /** A protection level; a disabled one is infinitely far away on its own side. */
  datatype Level = NegInf | At(price: real) | PosInf

  predicate LevelLe(a: Level, b: Level) {
    a == NegInf || b == PosInf || (a.At? && b.At? && a.price <= b.price)
  }

  function LevelMin(a: Level, b: Level): Level {
    if LevelLe(a, b) then a else b
  }

  function LevelMax(a: Level, b: Level): Level {
    if LevelLe(a, b) then b else a
  }

  /** When both the take-profit and the trailing stop are touched; a random priority carries its draw. */
  datatype Priority = Conservative | TsFirst | TpFirst | Random(takesProfit: bool)

  predicate ProfitFirst(priority: Priority) {
    priority == TpFirst || priority == Random(true)
  }

  datatype Reason = TakeProfit | TrailingStop | InitialStop

  datatype Resolution = NoExit | Exit(price: Level, reason: Reason)

  /** The branches of the resolution, in their order. */
  function ResolveIntrabarExit(
    dayHigh: real, dayLow: real, takeProfit: Level, trailingStop: Level, initialStop: Option<real>,
    priority: Priority, side: Side): (r: Resolution)
  {
    var short := side == Sell;
    var hitInitialStop := initialStop.Some? &&
      if short then dayHigh >= initialStop.value else dayLow <= initialStop.value;
    var hitTp := if short then LevelLe(At(dayLow), takeProfit) else LevelLe(takeProfit, At(dayHigh));
    var hitTs := if short then LevelLe(trailingStop, At(dayHigh)) else LevelLe(At(dayLow), trailingStop);
    if hitInitialStop &&
       (hitTs || if short then LevelLe(At(initialStop.value), trailingStop)
                 else LevelLe(trailingStop, At(initialStop.value)))
    then
      var chosen := if short then LevelMin(trailingStop, At(initialStop.value))
                    else LevelMax(trailingStop, At(initialStop.value));
      Exit(chosen, InitialStop)
    else if !hitTp && !hitTs then NoExit
    else if hitTp && !hitTs then Exit(takeProfit, TakeProfit)
    else if hitTs && !hitTp then Exit(trailingStop, TrailingStop)
    else if ProfitFirst(priority) then Exit(takeProfit, TakeProfit)
    else Exit(trailingStop, TrailingStop)
  }

  /** Is the level touched by the adverse side of the bar (a stop)? */
  ghost predicate StopTouched(dayHigh: real, dayLow: real, stop: Level, side: Side) {
    if side == Sell then LevelLe(stop, At(dayHigh)) else LevelLe(At(dayLow), stop)
  }

  ghost predicate ProfitTouched(dayHigh: real, dayLow: real, takeProfit: Level, side: Side) {
    if side == Sell then LevelLe(At(dayLow), takeProfit) else LevelLe(takeProfit, At(dayHigh))
  }

  ghost function Protective(initialStop: Option<real>, side: Side): Level {
    if initialStop.Some? then At(initialStop.value) else if side == Sell then PosInf else NegInf
  }

  /** What the branches decide: a touched initial stop always wins, at the tighter of the two stops;
      otherwise a touched trailing stop wins unless the take-profit is touched and goes first. */
  lemma ResolutionMeaning(
    dayHigh: real, dayLow: real, takeProfit: Level, trailingStop: Level, initialStop: Option<real>,
    priority: Priority, side: Side)
    ensures
      var r := ResolveIntrabarExit(dayHigh, dayLow, takeProfit, trailingStop, initialStop, priority, side);
      var initial := Protective(initialStop, side);
      var onStop := StopTouched(dayHigh, dayLow, trailingStop, side);
      var onProfit := ProfitTouched(dayHigh, dayLow, takeProfit, side);
      if StopTouched(dayHigh, dayLow, initial, side) then
        r.Exit? && r.reason == InitialStop &&
        r.price == if side == Sell then LevelMin(trailingStop, initial) else LevelMax(trailingStop, initial)
      else if onStop && !(onProfit && ProfitFirst(priority)) then
        r.Exit? && r.reason == TrailingStop && r.price == trailingStop
      else if onProfit then
        r.Exit? && r.reason == TakeProfit && r.price == takeProfit
      else r == NoExit
  {
  }

  function Negated(l: Level): Level {
    match l
    case NegInf => PosInf
    case PosInf => NegInf
    case At(p) => At(-p)
  }

  function Mirrored(r: Resolution): Resolution {
    if r.Exit? then Exit(Negated(r.price), r.reason) else r
  }

  /** A short is exactly a long seen with every price negated. */
  lemma ShortMirrorsLong(
    dayHigh: real, dayLow: real, takeProfit: Level, trailingStop: Level, initialStop: Option<real>, priority: Priority)
    ensures
      ResolveIntrabarExit(dayHigh, dayLow, takeProfit, trailingStop, initialStop, priority, Sell) ==
      Mirrored(ResolveIntrabarExit(-dayLow, -dayHigh, Negated(takeProfit), Negated(trailingStop),
        if initialStop.Some? then Some(-initialStop.value) else None, priority, Buy))
  {
  }

  /** A long bar with both stops and the take-profit set, in prices: the initial stop first, at the tighter
      stop; then, if both other levels are touched, the priority decides; then whichever is touched. */
  lemma LongBar(high: real, low: real, takeProfit: real, trailing: real, initial: Option<real>, priority: Priority)
    ensures ResolveIntrabarExit(high, low, At(takeProfit), At(trailing), initial, priority, Buy) ==
      if initial.Some? && low <= initial.value then
        Exit(At(if trailing >= initial.value then trailing else initial.value), InitialStop)
      else if low <= trailing && high >= takeProfit then
        match priority
        case Conservative => Exit(At(trailing), TrailingStop)
        case TsFirst => Exit(At(trailing), TrailingStop)
        case TpFirst => Exit(At(takeProfit), TakeProfit)
        case Random(draw) => if draw then Exit(At(takeProfit), TakeProfit) else Exit(At(trailing), TrailingStop)
      else if low <= trailing then Exit(At(trailing), TrailingStop)
      else if high >= takeProfit then Exit(At(takeProfit), TakeProfit)
      else NoExit
  {
  }

  /** The same bar for a short: the stops are above, the take-profit below. */
  lemma ShortBar(high: real, low: real, takeProfit: real, trailing: real, initial: Option<real>, priority: Priority)
    ensures ResolveIntrabarExit(high, low, At(takeProfit), At(trailing), initial, priority, Sell) ==
      if initial.Some? && high >= initial.value then
        Exit(At(if trailing <= initial.value then trailing else initial.value), InitialStop)
      else if high >= trailing && low <= takeProfit then
        match priority
        case Conservative => Exit(At(trailing), TrailingStop)
        case TsFirst => Exit(At(trailing), TrailingStop)
        case TpFirst => Exit(At(takeProfit), TakeProfit)
        case Random(draw) => if draw then Exit(At(takeProfit), TakeProfit) else Exit(At(trailing), TrailingStop)
      else if high >= trailing then Exit(At(trailing), TrailingStop)
      else if low <= takeProfit then Exit(At(takeProfit), TakeProfit)
      else NoExit
  {
  }

  /** A level switched off to its own side is never touched. */
  lemma DisabledLevels(high: real, low: real, takeProfit: Level, trailing: Level, initial: Option<real>,
                       priority: Priority)
    ensures
      var long := ResolveIntrabarExit(high, low, PosInf, trailing, initial, priority, Buy);
      var short := ResolveIntrabarExit(high, low, NegInf, trailing, initial, priority, Sell);
      (long.Exit? ==> long.reason != TakeProfit) && (short.Exit? ==> short.reason != TakeProfit)
    ensures
      var long := ResolveIntrabarExit(high, low, takeProfit, NegInf, initial, priority, Buy);
      var short := ResolveIntrabarExit(high, low, takeProfit, PosInf, initial, priority, Sell);
      (long.Exit? ==> long.reason != TrailingStop) && (short.Exit? ==> short.reason != TrailingStop) &&
      (long.Exit? && long.reason == InitialStop ==> initial.Some? && long.price == At(initial.value)) &&
      (short.Exit? && short.reason == InitialStop ==> initial.Some? && short.price == At(initial.value))
  {
  }
}
