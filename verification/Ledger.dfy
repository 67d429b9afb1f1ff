/** The incremental cash and positions ledger: one native account through consecutive sessions.

    Trading days are indices into the ledger calendar. What the engine decides from prices, budgets and
    cost models (accept or refuse, executed quantity, cost rates) arrives as the `answer` of a row. */
module Ledger {
  import opened Common

  /** Quantities up to this are nothing. */
  const QUANTITY_EPSILON: real := 0.000000001

  datatype Config = Config(
    initialEquity: real,
    cashAccount: bool,
    settlementDays: nat,
    annualRate: real,
    maxPositions: nat,
    dayCount: nat,
    entrySide: Side)

  datatype Position = Position(side: Side, quantity: real, entryPrice: real, entryCost: real, entryCashFlow: real)

  datatype Phase = OpenPhase | IntradayPhase | ClosePhase

  /** A closed trade as the engine records it. */
  datatype Trade = Trade(
    symbol: string, day: int, quantity: real, entryCost: real, proceeds: real, borrowCost: real, pnl: real)

  datatype Event = Opened(symbol: string, lot: Lot) | Closed(trade: Trade)

  /** The three quantities a position is accounted by. */
  datatype Lot = Lot(quantity: real, cost: real, flow: real)

  datatype DayRow = DayRow(day: int, interest: real)

  /** Cash, what is still to settle (per day index), holdings and the log of trades. */
  datatype Account = Account(
    settled: real,
    unsettled: real,
    pending: seq<real>,
    positions: map<string, Position>,
    events: seq<Event>)

  datatype Clock = Clock(
    currentDay: Option<int>,
    lastFinished: Option<int>,
    phase: Phase,
    atClose: bool,
    interestCharged: bool,
    todayInterest: real,
    interest: real,
    daily: seq<DayRow>)

  datatype State = State(account: Account, clock: Clock, failed: bool)

  datatype EntryAnswer = Declined | Booked(quantity: real, price: real, costPct: real, fixed: real)

  datatype EntryRow = EntryRow(symbol: string, decisionDay: int, side: Side, filledQty: real, answer: EntryAnswer)

  datatype ExitAnswer = Refused | Charged(rate: real, fixed: real, borrow: real)

  datatype ExitRow = ExitRow(
    symbol: string, quantity: Option<real>, price: real, day: int, reason: string, answer: ExitAnswer)

  datatype Error =
    | NoActiveDay | PreviousDayOpen | DayNotInCalendar | NotConsecutive
    | WrongPhase | NotForThisSession | WrongSide | DuplicateSymbol | OverCapacity | QuantityChanged
    | UnknownOrDuplicateExit | InvalidQuantity | InvalidExit | ReasonRequired | EngineRefused
    | CloseNotObserved | PositionsRemain

  function InitialState(c: Config): State {
    State(Account(c.initialEquity, 0.0, seq(c.dayCount, _ => 0.0), map[], []),
          Clock(None, None, OpenPhase, false, false, 0.0, 0.0, []), false)
  }

  // ---------- sessions ----------

  /** T+N settlement of the day: release what is pending, never leaving unsettled cash negative. */
  function Settle(a: Account, day: nat): Account
    requires day < |a.pending|
  {
    var amount := a.pending[day];
    var popped := a.(pending := a.pending[day := 0.0]);
    if amount != 0.0
    then popped.(settled := a.settled + amount, unsettled := Max(a.unsettled - amount, 0.0))
    else popped
  }

  function BeginDay(c: Config, st: State, day: int): (State, Option<Error>) {
    var k := st.clock;
    if st.failed || k.currentDay.Some? then (st, Some(PreviousDayOpen))
    else if !(0 <= day < c.dayCount && day < |st.account.pending|) then (st, Some(DayNotInCalendar))
    else if k.lastFinished.Some? && day != k.lastFinished.value + 1 then (st, Some(NotConsecutive))
    else
      (State(Settle(st.account, day),
             k.(currentDay := Some(day), atClose := false, phase := OpenPhase, interestCharged := false), false),
       None)
  }

  /** Daily interest on a cash debit. */
  function InterestCharge(c: Config, settled: real): real {
    if c.annualRate <= 0.0 || settled >= 0.0 then 0.0 else -settled * c.annualRate / 252.0
  }

  function MarkClose(c: Config, st: State): (State, Option<Error>) {
    if st.clock.currentDay.None? || st.failed then (st, Some(NoActiveDay))
    else
      var k := st.clock.(atClose := true, phase := ClosePhase);
      if k.interestCharged then (st.(clock := k), None)
      else
        var charge := InterestCharge(c, st.account.settled);
        (st.(account := st.account.(settled := st.account.settled - charge),
             clock := k.(interest := k.interest + charge, interestCharged := true, todayInterest := charge)), None)
  }

  function FinishDay(st: State): (State, Option<Error>) {
    var k := st.clock;
    if k.currentDay.None? || st.failed then (st, Some(NoActiveDay))
    else if !k.atClose || !k.interestCharged then (st, Some(CloseNotObserved))
    else (st.(clock := k.(daily := k.daily + [DayRow(k.currentDay.value, k.todayInterest)],
                          lastFinished := k.currentDay, currentDay := None)), None)
  }

  // ---------- entries ----------

  /** The position and the signed cash flow of an accepted entry, net of costs. */
  function EntryPosition(side: Side, a: EntryAnswer): Position
    requires a.Booked?
  {
    var cost := a.quantity * (a.price * (1.0 + a.costPct));
    var flow := if side == Sell then a.quantity * a.price * (1.0 - a.costPct) - a.fixed else -(cost + a.fixed);
    Position(side, a.quantity, a.price, cost, flow)
  }

  function LotOf(p: Position): Lot {
    Lot(p.quantity, p.entryCost, p.entryCashFlow)
  }

  function OpenOne(c: Config, a: Account, e: EntryRow): (Account, Option<Error>) {
    if e.symbol in a.positions then (a, Some(DuplicateSymbol))
    else if |a.positions| >= c.maxPositions then (a, Some(OverCapacity))
    else match e.answer
      case Declined => (a, None)
      case Booked(quantity, _, _, _) =>
        if quantity <= QUANTITY_EPSILON then (a, None)
        else
          var p := EntryPosition(e.side, e.answer);
          (a.(positions := a.positions[e.symbol := p], settled := a.settled + p.entryCashFlow,
              events := a.events + [Opened(e.symbol, LotOf(p))]),
           if Abs(quantity - e.filledQty) > 0.000001 then Some(QuantityChanged) else None)
  }

  function OpenAll(c: Config, a: Account, es: seq<EntryRow>, n: nat): (Account, Option<Error>)
    requires n <= |es|
  {
    if n == 0 then (a, None)
    else
      var (a1, err) := OpenAll(c, a, es, n - 1);
      if err.Some? then (a1, err) else OpenOne(c, a1, es[n - 1])
  }

  /** The first of rows `i ..` that is not an entry for this session, on the side of the ledger. */
  function EntryGuard(c: Config, day: int, es: seq<EntryRow>, i: nat): Option<Error>
    decreases |es| - i
  {
    if i >= |es| then None
    else if es[i].decisionDay + 1 != day then Some(NotForThisSession)
    else if es[i].side != c.entrySide then Some(WrongSide)
    else EntryGuard(c, day, es, i + 1)
  }

  function ExecuteApproved(c: Config, st: State, es: seq<EntryRow>): (State, Option<Error>) {
    if st.clock.currentDay.None? || st.failed then (st, Some(NoActiveDay))
    else if st.clock.phase != OpenPhase then (st, Some(WrongPhase))
    else
      var guard := EntryGuard(c, st.clock.currentDay.value, es, 0);
      if guard.Some? then (st, guard)
      else
        var (a, err) := OpenAll(c, st.account, es, |es|);
        (st.(account := a, failed := err.Some?), err)
  }

  // ---------- exits ----------

  /** What leaves or reaches the account when `quantity` is closed, net of fees. */
  function Proceeds(side: Side, quantity: real, price: real, a: ExitAnswer): real
    requires a.Charged?
  {
    if side == Sell then -(quantity * price * (1.0 + a.rate) + a.fixed)
    else quantity * price * (1.0 - a.rate) - a.fixed
  }

  function BorrowCost(side: Side, a: ExitAnswer): real
    requires a.Charged?
  {
    if side == Sell then a.borrow else 0.0
  }

  function ExitQuantity(p: Position, x: ExitRow): real {
    if x.quantity.Some? then x.quantity.value else p.quantity
  }

  /** The closed part and the remainder of a position, splitting cost and cash flow pro rata. */
  function Split(p: Position, quantity: real): (Position, Option<Position>)
    requires 0.0 < quantity <= p.quantity
  {
    if quantity == p.quantity then (p, None)
    else
      var fraction := quantity / p.quantity;
      (p.(quantity := quantity, entryCost := p.entryCost * fraction, entryCashFlow := p.entryCashFlow * fraction),
       Some(p.(quantity := p.quantity - quantity, entryCost := p.entryCost * (1.0 - fraction),
               entryCashFlow := p.entryCashFlow * (1.0 - fraction))))
  }

  /** Book a cash amount: at once on a margin account, through settlement on a cash account. */
  function Credit(c: Config, a: Account, day: int, proceeds: real, borrow: real): Account {
    if !c.cashAccount then a.(settled := a.settled + proceeds - borrow)
    else
      var due := day + c.settlementDays;
      a.(unsettled := a.unsettled + proceeds - borrow,
         pending := if 0 <= due < |a.pending| then a.pending[due := a.pending[due] + proceeds] else a.pending)
  }

  predicate Closable(a: Account, x: ExitRow) {
    x.symbol in a.positions && 0.0 < ExitQuantity(a.positions[x.symbol], x) <= a.positions[x.symbol].quantity
  }

  function TradeOf(part: Position, x: ExitRow): Trade
    requires x.answer.Charged?
  {
    var proceeds, borrow := Proceeds(part.side, part.quantity, x.price, x.answer), BorrowCost(part.side, x.answer);
    Trade(x.symbol, x.day, part.quantity, part.entryCost, proceeds, borrow, part.entryCashFlow + proceeds - borrow)
  }

  function CloseOne(c: Config, a: Account, x: ExitRow): (Account, Option<Error>)
    requires Closable(a, x)
  {
    var (part, rest) := Split(a.positions[x.symbol], ExitQuantity(a.positions[x.symbol], x));
    match x.answer
    case Refused => (a.(positions := a.positions[x.symbol := part]), Some(EngineRefused))
    case Charged(_, _, _) =>
      var trade := TradeOf(part, x);
      (Credit(c, a, x.day, trade.proceeds, trade.borrowCost).(
         positions := if rest.Some? then a.positions[x.symbol := rest.value] else a.positions - {x.symbol},
         events := a.events + [Closed(trade)]),
       None)
  }

  function CloseAll(c: Config, a: Account, xs: seq<ExitRow>, n: nat): (Account, Option<Error>)
    requires n <= |xs|
  {
    if n == 0 then (a, None)
    else
      var (a1, err) := CloseAll(c, a, xs, n - 1);
      if err.Some? then (a1, err)
      else if Closable(a1, xs[n - 1]) then CloseOne(c, a1, xs[n - 1])
      else (a1, Some(UnknownOrDuplicateExit))
  }

  /** The first of rows `i ..` that cannot be booked today, given the rows before it. */
  function ExitGuard(a: Account, day: int, xs: seq<ExitRow>, i: nat): Option<Error>
    decreases |xs| - i
  {
    if i >= |xs| then None
    else if xs[i].symbol !in a.positions || exists j :: 0 <= j < i && xs[j].symbol == xs[i].symbol then
      Some(UnknownOrDuplicateExit)
    else if !Closable(a, xs[i]) then Some(InvalidQuantity)
    else if xs[i].day != day || xs[i].price <= 0.0 then Some(InvalidExit)
    else if xs[i].reason == "" then Some(ReasonRequired)
    else ExitGuard(a, day, xs, i + 1)
  }

  function CloseResolved(c: Config, st: State, xs: seq<ExitRow>, phase: Phase): (State, Option<Error>) {
    if st.clock.currentDay.None? || st.failed then (st, Some(NoActiveDay))
    else if (st.clock.phase != OpenPhase && phase == OpenPhase) || (st.clock.atClose && phase != ClosePhase) then
      (st, Some(WrongPhase))
    else
      var guard := ExitGuard(st.account, st.clock.currentDay.value, xs, 0);
      if guard.Some? then (st, guard)
      else
        var (a, err) := CloseAll(c, st.account, xs, |xs|);
        (State(a, st.clock.(phase := phase, atClose := st.clock.atClose || phase == ClosePhase), err.Some?), err)
  }

  // ---------- the object ----------

  class OraclePortfolioLedger {
    const config: Config
    var settled: real
    var unsettled: real
    var pending: seq<real>
    var positions: map<string, Position>
    var events: seq<Event>
    var currentDay: Option<int>
    var lastFinished: Option<int>
    var phase: Phase
    var atClose: bool
    var interestCharged: bool
    var todayInterest: real
    var interest: real
    var daily: seq<DayRow>
    var failed: bool

    /** A short ledger requires a margin account. */
    constructor (c: Config)
      requires c.entrySide == Sell ==> !c.cashAccount
      ensures config == c && Value() == InitialState(c)
    {
      config := c;
      settled, unsettled, pending := c.initialEquity, 0.0, seq(c.dayCount, _ => 0.0);
      positions, events, daily := map[], [], [];
      currentDay, lastFinished, phase := None, None, OpenPhase;
      atClose, interestCharged, todayInterest, interest, failed := false, false, 0.0, 0.0, false;
    }

    function Books(): Account
      reads this
    {
      Account(settled, unsettled, pending, positions, events)
    }

    function Time(): Clock
      reads this
    {
      Clock(currentDay, lastFinished, phase, atClose, interestCharged, todayInterest, interest, daily)
    }

    function Value(): State
      reads this
    {
      State(Books(), Time(), failed)
    }

    method ApplySettlements(day: nat)
      requires day < |pending|
      modifies this`settled, this`unsettled, this`pending
      ensures Books() == Settle(old(Books()), day)
    {
      var amount := pending[day];
      pending := pending[day := 0.0];
      if amount != 0.0 {
        settled := settled + amount;
        unsettled := Max(unsettled - amount, 0.0);
      }
    }

    method Begin(day: int) returns (err: Option<Error>)
      modifies this
      ensures (Value(), err) == BeginDay(config, old(Value()), day)
    {
      if failed || currentDay.Some? {
        return Some(PreviousDayOpen);
      }
      if !(0 <= day < config.dayCount && day < |pending|) {
        return Some(DayNotInCalendar);
      }
      if lastFinished.Some? && day != lastFinished.value + 1 {
        return Some(NotConsecutive);
      }
      currentDay, atClose := Some(day), false;
      phase, interestCharged := OpenPhase, false;
      ApplySettlements(day);
      err := None;
    }

    /** The engine's entry of one candidate row. */
    method TryOpen(e: EntryRow) returns (err: Option<Error>)
      modifies this`settled, this`positions, this`events
      ensures (Books(), err) == OpenOne(config, old(Books()), e)
    {
      if e.symbol in positions {
        return Some(DuplicateSymbol);
      }
      if |positions| >= config.maxPositions {
        return Some(OverCapacity);
      }
      err := None;
      if e.answer.Booked? && e.answer.quantity > QUANTITY_EPSILON {
        var p := EntryPosition(e.side, e.answer);
        settled := settled + p.entryCashFlow;
        positions := positions[e.symbol := p];
        events := events + [Opened(e.symbol, LotOf(p))];
        if Abs(e.answer.quantity - e.filledQty) > 0.000001 {
          err := Some(QuantityChanged);
        }
      }
    }

    method OpenRows(es: seq<EntryRow>) returns (err: Option<Error>)
      modifies this`settled, this`positions, this`events
      ensures (Books(), err) == OpenAll(config, old(Books()), es, |es|)
    {
      err := None;
      for i := 0 to |es|
        invariant (Books(), err) == OpenAll(config, old(Books()), es, i) && err.None?
      {
        err := TryOpen(es[i]);
        if err.Some? {
          StopsAtError(config, old(Books()), es, i + 1);
          return;
        }
      }
    }

    /** Consume approved entries at the open of the session after their decision. */
    method Execute(es: seq<EntryRow>) returns (err: Option<Error>)
      modifies this
      ensures (Value(), err) == ExecuteApproved(config, old(Value()), es)
    {
      if currentDay.None? || failed {
        return Some(NoActiveDay);
      }
      if phase != OpenPhase {
        return Some(WrongPhase);
      }
      err := EntryGuard(config, currentDay.value, es, 0);
      if err.Some? {
        return;
      }
      failed := true;
      err := OpenRows(es);
      if err.None? {
        failed := false;
      }
    }

    method CreditCash(day: int, proceeds: real, borrow: real)
      modifies this`settled, this`unsettled, this`pending
      ensures Books() == Credit(config, old(Books()), day, proceeds, borrow)
    {
      if config.cashAccount {
        var due := day + config.settlementDays;
        unsettled := unsettled + proceeds - borrow;
        if 0 <= due < |pending| {
          pending := pending[due := pending[due] + proceeds];
        }
      } else {
        settled := settled + proceeds - borrow;
      }
    }

    /** Close one resolved row, keeping the remainder of a partial exit. A refusal of the engine leaves
        only the part it was given, and the ledger marked as failed. */
    method TryClose(x: ExitRow) returns (err: Option<Error>)
      requires Closable(Books(), x)
      modifies this`settled, this`unsettled, this`pending, this`positions, this`events, this`failed
      ensures (Books(), err) == CloseOne(config, old(Books()), x) && failed == err.Some?
    {
      var position := positions[x.symbol];
      var (part, rest) := Split(position, ExitQuantity(position, x));
      failed := true;
      if x.answer.Refused? {
        positions := positions[x.symbol := part];
        return Some(EngineRefused);
      }
      var trade := TradeOf(part, x);
      CreditCash(x.day, trade.proceeds, trade.borrowCost);
      events := events + [Closed(trade)];
      positions := if rest.Some? then positions[x.symbol := rest.value] else positions - {x.symbol};
      failed := false;
      err := None;
    }

    method CloseRows(xs: seq<ExitRow>, ghost day: int) returns (err: Option<Error>)
      requires !failed && ExitGuard(Books(), day, xs, 0).None?
      modifies this`settled, this`unsettled, this`pending, this`positions, this`events, this`failed
      ensures (Books(), err) == CloseAll(config, old(Books()), xs, |xs|) && failed == err.Some?
    {
      err := None;
      for i := 0 to |xs|
        invariant (Books(), err) == CloseAll(config, old(Books()), xs, i) && err.None? && !failed
      {
        StillClosable(config, old(Books()), day, xs, i, i);
        err := TryClose(xs[i]);
        if err.Some? {
          ExitsStopAtError(config, old(Books()), xs, i + 1);
          return;
        }
      }
    }

    /** Book exits already resolved for today; nothing is booked unless every row is causal. */
    method Close(xs: seq<ExitRow>, exitPhase: Phase) returns (err: Option<Error>)
      modifies this
      ensures (Value(), err) == CloseResolved(config, old(Value()), xs, exitPhase)
    {
      if currentDay.None? || failed {
        return Some(NoActiveDay);
      }
      if (phase != OpenPhase && exitPhase == OpenPhase) || (atClose && exitPhase != ClosePhase) {
        return Some(WrongPhase);
      }
      err := ExitGuard(Books(), currentDay.value, xs, 0);
      if err.Some? {
        return;
      }
      phase := exitPhase;
      if exitPhase == ClosePhase {
        atClose := true;
      }
      err := CloseRows(xs, currentDay.value);
    }

    method Mark() returns (err: Option<Error>)
      modifies this
      ensures (Value(), err) == MarkClose(config, old(Value()))
    {
      if currentDay.None? || failed {
        return Some(NoActiveDay);
      }
      atClose, phase := true, ClosePhase;
      if !interestCharged {
        var charge := InterestCharge(config, settled);
        settled := settled - charge;
        interest := interest + charge;
        interestCharged := true;
        todayInterest := charge;
      }
      err := None;
    }

    method Finish() returns (err: Option<Error>)
      modifies this
      ensures (Value(), err) == FinishDay(old(Value()))
    {
      if currentDay.None? || failed {
        return Some(NoActiveDay);
      }
      if !atClose || !interestCharged {
        return Some(CloseNotObserved);
      }
      daily := daily + [DayRow(currentDay.value, todayInterest)];
      lastFinished, currentDay := currentDay, None;
      err := None;
    }

    method Reconcile() returns (r: Result<real, Error>)
      ensures r == ReconciliationError(config, Value())
    {
      if positions != map[] {
        return Err(PositionsRemain);
      }
      var pnl := 0.0;
      for i := 0 to |events|
        invariant pnl == Pnl(events[..i])
      {
        assert events[..i + 1][..i] == events[..i];
        if events[i].Closed? {
          pnl := pnl + events[i].trade.pnl;
        }
      }
      assert events[..|events|] == events;
      r := Ok(settled + unsettled - (config.initialEquity + pnl - interest));
    }
  }

  function PnlOf(e: Event): real {
    match e
    case Opened(_, _) => 0.0
    case Closed(t) => t.pnl
  }

  function Pnl(events: seq<Event>): real {
    if events == [] then 0.0 else Pnl(events[..|events| - 1]) + PnlOf(events[|events| - 1])
  }

  /** Cash left over after initial equity, realised profits and interest, once flat. */
  function ReconciliationError(c: Config, st: State): Result<real, Error> {
    if st.account.positions != map[] then Err(PositionsRemain)
    else Ok(st.account.settled + st.account.unsettled - (c.initialEquity + Pnl(st.account.events) - st.clock.interest))
  }

  /** What one share gains before costs. */
  function PriceGain(side: Side, entryPrice: real, exitPrice: real): real {
    if side == Sell then entryPrice - exitPrice else exitPrice - entryPrice
  }

  /** The recorded profit of a position opened and closed in full is its price gain less the costs of
      both legs and the borrow, whatever the side. */
  lemma RoundTripProfit(side: Side, a: EntryAnswer, x: ExitRow)
    requires a.Booked? && x.answer.Charged?
    ensures TradeOf(EntryPosition(side, a), x).pnl ==
      a.quantity * PriceGain(side, a.price, x.price)
      - (a.quantity * a.price * a.costPct + a.fixed)
      - (a.quantity * x.price * x.answer.rate + x.answer.fixed)
      - (if side == Sell then x.answer.borrow else 0.0)
    ensures var p := EntryPosition(side, a);
      p.side == side && p.quantity == a.quantity && p.entryPrice == a.price &&
      p.entryCost == a.quantity * a.price + a.quantity * a.price * a.costPct &&
      p.entryCashFlow ==
        match side
        case Buy => -(a.quantity * a.price) - (a.quantity * a.price * a.costPct + a.fixed)
        case Sell => a.quantity * a.price - (a.quantity * a.price * a.costPct + a.fixed)
  {
  }

  /** Interest is owed exactly on a debit, at the annual rate over 252 sessions. */
  lemma InterestOnDebit(c: Config, settled: real)
    ensures InterestCharge(c, settled) > 0.0 <==> c.annualRate > 0.0 && settled < 0.0
    ensures InterestCharge(c, settled) >= 0.0
    ensures InterestCharge(c, settled) > 0.0 ==> 252.0 * InterestCharge(c, settled) == c.annualRate * -settled
  {
    if c.annualRate > 0.0 && settled < 0.0 {
      assert -settled * c.annualRate > 0.0;
    }
  }

  /** Entries pass their guard exactly when all of them were decided on the previous session, on the side
      of the ledger. */
  lemma {:induction false} EntryGuardIff(c: Config, day: int, es: seq<EntryRow>, i: nat)
    ensures EntryGuard(c, day, es, i) == None <==>
      forall j :: i <= j < |es| ==> es[j].decisionDay == day - 1 && es[j].side == c.entrySide
    decreases |es| - i
  {
    if i < |es| {
      EntryGuardIff(c, day, es, i + 1);
    }
  }

  /** Once a row has failed, the later ones are not looked at. */
  lemma {:induction false} StopsAtError(c: Config, a: Account, es: seq<EntryRow>, n: nat)
    requires n <= |es| && OpenAll(c, a, es, n).1.Some?
    ensures OpenAll(c, a, es, |es|) == OpenAll(c, a, es, n)
    decreases |es| - n
  {
    if n < |es| {
      StopsAtError(c, a, es, n + 1);
    }
  }

  lemma {:induction false} ExitsStopAtError(c: Config, a: Account, xs: seq<ExitRow>, n: nat)
    requires n <= |xs| && CloseAll(c, a, xs, n).1.Some?
    ensures CloseAll(c, a, xs, |xs|) == CloseAll(c, a, xs, n)
    decreases |xs| - n
  {
    if n < |xs| {
      ExitsStopAtError(c, a, xs, n + 1);
    }
  }

  /** What an exit row asks of the position it names: a part of it, or all of it. */
  predicate AsksForHeld(a: Account, x: ExitRow) {
    x.symbol in a.positions &&
    match x.quantity
    case Some(q) => 0.0 < q <= a.positions[x.symbol].quantity
    case None => a.positions[x.symbol].quantity > 0.0
  }

  /** Exits pass their guard exactly when each names a held position once, for a part of it or all of it,
      today, at a positive price and for some reason. */
  lemma {:induction false} ExitGuardIff(a: Account, day: int, xs: seq<ExitRow>, i: nat)
    ensures ExitGuard(a, day, xs, i) == None <==>
      forall j :: i <= j < |xs| ==>
        AsksForHeld(a, xs[j]) && xs[j].day == day && xs[j].price > 0.0 && xs[j].reason != "" &&
        forall l :: 0 <= l < j ==> xs[l].symbol != xs[j].symbol
    decreases |xs| - i
  {
    if i < |xs| {
      ExitGuardIff(a, day, xs, i + 1);
    }
  }

  lemma {:induction false} ChargedRowsClose(c: Config, a: Account, day: int, xs: seq<ExitRow>, n: nat)
    requires n <= |xs| && ExitGuard(a, day, xs, 0).None?
    ensures CloseAll(c, a, xs, n).1 == None <==> forall i :: 0 <= i < n ==> xs[i].answer.Charged?
  {
    if n > 0 {
      ChargedRowsClose(c, a, day, xs, n - 1);
      StillClosable(c, a, day, xs, n - 1, n - 1);
    }
  }

  /** On an active day, exits are accepted exactly when their phase does not go back, no phase but the close
      follows the observed close, every row passes the guard and the engine charges every row. */
  lemma ExitsAcceptedIff(c: Config, st: State, xs: seq<ExitRow>, phase: Phase, day: int)
    requires !st.failed && st.clock.currentDay == Some(day)
    ensures CloseResolved(c, st, xs, phase).1 == None <==>
      (phase == OpenPhase ==> st.clock.phase == OpenPhase) && (st.clock.atClose ==> phase == ClosePhase) &&
      (forall j :: 0 <= j < |xs| ==>
        AsksForHeld(st.account, xs[j]) && xs[j].day == day && xs[j].price > 0.0 && xs[j].reason != "" &&
        forall l :: 0 <= l < j ==> xs[l].symbol != xs[j].symbol) &&
      forall j :: 0 <= j < |xs| ==> xs[j].answer.Charged?
  {
    ExitGuardIff(st.account, day, xs, 0);
    if ExitGuard(st.account, day, xs, 0).None? {
      ChargedRowsClose(c, st.account, day, xs, |xs|);
    }
  }

  /** A refusal of the engine moves no cash and logs nothing; it leaves of the position the part that was to
      be closed, and every other position as it was. */
  lemma RefusedExitLeaves(c: Config, a: Account, x: ExitRow)
    requires Closable(a, x) && x.answer.Refused?
    ensures var (b, err) := CloseOne(c, a, x);
      err == Some(EngineRefused) && b.settled == a.settled && b.unsettled == a.unsettled && b.pending == a.pending &&
      b.events == a.events && b.positions.Keys == a.positions.Keys &&
      b.positions[x.symbol].quantity ==
        (if x.quantity.Some? then x.quantity.value else a.positions[x.symbol].quantity) &&
      forall s :: s in a.positions && s != x.symbol ==> b.positions[s] == a.positions[s]
  {
  }

  /** An engine answer that opens a position. */
  predicate Books(e: EntryRow) {
    e.answer.Booked? && e.answer.quantity > 0.000000001
  }

  function BookedCount(es: seq<EntryRow>, n: nat): nat
    requires n <= |es|
  {
    if n == 0 then 0 else BookedCount(es, n - 1) + if Books(es[n - 1]) then 1 else 0
  }

  /** One of the first `n` rows books `symbol`. */
  predicate BookedBefore(es: seq<EntryRow>, n: nat, symbol: string)
    requires n <= |es|
  {
    n > 0 && ((Books(es[n - 1]) && es[n - 1].symbol == symbol) || BookedBefore(es, n - 1, symbol))
  }

  /** A booked quantity is the approved one to a millionth of a share. */
  predicate AsApproved(e: EntryRow) {
    Books(e) ==> -0.000001 <= e.answer.quantity - e.filledQty <= 0.000001
  }

  /** Row `i` finds its symbol free and a slot left after the rows before it, and books what was approved. */
  predicate RowFits(c: Config, a: Account, es: seq<EntryRow>, i: nat)
    requires i < |es|
  {
    es[i].symbol !in a.positions && !BookedBefore(es, i, es[i].symbol) &&
    |a.positions| + BookedCount(es, i) < c.maxPositions && AsApproved(es[i])
  }

  /** `held` is what `a` held and what the first `n` rows booked. */
  ghost predicate HoldsBooked(a: Account, es: seq<EntryRow>, n: nat, held: map<string, Position>)
    requires n <= |es|
  {
    |held| == |a.positions| + BookedCount(es, n) &&
    forall s: string :: s in held <==> s in a.positions || BookedBefore(es, n, s)
  }

  lemma OneMore(m: map<string, Position>, s: string, p: Position)
    requires s !in m
    ensures |m[s := p]| == |m| + 1
  {
    assert m[s := p].Keys == m.Keys + {s};
    assert |m| == |m.Keys| && |m[s := p]| == |m[s := p].Keys|;
  }

  lemma NextEntryFits(c: Config, a: Account, es: seq<EntryRow>, n: nat, b: Account)
    requires n < |es| && HoldsBooked(a, es, n, b.positions)
    ensures OpenOne(c, b, es[n]).1 == None <==> RowFits(c, a, es, n)
    ensures RowFits(c, a, es, n) ==> HoldsBooked(a, es, n + 1, OpenOne(c, b, es[n]).0.positions)
  {
    if es[n].symbol !in b.positions && Books(es[n]) {
      OneMore(b.positions, es[n].symbol, EntryPosition(es[n].side, es[n].answer));
    }
  }

  predicate AllFit(c: Config, a: Account, es: seq<EntryRow>, n: nat)
    requires n <= |es|
  {
    n == 0 || (AllFit(c, a, es, n - 1) && RowFits(c, a, es, n - 1))
  }

  lemma {:induction false} EachFits(c: Config, a: Account, es: seq<EntryRow>, n: nat)
    requires n <= |es|
    ensures AllFit(c, a, es, n) <==> forall i :: 0 <= i < n ==> RowFits(c, a, es, i)
  {
    if n > 0 {
      EachFits(c, a, es, n - 1);
    }
  }

  lemma {:induction false} EntriesFitIff(c: Config, a: Account, es: seq<EntryRow>, n: nat)
    requires n <= |es|
    ensures OpenAll(c, a, es, n).1 == None <==> AllFit(c, a, es, n)
    ensures AllFit(c, a, es, n) ==> HoldsBooked(a, es, n, OpenAll(c, a, es, n).0.positions)
  {
    if n > 0 {
      EntriesFitIff(c, a, es, n - 1);
      if AllFit(c, a, es, n - 1) {
        NextEntryFits(c, a, es, n - 1, OpenAll(c, a, es, n - 1).0);
      }
    }
  }

  /** On an active day, entries are accepted exactly in the opening phase, when every row was decided on the
      previous session, is on the side of the ledger and fits. */
  lemma EntriesAcceptedIff(c: Config, st: State, es: seq<EntryRow>, day: int)
    requires !st.failed && st.clock.currentDay == Some(day)
    ensures ExecuteApproved(c, st, es).1 == None <==>
      st.clock.phase == OpenPhase &&
      (forall j :: 0 <= j < |es| ==> es[j].decisionDay == day - 1 && es[j].side == c.entrySide) &&
      forall i :: 0 <= i < |es| ==> RowFits(c, st.account, es, i)
  {
    EntryGuardIff(c, day, es, 0);
    EntriesFitIff(c, st.account, es, |es|);
    EachFits(c, st.account, es, |es|);
  }

  /** Sessions are accepted exactly in calendar order, one at a time; the close of an active day can always be
      marked, and the day finished once it is. */
  lemma SessionAcceptedIff(c: Config, st: State, day: int)
    ensures BeginDay(c, st, day).1 == None <==>
      !st.failed && st.clock.currentDay == None && 0 <= day < c.dayCount && day < |st.account.pending| &&
      (st.clock.lastFinished == None || st.clock.lastFinished == Some(day - 1))
    ensures MarkClose(c, st).1 == None <==> !st.failed && st.clock.currentDay != None
    ensures FinishDay(st).1 == None <==>
      !st.failed && st.clock.currentDay != None && st.clock.atClose && st.clock.interestCharged
  {
  }

  /** Rows that pass the guard close distinct held positions, today, by no more than is held. */
  lemma {:induction false} ExitGuardAt(a: Account, day: int, xs: seq<ExitRow>, k: nat, i: nat)
    requires ExitGuard(a, day, xs, k).None? && k <= i < |xs|
    ensures Closable(a, xs[i]) && xs[i].day == day && xs[i].price > 0.0
    ensures forall j :: 0 <= j < i ==> xs[j].symbol != xs[i].symbol
    decreases i - k
  {
    if k < i {
      ExitGuardAt(a, day, xs, k + 1, i);
    }
  }

  /** Closing the first `n` rows leaves the position of a later row as it was. */
  lemma {:induction false} StillClosable(c: Config, a: Account, day: int, xs: seq<ExitRow>, n: nat, i: nat)
    requires ExitGuard(a, day, xs, 0).None? && n <= i < |xs|
    ensures CloseAll(c, a, xs, n).1.None? ==>
      var a1 := CloseAll(c, a, xs, n).0;
      xs[i].symbol in a.positions && Closable(a1, xs[i]) && a1.positions[xs[i].symbol] == a.positions[xs[i].symbol]
  {
    ExitGuardAt(a, day, xs, 0, i);
    if n > 0 {
      StillClosable(c, a, day, xs, n - 1, i);
      assert xs[n - 1].symbol != xs[i].symbol;
    }
  }
}
