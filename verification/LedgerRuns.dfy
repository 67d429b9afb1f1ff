/** What the ledger conserves over whole runs of sessions, entries and partial exits. */
module LedgerRuns {
  import opened Common
  import opened Ledger

  datatype Op =
    | BeginOp(day: int)
    | EntryOp(entries: seq<EntryRow>)
    | ExitOp(exits: seq<ExitRow>, phase: Phase)
    | MarkOp
    | FinishOp

  function Apply(c: Config, st: State, op: Op): (State, Option<Error>) {
    match op
    case BeginOp(day) => BeginDay(c, st, day)
    case EntryOp(es) => ExecuteApproved(c, st, es)
    case ExitOp(xs, phase) => CloseResolved(c, st, xs, phase)
    case MarkOp => MarkClose(c, st)
    case FinishOp => FinishDay(st)
  }

  /** The ledger after the first `k` calls of any sequence, refused calls included. */
  function After(c: Config, ops: seq<Op>, k: nat): State
    requires k <= |ops|
  {
    if k == 0 then InitialState(c) else Apply(c, After(c, ops, k - 1), ops[k - 1]).0
  }

  // ---------- lots ----------

  const NOTHING: Lot := Lot(0.0, 0.0, 0.0)

  function Plus(a: Lot, b: Lot): Lot {
    Lot(a.quantity + b.quantity, a.cost + b.cost, a.flow + b.flow)
  }

  /** What a trade closed; its entry cash flow is the profit less what the exit itself moved. */
  function PartOf(t: Trade): Lot {
    Lot(t.quantity, t.entryCost, t.pnl - (t.proceeds - t.borrowCost))
  }

  function Held(positions: map<string, Position>, symbol: string): Lot {
    if symbol in positions then LotOf(positions[symbol]) else NOTHING
  }

  /** The latest lot opened for a symbol. */
  function LastOpened(events: seq<Event>, symbol: string): Option<Lot> {
    if events == [] then None
    else match events[|events| - 1]
      case Opened(s, lot) => if s == symbol then Some(lot) else LastOpened(events[..|events| - 1], symbol)
      case Closed(_) => LastOpened(events[..|events| - 1], symbol)
  }

  /** What has been closed of that lot. */
  function ClosedSince(events: seq<Event>, symbol: string): Lot {
    if events == [] then NOTHING
    else match events[|events| - 1]
      case Opened(s, _) => if s == symbol then NOTHING else ClosedSince(events[..|events| - 1], symbol)
      case Closed(t) =>
        if t.symbol == symbol then Plus(ClosedSince(events[..|events| - 1], symbol), PartOf(t))
        else ClosedSince(events[..|events| - 1], symbol)
  }

  /** Same cost and same cash flow per share. */
  ghost predicate SameUnit(a: Lot, b: Lot) {
    a.cost * b.quantity == b.cost * a.quantity && a.flow * b.quantity == b.flow * a.quantity
  }

  /** Every exit in the log closed a part of the latest lot at that lot's unit cost, and every reopening
      found the previous lot entirely closed. */
  ghost predicate Accounted(events: seq<Event>) {
    events == [] ||
    (Accounted(events[..|events| - 1]) &&
     match events[|events| - 1]
     case Opened(s, _) =>
       var before := LastOpened(events[..|events| - 1], s);
       before.Some? ==> before.value == ClosedSince(events[..|events| - 1], s)
     case Closed(t) =>
       var before := LastOpened(events[..|events| - 1], t.symbol);
       before.Some? && t.quantity > 0.0 && SameUnit(before.value, PartOf(t)))
  }

  /** The latest lot of a symbol is what is still held of it plus what was closed of it. */
  ghost predicate LotConserved(positions: map<string, Position>, events: seq<Event>, symbol: string) {
    match LastOpened(events, symbol)
    case None => symbol !in positions
    case Some(lot) =>
      lot == Plus(Held(positions, symbol), ClosedSince(events, symbol)) && lot.quantity > 0.0 &&
      (symbol in positions ==> positions[symbol].quantity > 0.0 && SameUnit(lot, LotOf(positions[symbol])))
  }

  function FlowOf(e: Event): real {
    match e
    case Opened(_, lot) => lot.flow
    case Closed(t) => t.proceeds - t.borrowCost
  }

  /** Everything entries and exits moved in or out of the account. */
  function CashFlow(events: seq<Event>): real {
    if events == [] then 0.0 else CashFlow(events[..|events| - 1]) + FlowOf(events[|events| - 1])
  }

  ghost function HeldFlow(positions: map<string, Position>): real
    decreases |positions|
  {
    if positions == map[] then 0.0
    else
      var s :| s in positions;
      positions[s].entryCashFlow + HeldFlow(positions - {s})
  }

  lemma {:induction false} HeldFlowWithout(positions: map<string, Position>, s: string)
    requires s in positions
    ensures HeldFlow(positions) == positions[s].entryCashFlow + HeldFlow(positions - {s})
    decreases |positions|
  {
    var first :| first in positions &&
      HeldFlow(positions) == positions[first].entryCashFlow + HeldFlow(positions - {first});
    if first != s {
      HeldFlowWithout(positions - {first}, s);
      HeldFlowWithout(positions - {s}, first);
      assert positions - {first} - {s} == positions - {s} - {first};
    }
  }

  lemma HeldFlowWith(positions: map<string, Position>, s: string, p: Position)
    ensures HeldFlow(positions[s := p]) == p.entryCashFlow + HeldFlow(positions - {s})
  {
    HeldFlowWithout(positions[s := p], s);
    assert positions[s := p] - {s} == positions - {s};
  }

  ghost predicate Sound(positions: map<string, Position>, events: seq<Event>) {
    Accounted(events) && (forall s: string :: LotConserved(positions, events, s)) &&
    CashFlow(events) == Pnl(events) + HeldFlow(positions)
  }

  lemma Appended(events: seq<Event>, e: Event)
    ensures (events + [e])[..|events|] == events
    ensures CashFlow(events + [e]) == CashFlow(events) + FlowOf(e)
    ensures Pnl(events + [e]) == Pnl(events) + PnlOf(e)
  {
    assert (events + [e])[..|events|] == events;
  }

  function Cash(a: Account): real {
    a.settled + a.unsettled
  }

  // ---------- entries ----------

  /** Logging an event of one symbol changes nothing for the others. */
  lemma OtherSymbol(events: seq<Event>, e: Event, s: string)
    requires match e { case Opened(symbol, _) => symbol != s case Closed(t) => t.symbol != s }
    ensures LastOpened(events + [e], s) == LastOpened(events, s)
    ensures ClosedSince(events + [e], s) == ClosedSince(events, s)
  {
    Appended(events, e);
  }

  lemma OpenedLot(positions: map<string, Position>, events: seq<Event>, symbol: string, p: Position)
    requires LotConserved(positions, events, symbol) && Accounted(events) && symbol !in positions && p.quantity > 0.0
    ensures LotConserved(positions[symbol := p], events + [Opened(symbol, LotOf(p))], symbol)
    ensures Accounted(events + [Opened(symbol, LotOf(p))])
  {
    Appended(events, Opened(symbol, LotOf(p)));
  }

  lemma OpeningSound(positions: map<string, Position>, events: seq<Event>, symbol: string, p: Position)
    requires Sound(positions, events) && symbol !in positions && p.quantity > 0.0
    ensures Sound(positions[symbol := p], events + [Opened(symbol, LotOf(p))])
  {
    var after, log := positions[symbol := p], events + [Opened(symbol, LotOf(p))];
    assert LotConserved(positions, events, symbol);
    OpenedLot(positions, events, symbol, p);
    Appended(events, Opened(symbol, LotOf(p)));
    HeldFlowWith(positions, symbol, p);
    assert positions - {symbol} == positions;
    forall s: string
      ensures LotConserved(after, log, s)
    {
      assert LotConserved(positions, events, s);
      if s != symbol {
        OtherSymbol(events, Opened(symbol, LotOf(p)), s);
      }
    }
  }

  lemma OpenOneSound(c: Config, a: Account, e: EntryRow)
    requires Sound(a.positions, a.events)
    ensures var b := OpenOne(c, a, e).0;
      Sound(b.positions, b.events) && Cash(b) - CashFlow(b.events) == Cash(a) - CashFlow(a.events) &&
      b.pending == a.pending && b.unsettled == a.unsettled
  {
    if OpenOne(c, a, e).0 != a {
      var p := EntryPosition(e.side, e.answer);
      OpeningSound(a.positions, a.events, e.symbol, p);
      Appended(a.events, Opened(e.symbol, LotOf(p)));
    }
  }

  lemma {:induction false} OpenAllSound(c: Config, a: Account, es: seq<EntryRow>, n: nat)
    requires n <= |es| && Sound(a.positions, a.events)
    ensures var b := OpenAll(c, a, es, n).0;
      Sound(b.positions, b.events) && Cash(b) - CashFlow(b.events) == Cash(a) - CashFlow(a.events) &&
      b.pending == a.pending && b.unsettled == a.unsettled
  {
    if n > 0 {
      OpenAllSound(c, a, es, n - 1);
      OpenOneSound(c, OpenAll(c, a, es, n - 1).0, es[n - 1]);
    }
  }

  // ---------- exits ----------

  /** A split loses nothing and keeps the cost per share of the lot it comes from. */
  lemma SplitConserves(p: Position, quantity: real, lot: Lot)
    requires 0.0 < quantity <= p.quantity && SameUnit(lot, LotOf(p))
    ensures var (part, rest) := Split(p, quantity);
      part.quantity == quantity && part.side == p.side && SameUnit(lot, LotOf(part)) &&
      (rest.Some? ==> SameUnit(lot, LotOf(rest.value)) && rest.value.quantity > 0.0 && rest.value.side == p.side) &&
      LotOf(p) == Plus(LotOf(part), if rest.Some? then LotOf(rest.value) else NOTHING)
  {
    if quantity < p.quantity {
      var f := quantity / p.quantity;
      DivTimes(quantity, p.quantity);
      Share(p.entryCost, p.quantity, quantity, f, lot.cost, lot.quantity);
      Share(p.entryCashFlow, p.quantity, quantity, f, lot.flow, lot.quantity);
    }
  }

  lemma Share(amount: real, whole: real, part: real, f: real, lotAmount: real, lotQuantity: real)
    requires f * whole == part && lotAmount * whole == amount * lotQuantity
    ensures amount * f + amount * (1.0 - f) == amount
    ensures lotAmount * part == amount * f * lotQuantity
    ensures lotAmount * (whole - part) == amount * (1.0 - f) * lotQuantity
  {
    assert lotAmount * part == f * (lotAmount * whole);
    assert f * (amount * lotQuantity) == amount * f * lotQuantity;
  }

  lemma CreditCash(c: Config, a: Account, day: int, proceeds: real, borrow: real)
    ensures Cash(Credit(c, a, day, proceeds, borrow)) == Cash(a) + proceeds - borrow
  {
  }

  lemma ClosingSound(positions: map<string, Position>, events: seq<Event>, symbol: string, quantity: real, t: Trade)
    requires Sound(positions, events) && symbol in positions && 0.0 < quantity <= positions[symbol].quantity
    requires t.symbol == symbol && PartOf(t) == LotOf(Split(positions[symbol], quantity).0)
    ensures var rest := Split(positions[symbol], quantity).1;
      Sound(if rest.Some? then positions[symbol := rest.value] else positions - {symbol}, events + [Closed(t)])
  {
    var (part, rest) := Split(positions[symbol], quantity);
    var after := if rest.Some? then positions[symbol := rest.value] else positions - {symbol};
    assert LotConserved(positions, events, symbol);
    SplitConserves(positions[symbol], quantity, LastOpened(events, symbol).value);
    Appended(events, Closed(t));
    HeldFlowWithout(positions, symbol);
    if rest.Some? {
      HeldFlowWith(positions, symbol, rest.value);
    }
    forall s: string
      ensures LotConserved(after, events + [Closed(t)], s)
    {
      assert LotConserved(positions, events, s);
      if s != symbol {
        OtherSymbol(events, Closed(t), s);
      }
    }
  }

  lemma CloseOneSound(c: Config, a: Account, x: ExitRow)
    requires Sound(a.positions, a.events) && Closable(a, x) && x.answer.Charged?
    ensures var b := CloseOne(c, a, x).0;
      Sound(b.positions, b.events) && Cash(b) - CashFlow(b.events) == Cash(a) - CashFlow(a.events)
  {
    var q := ExitQuantity(a.positions[x.symbol], x);
    var trade := TradeOf(Split(a.positions[x.symbol], q).0, x);
    ClosingSound(a.positions, a.events, x.symbol, q, trade);
    Appended(a.events, Closed(trade));
    CreditCash(c, a, x.day, trade.proceeds, trade.borrowCost);
  }

  lemma {:induction false} CloseAllSound(c: Config, a: Account, xs: seq<ExitRow>, n: nat)
    requires n <= |xs| && Sound(a.positions, a.events) && CloseAll(c, a, xs, n).1.None?
    ensures var b := CloseAll(c, a, xs, n).0;
      Sound(b.positions, b.events) && Cash(b) - CashFlow(b.events) == Cash(a) - CashFlow(a.events)
  {
    if n > 0 {
      CloseAllSound(c, a, xs, n - 1);
      CloseOneSound(c, CloseAll(c, a, xs, n - 1).0, xs[n - 1]);
    }
  }

  /** Positions no exit row names keep every field, whatever happens to the others. */
  lemma {:induction false} OtherPositionsUntouched(c: Config, a: Account, xs: seq<ExitRow>, n: nat, s: string)
    requires n <= |xs| && forall i :: 0 <= i < n ==> xs[i].symbol != s
    ensures var b := CloseAll(c, a, xs, n).0;
      (s in b.positions <==> s in a.positions) && (s in a.positions ==> b.positions[s] == a.positions[s])
  {
    if n > 0 {
      OtherPositionsUntouched(c, a, xs, n - 1, s);
    }
  }

  // ---------- settlement ----------

  function Sum(s: seq<real>): real {
    if s == [] then 0.0 else s[0] + Sum(s[1..])
  }

  lemma {:induction false} SumUpdated(s: seq<real>, i: nat, x: real)
    requires i < |s|
    ensures Sum(s[i := x]) == Sum(s) - s[i] + x
  {
    if i > 0 {
      SumUpdated(s[1..], i - 1, x);
      assert s[i := x][1..] == s[1..][i - 1 := x];
    } else {
      assert s[0 := x][1..] == s[1..];
    }
  }

  lemma {:induction false} SumNonNegative(s: seq<real>)
    requires forall i :: 0 <= i < |s| ==> s[i] >= 0.0
    ensures Sum(s) >= 0.0
    ensures forall i :: 0 <= i < |s| ==> s[i] <= Sum(s)
  {
    if s != [] {
      SumNonNegative(s[1..]);
      forall i | 0 < i < |s|
        ensures s[i] <= Sum(s)
      {
        assert s[1..][i - 1] == s[i];
      }
    }
  }

  /** Cash the settlement of a day creates because unsettled cash is floored at zero. */
  function SettlementLeak(a: Account, day: nat): (leak: real)
    requires day < |a.pending|
    ensures leak >= 0.0
  {
    if a.pending[day] != 0.0 && a.pending[day] > a.unsettled then a.pending[day] - a.unsettled else 0.0
  }

  /** The settlement of a day, figure by figure: settled cash grows by exactly what was due, nothing stays due
      that day, the other days are untouched, and unsettled cash falls by the same amount, but not below
      zero. */
  lemma SettlementPaysOut(a: Account, day: nat)
    requires day < |a.pending|
    ensures var b, amount := Settle(a, day), a.pending[day];
      b.settled == a.settled + amount && |b.pending| == |a.pending| && b.pending[day] == 0.0 &&
      (forall j :: 0 <= j < |a.pending| && j != day ==> b.pending[j] == a.pending[j]) &&
      (amount == 0.0 || amount <= a.unsettled ==> b.unsettled == a.unsettled - amount) &&
      (amount != 0.0 && amount > a.unsettled ==> b.unsettled == 0.0) &&
      b.positions == a.positions && b.events == a.events
  {
  }

  /** Settlement only moves cash from unsettled to settled, except for that leak. */
  lemma SettlementMovesCash(a: Account, day: nat)
    requires day < |a.pending|
    ensures Cash(Settle(a, day)) == Cash(a) + SettlementLeak(a, day)
    ensures SettlementLeak(a, day) == 0.0 <==> a.pending[day] == 0.0 || a.pending[day] <= a.unsettled
  {
  }

  /** Everything pending is covered by the unsettled cash. */
  ghost predicate Covered(a: Account) {
    (forall i :: 0 <= i < |a.pending| ==> a.pending[i] >= 0.0) && Sum(a.pending) <= a.unsettled
  }

  lemma SettleCovered(a: Account, day: nat)
    requires day < |a.pending| && Covered(a)
    ensures Covered(Settle(a, day)) && SettlementLeak(a, day) == 0.0
  {
    SumNonNegative(a.pending);
    SumUpdated(a.pending, day, 0.0);
    SumNonNegative(a.pending[day := 0.0]);
  }

  /** On a cash account, the exit brings in at least the fees and borrow it costs. */
  predicate PaysItsFees(c: Config, a: Account, x: ExitRow) {
    c.cashAccount && x.answer.Charged? && Closable(a, x) ==>
      var p := a.positions[x.symbol];
      BorrowCost(p.side, x.answer) <= 0.0 <= Proceeds(p.side, ExitQuantity(p, x), x.price, x.answer)
  }

  lemma CreditCovered(c: Config, a: Account, day: int, proceeds: real, borrow: real)
    requires Covered(a) && (c.cashAccount ==> borrow <= 0.0 <= proceeds)
    ensures Covered(Credit(c, a, day, proceeds, borrow))
  {
    var due := day + c.settlementDays;
    if c.cashAccount && 0 <= due < |a.pending| {
      SumUpdated(a.pending, due, a.pending[due] + proceeds);
    }
  }

  lemma CloseOneCovered(c: Config, a: Account, x: ExitRow)
    requires Covered(a) && Closable(a, x) && x.answer.Charged? && PaysItsFees(c, a, x)
    ensures Covered(CloseOne(c, a, x).0)
  {
    var trade := TradeOf(Split(a.positions[x.symbol], ExitQuantity(a.positions[x.symbol], x)).0, x);
    CreditCovered(c, a, x.day, trade.proceeds, trade.borrowCost);
    var b := CloseOne(c, a, x).0;
    assert b.pending == Credit(c, a, x.day, trade.proceeds, trade.borrowCost).pending;
  }

  lemma {:induction false} CloseAllCovered(c: Config, a: Account, day: int, xs: seq<ExitRow>, n: nat)
    requires n <= |xs| && Covered(a) && ExitGuard(a, day, xs, 0).None?
    requires forall i :: 0 <= i < |xs| ==> PaysItsFees(c, a, xs[i])
    requires CloseAll(c, a, xs, n).1.None?
    ensures Covered(CloseAll(c, a, xs, n).0)
  {
    if n > 0 {
      CloseAllCovered(c, a, day, xs, n - 1);
      StillClosable(c, a, day, xs, n - 1, n - 1);
      ExitGuardAt(a, day, xs, 0, n - 1);
      CloseOneCovered(c, CloseAll(c, a, xs, n - 1).0, xs[n - 1]);
    }
  }

  // ---------- whole runs ----------

  function SumInterest(daily: seq<DayRow>): real {
    if daily == [] then 0.0 else SumInterest(daily[..|daily| - 1]) + daily[|daily| - 1].interest
  }

  /** Sessions are finished one by one on consecutive days, and interest is the sum of one charge per
      finished session, plus that of the current one once its close is marked. */
  ghost predicate ClockSound(k: Clock) {
    k.interest == SumInterest(k.daily) + (if k.currentDay.Some? && k.interestCharged then k.todayInterest else 0.0) &&
    (forall i :: 0 < i < |k.daily| ==> k.daily[i].day == k.daily[i - 1].day + 1) &&
    k.lastFinished == (if k.daily == [] then None else Some(k.daily[|k.daily| - 1].day)) &&
    (k.currentDay.Some? && k.lastFinished.Some? ==> k.currentDay.value == k.lastFinished.value + 1)
  }

  /** Lots, clock and cash agree; `leaked` is what settlements have created so far. */
  ghost predicate Conserved(c: Config, st: State, leaked: real) {
    Sound(st.account.positions, st.account.events) && ClockSound(st.clock) &&
    Cash(st.account) == c.initialEquity + CashFlow(st.account.events) - st.clock.interest + leaked
  }

  /** What one call leaks. */
  function OpLeak(c: Config, st: State, op: Op): (leak: real)
    ensures leak >= 0.0
  {
    if op.BeginOp? && BeginDay(c, st, op.day).1.None? then SettlementLeak(st.account, op.day) else 0.0
  }

  function Leaked(c: Config, ops: seq<Op>, k: nat): real
    requires k <= |ops|
  {
    if k == 0 then 0.0 else Leaked(c, ops, k - 1) + OpLeak(c, After(c, ops, k - 1), ops[k - 1])
  }

  ghost predicate OpPaysItsFees(c: Config, st: State, op: Op) {
    op.ExitOp? && CloseResolved(c, st, op.exits, op.phase).1.None? ==>
      forall i :: 0 <= i < |op.exits| ==> PaysItsFees(c, st.account, op.exits[i])
  }

  /** No accepted exit of a cash account costs more than it brings in, over the first `k` calls. */
  ghost predicate RunPaysItsFees(c: Config, ops: seq<Op>, k: nat)
    requires k <= |ops|
  {
    forall i :: 0 <= i < k ==> OpPaysItsFees(c, After(c, ops, i), ops[i])
  }

  lemma {:induction false} ZerosSumToZero(n: nat)
    ensures Sum(seq(n, _ => 0.0)) == 0.0
  {
    if n > 0 {
      ZerosSumToZero(n - 1);
      assert seq(n, _ => 0.0)[1..] == seq(n - 1, _ => 0.0);
    }
  }

  lemma BeginConserves(c: Config, st: State, day: int, leaked: real)
    requires Conserved(c, st, leaked)
    ensures Conserved(c, BeginDay(c, st, day).0, leaked + OpLeak(c, st, BeginOp(day)))
  {
    if BeginDay(c, st, day).1.None? {
      SettlementMovesCash(st.account, day);
    }
  }

  lemma EntriesConserve(c: Config, st: State, es: seq<EntryRow>, leaked: real)
    requires Conserved(c, st, leaked)
    ensures Conserved(c, ExecuteApproved(c, st, es).0, leaked)
  {
    OpenAllSound(c, st.account, es, |es|);
  }

  lemma ExitsConserve(c: Config, st: State, xs: seq<ExitRow>, phase: Phase, leaked: real)
    requires Conserved(c, st, leaked) && !CloseResolved(c, st, xs, phase).0.failed
    ensures Conserved(c, CloseResolved(c, st, xs, phase).0, leaked)
  {
    var st1 := CloseResolved(c, st, xs, phase).0;
    if st1 != st {
      CloseAllSound(c, st.account, xs, |xs|);
      assert st1.account == CloseAll(c, st.account, xs, |xs|).0;
      assert ClockSound(st1.clock);
    }
  }

  lemma MarkConserves(c: Config, st: State, leaked: real)
    requires Conserved(c, st, leaked)
    ensures Conserved(c, MarkClose(c, st).0, leaked)
  {
  }

  lemma FinishConserves(c: Config, st: State, leaked: real)
    requires Conserved(c, st, leaked)
    ensures Conserved(c, FinishDay(st).0, leaked)
  {
    var before, after := st.clock, FinishDay(st).0.clock;
    if after != before {
      assert after.daily[..|before.daily|] == before.daily;
      assert SumInterest(after.daily) == SumInterest(before.daily) + before.todayInterest;
    }
  }

  lemma ApplyConserves(c: Config, st: State, op: Op, leaked: real)
    requires Conserved(c, st, leaked) && !Apply(c, st, op).0.failed
    ensures Conserved(c, Apply(c, st, op).0, leaked + OpLeak(c, st, op))
  {
    match op
    case BeginOp(day) => BeginConserves(c, st, day, leaked);
    case EntryOp(es) => EntriesConserve(c, st, es, leaked);
    case ExitOp(xs, phase) => ExitsConserve(c, st, xs, phase, leaked);
    case MarkOp => MarkConserves(c, st, leaked);
    case FinishOp => FinishConserves(c, st, leaked);
  }

  /** Marking the close again charges nothing more. */
  lemma InterestChargedOnce(c: Config, st: State)
    requires MarkClose(c, st).1.None?
    ensures MarkClose(c, MarkClose(c, st).0) == MarkClose(c, st)
    ensures FinishDay(MarkClose(c, st).0).1.None?
    ensures st.clock.interestCharged ==> MarkClose(c, st).0.account == st.account
    ensures !st.clock.interestCharged ==>
      Cash(MarkClose(c, st).0.account) == Cash(st.account) - InterestCharge(c, st.account.settled)
  {
  }

  /** A failed ledger refuses every further call and never changes again. */
  lemma FailedIsFinal(c: Config, st: State, op: Op)
    requires st.failed
    ensures Apply(c, st, op).0 == st && Apply(c, st, op).1.Some?
  {
  }

  /** The errors that strike while rows are being booked. */
  predicate Fatal(e: Error) {
    e == DuplicateSymbol || e == OverCapacity || e == QuantityChanged || e == EngineRefused
  }

  /** Only those leave the ledger failed; every other refusal changes nothing at all. */
  lemma RefusedCallsAreAtomic(c: Config, st: State, op: Op)
    requires !st.failed
    ensures var (after, err) := Apply(c, st, op);
      (after.failed <==> err.Some? && Fatal(err.value)) && (err.Some? && !Fatal(err.value) ==> after == st)
  {
    match op
    case EntryOp(es) =>
      OpenErrors(c, st.account, es, |es|);
      if st.clock.currentDay.Some? {
        EntryGuardNotFatal(c, st.clock.currentDay.value, es, 0);
      }
    case ExitOp(xs, _) =>
      if st.clock.currentDay.Some? {
        GuardNotFatal(st.account, st.clock.currentDay.value, xs, 0);
        CloseErrors(c, st.account, st.clock.currentDay.value, xs, |xs|);
      }
    case _ =>
  }

  lemma {:induction false} EntryGuardNotFatal(c: Config, day: int, es: seq<EntryRow>, i: nat)
    ensures EntryGuard(c, day, es, i).Some? ==> !Fatal(EntryGuard(c, day, es, i).value)
    decreases |es| - i
  {
    if i < |es| {
      EntryGuardNotFatal(c, day, es, i + 1);
    }
  }

  lemma {:induction false} GuardNotFatal(a: Account, day: int, xs: seq<ExitRow>, i: nat)
    ensures ExitGuard(a, day, xs, i).Some? ==> !Fatal(ExitGuard(a, day, xs, i).value)
    decreases |xs| - i
  {
    if i < |xs| {
      GuardNotFatal(a, day, xs, i + 1);
    }
  }

  lemma {:induction false} OpenErrors(c: Config, a: Account, es: seq<EntryRow>, n: nat)
    requires n <= |es|
    ensures OpenAll(c, a, es, n).1.Some? ==> Fatal(OpenAll(c, a, es, n).1.value)
  {
    if n > 0 {
      OpenErrors(c, a, es, n - 1);
    }
  }

  lemma {:induction false} CloseErrors(c: Config, a: Account, day: int, xs: seq<ExitRow>, n: nat)
    requires n <= |xs|
    ensures ExitGuard(a, day, xs, 0).None? && CloseAll(c, a, xs, n).1.Some? ==>
      CloseAll(c, a, xs, n).1 == Some(EngineRefused)
  {
    if n > 0 && ExitGuard(a, day, xs, 0).None? {
      CloseErrors(c, a, day, xs, n - 1);
      StillClosable(c, a, day, xs, n - 1, n - 1);
    }
  }

  // ---------- phases and capacity ----------

  function Rank(p: Phase): nat {
    match p
    case OpenPhase => 0
    case IntradayPhase => 1
    case ClosePhase => 2
  }

  /** Interest is charged only at the close, and the close phase is reached exactly when it is observed. */
  ghost predicate PhaseSound(k: Clock) {
    k.currentDay.Some? ==> (k.atClose <==> k.phase == ClosePhase) && (k.interestCharged ==> k.atClose)
  }

  /** Inside a session the phases only move forward; entries are accepted in the first one only, and the
      session is finished from the last one only. */
  lemma PhasesMoveForward(c: Config, st: State, op: Op)
    requires PhaseSound(st.clock)
    ensures PhaseSound(Apply(c, st, op).0.clock)
    ensures !op.BeginOp? ==> Rank(st.clock.phase) <= Rank(Apply(c, st, op).0.clock.phase)
    ensures Apply(c, st, op).1.None? ==>
      (op.BeginOp? ==> Apply(c, st, op).0.clock.phase == OpenPhase) &&
      (op.EntryOp? ==> st.clock.phase == OpenPhase) &&
      (op.ExitOp? ==> Rank(st.clock.phase) <= Rank(op.phase) && Apply(c, st, op).0.clock.phase == op.phase) &&
      (op.FinishOp? ==> st.clock.phase == ClosePhase && st.clock.interestCharged)
  {
  }

  lemma {:induction false} PhasesStaySound(c: Config, ops: seq<Op>, k: nat)
    requires k <= |ops|
    ensures PhaseSound(After(c, ops, k).clock)
  {
    if k > 0 {
      PhasesStaySound(c, ops, k - 1);
      PhasesMoveForward(c, After(c, ops, k - 1), ops[k - 1]);
    }
  }

  lemma EntryFits(c: Config, a: Account, e: EntryRow)
    requires |a.positions| <= c.maxPositions
    ensures |OpenOne(c, a, e).0.positions| <= c.maxPositions
  {
    if e.symbol !in a.positions && e.answer.Booked? {
      OneMore(a.positions, e.symbol, EntryPosition(e.side, e.answer));
    }
  }

  lemma {:induction false} EntriesFit(c: Config, a: Account, es: seq<EntryRow>, n: nat)
    requires n <= |es| && |a.positions| <= c.maxPositions
    ensures |OpenAll(c, a, es, n).0.positions| <= c.maxPositions
  {
    if n > 0 {
      EntriesFit(c, a, es, n - 1);
      EntryFits(c, OpenAll(c, a, es, n - 1).0, es[n - 1]);
    }
  }

  lemma {:induction false} ExitsNeverAdd(c: Config, a: Account, xs: seq<ExitRow>, n: nat)
    requires n <= |xs|
    ensures CloseAll(c, a, xs, n).0.positions.Keys <= a.positions.Keys
  {
    if n > 0 {
      ExitsNeverAdd(c, a, xs, n - 1);
    }
  }

  lemma SmallerMap(m: map<string, Position>, n: map<string, Position>)
    requires m.Keys <= n.Keys
    ensures |m| <= |n|
  {
    assert |m| == |m.Keys| && |n| == |n.Keys|;
    SubsetSize(m.Keys, n.Keys);
  }

  lemma {:induction false} SubsetSize(a: set<string>, b: set<string>)
    requires a <= b
    ensures |a| <= |b|
  {
    assert b == a + (b - a);
    assert |b| == |a| + |b - a|;
  }

  /** The ledger never holds more positions than its capacity, failed calls included. */
  lemma {:induction false} CapacityRespected(c: Config, ops: seq<Op>, k: nat)
    requires k <= |ops|
    ensures |After(c, ops, k).account.positions| <= c.maxPositions
  {
    if k > 0 {
      CapacityRespected(c, ops, k - 1);
      var st, op := After(c, ops, k - 1), ops[k - 1];
      if op.EntryOp? {
        EntriesFit(c, st.account, op.entries, |op.entries|);
      } else if op.ExitOp? {
        ExitsNeverAdd(c, st.account, op.exits, |op.exits|);
        SmallerMap(CloseAll(c, st.account, op.exits, |op.exits|).0.positions, st.account.positions);
      }
    }
  }

  // ---------- conservation ----------

  /** Conservation: after any sequence of calls on a ledger that has not failed, every lot is what is
      held plus what was closed of it at an unchanged unit cost, interest is one charge per finished
      session, and the cash is the initial equity plus realised profits plus the entry flows of what is
      held, less that interest, plus whatever settlements leaked. */
  lemma {:induction false} LedgerConserves(c: Config, ops: seq<Op>, k: nat)
    requires k <= |ops| && !After(c, ops, k).failed
    ensures Conserved(c, After(c, ops, k), Leaked(c, ops, k))
    ensures var st := After(c, ops, k);
      Cash(st.account) ==
        c.initialEquity + Pnl(st.account.events) + HeldFlow(st.account.positions) - st.clock.interest
        + Leaked(c, ops, k)
  {
    if k > 0 {
      var before := After(c, ops, k - 1);
      if before.failed {
        FailedIsFinal(c, before, ops[k - 1]);
        assert false;
      }
      LedgerConserves(c, ops, k - 1);
      ApplyConserves(c, before, ops[k - 1], Leaked(c, ops, k - 1));
    } else {
      forall s: string
        ensures LotConserved(map[], [], s)
      {
      }
    }
  }

  lemma FlatError(c: Config, st: State, leaked: real)
    requires Conserved(c, st, leaked) && st.account.positions == map[]
    ensures ReconciliationError(c, st) == Ok(leaked)
  {
    assert HeldFlow(map[]) == 0.0;
  }

  /** The reconciliation error of a flat ledger is exactly what its settlements leaked. */
  lemma ReconciliationErrorIsLeak(c: Config, ops: seq<Op>, k: nat)
    requires k <= |ops| && !After(c, ops, k).failed && After(c, ops, k).account.positions == map[]
    ensures ReconciliationError(c, After(c, ops, k)) == Ok(Leaked(c, ops, k))
  {
    LedgerConserves(c, ops, k);
    FlatError(c, After(c, ops, k), Leaked(c, ops, k));
  }

  /** Call `i` is an accepted session whose settlement pays out more than is unsettled. */
  ghost predicate LeaksAt(c: Config, ops: seq<Op>, i: nat) {
    i < |ops| && ops[i].BeginOp? && BeginDay(c, After(c, ops, i), ops[i].day).1.None? &&
    var a, day := After(c, ops, i).account, ops[i].day;
    a.pending[day] != 0.0 && a.pending[day] > a.unsettled
  }

  lemma LeakStep(c: Config, ops: seq<Op>, i: nat)
    requires i < |ops|
    ensures OpLeak(c, After(c, ops, i), ops[i]) > 0.0 <==> LeaksAt(c, ops, i)
    ensures Leaked(c, ops, i + 1) == Leaked(c, ops, i) + OpLeak(c, After(c, ops, i), ops[i])
  {
  }

  /** It is never negative, and zero exactly when no accepted session settled more than was unsettled. */
  lemma {:induction false} LeakedIff(c: Config, ops: seq<Op>, k: nat)
    requires k <= |ops|
    ensures Leaked(c, ops, k) >= 0.0
    ensures Leaked(c, ops, k) == 0.0 <==> forall i :: 0 <= i < k ==> !LeaksAt(c, ops, i)
  {
    if k > 0 {
      LeakedIff(c, ops, k - 1);
      LeakStep(c, ops, k - 1);
    }
  }

  lemma CoveredStep(c: Config, st: State, op: Op)
    requires Covered(st.account) && OpPaysItsFees(c, st, op) && !Apply(c, st, op).0.failed && !st.failed
    ensures Covered(Apply(c, st, op).0.account) && OpLeak(c, st, op) == 0.0
  {
    match op
    case BeginOp(day) =>
      if BeginDay(c, st, day).1.None? {
        SettleCovered(st.account, day);
      }
    case EntryOp(es) => OpenAllKeepsPending(c, st.account, es, |es|);
    case ExitOp(xs, phase) =>
      if CloseResolved(c, st, xs, phase).1.None? {
        CloseAllCovered(c, st.account, st.clock.currentDay.value, xs, |xs|);
      }
    case MarkOp =>
    case FinishOp =>
  }

  lemma {:induction false} OpenAllKeepsPending(c: Config, a: Account, es: seq<EntryRow>, n: nat)
    requires n <= |es|
    ensures OpenAll(c, a, es, n).0.pending == a.pending && OpenAll(c, a, es, n).0.unsettled == a.unsettled
  {
    if n > 0 {
      OpenAllKeepsPending(c, a, es, n - 1);
    }
  }

  lemma StepLeaksNothing(c: Config, st: State, op: Op)
    requires OpPaysItsFees(c, st, op) && (!st.failed ==> Covered(st.account))
    ensures OpLeak(c, st, op) == 0.0
    ensures !Apply(c, st, op).0.failed ==> Covered(Apply(c, st, op).0.account)
  {
    if st.failed {
      FailedIsFinal(c, st, op);
    } else if !Apply(c, st, op).0.failed {
      CoveredStep(c, st, op);
    }
  }

  /** Nothing leaks on a margin account, nor on a cash account whose exits all pay their own fees. */
  lemma {:induction false} NoLeakWhenExitsPayTheirFees(c: Config, ops: seq<Op>, k: nat)
    requires k <= |ops| && RunPaysItsFees(c, ops, k)
    ensures Leaked(c, ops, k) == 0.0
    ensures !After(c, ops, k).failed ==> Covered(After(c, ops, k).account)
  {
    if k > 0 {
      NoLeakWhenExitsPayTheirFees(c, ops, k - 1);
      StepLeaksNothing(c, After(c, ops, k - 1), ops[k - 1]);
    } else {
      ZerosSumToZero(c.dayCount);
    }
  }

  // ---------- fees of at most the notional ----------

  /** A fee rate of at most 100%, and no fixed fee: the only presets of the engine charge none. */
  predicate OrdinaryFee(a: ExitAnswer) {
    a.Charged? ==> a.rate <= 1.0 && a.fixed == 0.0
  }

  ghost predicate OrdinaryFees(ops: seq<Op>) {
    forall i :: 0 <= i < |ops| && ops[i].ExitOp? ==>
      forall j :: 0 <= j < |ops[i].exits| ==> OrdinaryFee(ops[i].exits[j].answer)
  }

  /** Every position is on the side of the ledger. */
  ghost predicate OneSided(c: Config, a: Account) {
    forall s :: s in a.positions ==> a.positions[s].side == c.entrySide
  }

  lemma {:induction false} EntriesOneSided(c: Config, a: Account, es: seq<EntryRow>, n: nat)
    requires n <= |es| && OneSided(c, a) && forall j :: 0 <= j < n ==> es[j].side == c.entrySide
    ensures OneSided(c, OpenAll(c, a, es, n).0)
  {
    if n > 0 {
      EntriesOneSided(c, a, es, n - 1);
    }
  }

  lemma {:induction false} ExitsOneSided(c: Config, a: Account, xs: seq<ExitRow>, n: nat)
    requires n <= |xs| && OneSided(c, a)
    ensures OneSided(c, CloseAll(c, a, xs, n).0)
  {
    if n > 0 {
      ExitsOneSided(c, a, xs, n - 1);
    }
  }

  /** A ledger only ever holds positions of its own side, failed calls included. */
  lemma {:induction false} AlwaysOneSided(c: Config, ops: seq<Op>, k: nat)
    requires k <= |ops|
    ensures OneSided(c, After(c, ops, k).account)
  {
    if k > 0 {
      AlwaysOneSided(c, ops, k - 1);
      var st, op := After(c, ops, k - 1), ops[k - 1];
      if op.EntryOp? && st.clock.currentDay.Some? && EntryGuard(c, st.clock.currentDay.value, op.entries, 0).None? {
        EntryGuardIff(c, st.clock.currentDay.value, op.entries, 0);
        EntriesOneSided(c, st.account, op.entries, |op.entries|);
      } else if op.ExitOp? {
        ExitsOneSided(c, st.account, op.exits, |op.exits|);
      }
    }
  }

  lemma OrdinaryFeePaysItself(c: Config, a: Account, x: ExitRow)
    requires (c.entrySide == Sell ==> !c.cashAccount) && OneSided(c, a)
    requires OrdinaryFee(x.answer) && x.price > 0.0
    ensures PaysItsFees(c, a, x)
  {
    if c.cashAccount && x.answer.Charged? && Closable(a, x) {
      var q := ExitQuantity(a.positions[x.symbol], x);
      MulMono(0.0, q, x.price);
      MulMono(0.0, q * x.price, 1.0 - x.answer.rate);
    }
  }

  /** What a caller can check beforehand: on a ledger whose exits are charged at most their notional and
      no fixed fee, nothing ever leaks, refused and failed calls included. */
  lemma NoLeakBelowFullFees(c: Config, ops: seq<Op>, k: nat)
    requires k <= |ops| && OrdinaryFees(ops) && (c.entrySide == Sell ==> !c.cashAccount)
    ensures Leaked(c, ops, k) == 0.0
  {
    forall i | 0 <= i < k
      ensures OpPaysItsFees(c, After(c, ops, i), ops[i])
    {
      var st, op := After(c, ops, i), ops[i];
      AlwaysOneSided(c, ops, i);
      if op.ExitOp? && CloseResolved(c, st, op.exits, op.phase).1.None? {
        forall j | 0 <= j < |op.exits|
          ensures PaysItsFees(c, st.account, op.exits[j])
        {
          ExitGuardAt(st.account, st.clock.currentDay.value, op.exits, 0, j);
          OrdinaryFeePaysItself(c, st.account, op.exits[j]);
        }
      }
    }
    NoLeakWhenExitsPayTheirFees(c, ops, k);
  }

  /** So such a ledger reconciles to the cent whenever it is flat. */
  lemma ReconcilesBelowFullFees(c: Config, ops: seq<Op>, k: nat)
    requires k <= |ops| && OrdinaryFees(ops) && (c.entrySide == Sell ==> !c.cashAccount)
    requires !After(c, ops, k).failed && After(c, ops, k).account.positions == map[]
    ensures ReconciliationError(c, After(c, ops, k)) == Ok(0.0)
  {
    NoLeakBelowFullFees(c, ops, k);
    ReconciliationErrorIsLeak(c, ops, k);
  }

  // ---------- one charge per session, row by row ----------

  /** Call `m` marks the close of `day` for the first time and charges `amount` on its settled cash. */
  ghost predicate ChargesAt(c: Config, ops: seq<Op>, m: nat, day: int, amount: real) {
    m < |ops| && ops[m].MarkOp? &&
    var st := After(c, ops, m);
    !st.failed && st.clock.currentDay == Some(day) && !st.clock.interestCharged &&
    amount == InterestCharge(c, st.account.settled)
  }

  /** Some call among the first `k` charged `amount` for `day`. */
  ghost predicate ChargedBefore(c: Config, ops: seq<Op>, k: nat, day: int, amount: real) {
    exists m :: 0 <= m < k && ChargesAt(c, ops, m, day, amount)
  }

  /** Every finished session, and the current one once charged, owes its amount to such a call. */
  ghost predicate RowsCharged(c: Config, ops: seq<Op>, k: nat)
    requires k <= |ops|
  {
    var clock := After(c, ops, k).clock;
    (forall i :: 0 <= i < |clock.daily| ==> ChargedBefore(c, ops, k, clock.daily[i].day, clock.daily[i].interest)) &&
    (clock.currentDay.Some? && clock.interestCharged ==>
      ChargedBefore(c, ops, k, clock.currentDay.value, clock.todayInterest))
  }

  /** Each row of the daily log carries the interest on the settled cash of that session's first mark. */
  lemma {:induction false} RowsCarryTheirCharge(c: Config, ops: seq<Op>, k: nat)
    requires k <= |ops|
    ensures RowsCharged(c, ops, k)
  {
    if k > 0 {
      RowsCarryTheirCharge(c, ops, k - 1);
      var st, st1 := After(c, ops, k - 1), After(c, ops, k);
      if ops[k - 1].MarkOp? && st1.clock.interestCharged && !st.clock.interestCharged {
        assert ChargesAt(c, ops, k - 1, st.clock.currentDay.value, st1.clock.todayInterest);
      }
    }
  }

  /** The sessions have moved past the first charge of `day`. */
  ghost predicate Past(k: Clock, day: int) {
    match k.currentDay
    case Some(today) => today > day || (today == day && k.interestCharged)
    case None => k.lastFinished.Some? && k.lastFinished.value >= day
  }

  lemma PastStays(c: Config, st: State, op: Op, day: int)
    requires Past(st.clock, day)
    ensures Past(Apply(c, st, op).0.clock, day)
  {
  }

  lemma {:induction false} PastAfterCharge(c: Config, ops: seq<Op>, m: nat, day: int, amount: real, k: nat)
    requires ChargesAt(c, ops, m, day, amount) && m < k <= |ops|
    ensures Past(After(c, ops, k).clock, day)
    decreases k
  {
    if k > m + 1 {
      PastAfterCharge(c, ops, m, day, amount, k - 1);
      PastStays(c, After(c, ops, k - 1), ops[k - 1], day);
    }
  }

  /** No session is ever charged by two calls. */
  lemma ChargedByOneCall(c: Config, ops: seq<Op>, m: nat, n: nat, day: int, first: real, second: real)
    requires ChargesAt(c, ops, m, day, first) && ChargesAt(c, ops, n, day, second)
    ensures m == n && first == second
  {
    if m < n {
      PastAfterCharge(c, ops, m, day, first, n);
    } else if n < m {
      PastAfterCharge(c, ops, n, day, second, m);
    }
  }

  // ---------- when proceeds settle ----------

  /** What entries have moved. */
  function EntryFlows(events: seq<Event>): real {
    if events == [] then 0.0
    else
      var before := EntryFlows(events[..|events| - 1]);
      match events[|events| - 1] case Opened(_, lot) => before + lot.flow case Closed(_) => before
  }

  /** The proceeds due on day `d`. */
  function DueOn(c: Config, events: seq<Event>, d: int): real {
    if events == [] then 0.0
    else
      var before := DueOn(c, events[..|events| - 1], d);
      match events[|events| - 1]
      case Opened(_, _) => before
      case Closed(t) => if t.day + c.settlementDays == d then before + t.proceeds else before
  }

  /** The proceeds due on day `d` or before. */
  function DueBy(c: Config, events: seq<Event>, d: int): real {
    if events == [] then 0.0
    else
      var before := DueBy(c, events[..|events| - 1], d);
      match events[|events| - 1]
      case Opened(_, _) => before
      case Closed(t) => if t.day + c.settlementDays <= d then before + t.proceeds else before
  }

  /** Every trade was closed on day `last` or before. */
  ghost predicate ClosedBy(events: seq<Event>, last: int) {
    forall i :: 0 <= i < |events| && events[i].Closed? ==> events[i].trade.day <= last
  }

  lemma {:induction false} NextDayDue(c: Config, events: seq<Event>, d: int)
    ensures DueBy(c, events, d) == DueBy(c, events, d - 1) + DueOn(c, events, d)
  {
    if events != [] {
      NextDayDue(c, events[..|events| - 1], d);
    }
  }

  lemma {:induction false} NothingDueLater(c: Config, events: seq<Event>, last: int, d: int)
    requires ClosedBy(events, last) && last + c.settlementDays < d
    ensures DueOn(c, events, d) == 0.0
  {
    if events != [] {
      NothingDueLater(c, events[..|events| - 1], last, d);
    }
  }

  /** The day whose settlement was released last. */
  function Begun(k: Clock): Option<int> {
    if k.currentDay.Some? then k.currentDay else k.lastFinished
  }

  /** What has settled by day `b`: with a delay of no day at all, nothing ever does, since the settlement of
      a day is released before its exits. */
  function SettledBy(c: Config, events: seq<Event>, b: int): real {
    if c.settlementDays > 0 then DueBy(c, events, b) else 0.0
  }

  /** What is pending, and what has settled, on a cash account. */
  ghost predicate OnTime(c: Config, a: Account, begun: Option<int>, interest: real) {
    match begun
    case None =>
      a.events == [] && a.settled == c.initialEquity - interest &&
      forall j :: 0 <= j < |a.pending| ==> a.pending[j] == 0.0
    case Some(b) =>
      ClosedBy(a.events, b) &&
      a.settled == c.initialEquity + EntryFlows(a.events) + SettledBy(c, a.events, b) - interest &&
      forall j :: 0 <= j < |a.pending| ==>
        a.pending[j] == if c.settlementDays > 0 && j <= b then 0.0 else DueOn(c, a.events, j)
  }

  lemma EventAppended(c: Config, events: seq<Event>, e: Event, d: int)
    ensures EntryFlows(events + [e]) == EntryFlows(events) + (if e.Opened? then e.lot.flow else 0.0)
    ensures DueOn(c, events + [e], d) ==
      DueOn(c, events, d) + (if e.Closed? && e.trade.day + c.settlementDays == d then e.trade.proceeds else 0.0)
    ensures DueBy(c, events + [e], d) ==
      DueBy(c, events, d) + (if e.Closed? && e.trade.day + c.settlementDays <= d then e.trade.proceeds else 0.0)
  {
    assert (events + [e])[..|events|] == events;
  }

  lemma OpenOneOnTime(c: Config, a: Account, e: EntryRow, b: int, interest: real)
    requires OnTime(c, a, Some(b), interest)
    ensures OnTime(c, OpenOne(c, a, e).0, Some(b), interest)
  {
    var a1 := OpenOne(c, a, e).0;
    if a1 != a {
      var entry := Opened(e.symbol, LotOf(EntryPosition(e.side, e.answer)));
      assert a1.events == a.events + [entry];
      forall d
        ensures DueOn(c, a1.events, d) == DueOn(c, a.events, d) && DueBy(c, a1.events, d) == DueBy(c, a.events, d)
        ensures EntryFlows(a1.events) == EntryFlows(a.events) + entry.lot.flow
      {
        EventAppended(c, a.events, entry, d);
      }
    }
  }

  lemma {:induction false} OpenAllOnTime(c: Config, a: Account, es: seq<EntryRow>, n: nat, b: int, interest: real)
    requires n <= |es| && OnTime(c, a, Some(b), interest)
    ensures OnTime(c, OpenAll(c, a, es, n).0, Some(b), interest)
  {
    if n > 0 {
      OpenAllOnTime(c, a, es, n - 1, b, interest);
      OpenOneOnTime(c, OpenAll(c, a, es, n - 1).0, es[n - 1], b, interest);
    }
  }

  /** Logging a trade of day `b` adds its proceeds on its settlement day only. */
  lemma TradeFallsDue(c: Config, events: seq<Event>, t: Trade, b: int, d: int)
    requires t.day == b
    ensures DueOn(c, events + [Closed(t)], d) ==
      DueOn(c, events, d) + (if d == b + c.settlementDays then t.proceeds else 0.0)
    ensures SettledBy(c, events + [Closed(t)], b) == SettledBy(c, events, b)
    ensures EntryFlows(events + [Closed(t)]) == EntryFlows(events)
  {
    EventAppended(c, events, Closed(t), d);
    EventAppended(c, events, Closed(t), b);
  }

  lemma CreditOnTime(c: Config, a: Account, t: Trade, b: int, interest: real)
    requires c.cashAccount && OnTime(c, a, Some(b), interest) && t.day == b >= 0
    ensures OnTime(c, Credit(c, a, b, t.proceeds, t.borrowCost).(events := a.events + [Closed(t)]), Some(b), interest)
  {
    var a1 := Credit(c, a, b, t.proceeds, t.borrowCost).(events := a.events + [Closed(t)]);
    TradeFallsDue(c, a.events, t, b, b);
    forall j | 0 <= j < |a1.pending|
      ensures a1.pending[j] == if c.settlementDays > 0 && j <= b then 0.0 else DueOn(c, a1.events, j)
    {
      TradeFallsDue(c, a.events, t, b, j);
    }
  }

  lemma CloseOneOnTime(c: Config, a: Account, x: ExitRow, interest: real)
    requires c.cashAccount && OnTime(c, a, Some(x.day), interest) && x.day >= 0
    requires Closable(a, x) && x.answer.Charged?
    ensures OnTime(c, CloseOne(c, a, x).0, Some(x.day), interest)
  {
    var trade := TradeOf(Split(a.positions[x.symbol], ExitQuantity(a.positions[x.symbol], x)).0, x);
    CreditOnTime(c, a, trade, x.day, interest);
    var b := Credit(c, a, x.day, trade.proceeds, trade.borrowCost).(events := a.events + [Closed(trade)]);
    assert CloseOne(c, a, x).0 == b.(positions := CloseOne(c, a, x).0.positions);
  }

  lemma {:induction false} CloseAllOnTime(c: Config, a: Account, day: int, xs: seq<ExitRow>, n: nat, interest: real)
    requires c.cashAccount && OnTime(c, a, Some(day), interest) && day >= 0
    requires n <= |xs| && ExitGuard(a, day, xs, 0).None? && CloseAll(c, a, xs, n).1.None?
    ensures OnTime(c, CloseAll(c, a, xs, n).0, Some(day), interest)
  {
    if n > 0 {
      CloseAllOnTime(c, a, day, xs, n - 1, interest);
      StillClosable(c, a, day, xs, n - 1, n - 1);
      ExitGuardAt(a, day, xs, 0, n - 1);
      CloseOneOnTime(c, CloseAll(c, a, xs, n - 1).0, xs[n - 1], interest);
    }
  }

  lemma BeginOnTime(c: Config, st: State, day: int)
    requires OnTime(c, st.account, Begun(st.clock), st.clock.interest)
    requires BeginDay(c, st, day).1.None?
    ensures OnTime(c, BeginDay(c, st, day).0.account, Some(day), st.clock.interest)
  {
    var a := st.account;
    SettlementPaysOut(a, day);
    if Begun(st.clock).Some? {
      NextDayDue(c, a.events, day);
      if c.settlementDays == 0 {
        NothingDueLater(c, a.events, day - 1, day);
      }
    } else {
      assert DueBy(c, [], day) == 0.0 && forall j :: DueOn(c, [], j) == 0.0;
    }
  }

  lemma ApplyOnTime(c: Config, st: State, op: Op)
    requires c.cashAccount && !st.failed && !Apply(c, st, op).0.failed
    requires OnTime(c, st.account, Begun(st.clock), st.clock.interest)
    requires st.clock.currentDay.Some? ==> st.clock.currentDay.value >= 0
    ensures var st1 := Apply(c, st, op).0; OnTime(c, st1.account, Begun(st1.clock), st1.clock.interest)
  {
    match op
    case BeginOp(day) =>
      if BeginDay(c, st, day).1.None? {
        BeginOnTime(c, st, day);
      }
    case EntryOp(es) =>
      if st.clock.currentDay.Some? {
        OpenAllOnTime(c, st.account, es, |es|, st.clock.currentDay.value, st.clock.interest);
      }
    case ExitOp(xs, phase) =>
      if CloseResolved(c, st, xs, phase).1.None? {
        CloseAllOnTime(c, st.account, st.clock.currentDay.value, xs, |xs|, st.clock.interest);
      }
    case MarkOp =>
    case FinishOp =>
  }

  lemma {:induction false} RunsOnTime(c: Config, ops: seq<Op>, k: nat)
    requires k <= |ops| && c.cashAccount && !After(c, ops, k).failed
    ensures var st := After(c, ops, k);
      OnTime(c, st.account, Begun(st.clock), st.clock.interest) &&
      (st.clock.currentDay.Some? ==> st.clock.currentDay.value >= 0)
  {
    if k > 0 {
      var before := After(c, ops, k - 1);
      if before.failed {
        FailedIsFinal(c, before, ops[k - 1]);
        assert false;
      }
      RunsOnTime(c, ops, k - 1);
      ApplyOnTime(c, before, ops[k - 1]);
    }
  }

  /** Settled cash, exactly: once a day has begun, it is the initial equity, plus what every entry moved, plus
      the proceeds of every exit whose settlement day has come, less interest; the proceeds of later ones are
      pending on their day. So each exit's proceeds are in settled cash from its settlement day on, and not
      before. */
  lemma SettledExactlyWhenDue(c: Config, ops: seq<Op>, k: nat, today: int)
    requires k <= |ops| && c.cashAccount && c.settlementDays > 0 && !After(c, ops, k).failed
    requires Begun(After(c, ops, k).clock) == Some(today)
    ensures var st := After(c, ops, k);
      st.account.settled ==
        c.initialEquity + EntryFlows(st.account.events) + DueBy(c, st.account.events, today) - st.clock.interest &&
      forall j :: 0 <= j < |st.account.pending| && today < j ==> st.account.pending[j] == DueOn(c, st.account.events, j)
  {
    RunsOnTime(c, ops, k);
  }

  /** The exception: with a settlement delay of zero days, the proceeds stay pending on the day of their exit
      and no run ever moves them to settled cash. */
  lemma ZeroDelayNeverSettles(c: Config, ops: seq<Op>, k: nat, today: int)
    requires k <= |ops| && c.cashAccount && c.settlementDays == 0 && !After(c, ops, k).failed
    requires Begun(After(c, ops, k).clock) == Some(today)
    ensures var st := After(c, ops, k);
      st.account.settled == c.initialEquity + EntryFlows(st.account.events) - st.clock.interest &&
      forall j :: 0 <= j < |st.account.pending| ==> st.account.pending[j] == DueOn(c, st.account.events, j)
  {
    RunsOnTime(c, ops, k);
  }
}
