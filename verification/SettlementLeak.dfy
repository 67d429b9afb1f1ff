/** A concrete ledger run on which the floor at zero of settlement creates a dollar.

    The configuration forces a round trip to cost 40000 basis points, so every leg is charged twice its
    notional: a sale then takes cash out of the account. Up to 10000 basis points a leg nothing leaks
    (`LedgerRuns.NoLeakBelowFullFees`). */
module SettlementLeak {
  import opened Common
  import opened Ledger
  import opened LedgerRuns

  const LEAK_CONFIG: Config := Config(600.0, true, 2, 0.0, 5, 4, Buy)

  const BUY_A: EntryRow := EntryRow("A", -1, Buy, 1.0, Booked(1.0, 100.0, 2.0, 0.0))
  const BUY_B: EntryRow := EntryRow("B", -1, Buy, 1.0, Booked(1.0, 100.0, 2.0, 0.0))
  const SELL_A: ExitRow := ExitRow("A", None, 100.0, 0, "stop", Charged(2.0, 0.0, 0.0))
  const SELL_B: ExitRow := ExitRow("B", None, 1.0, 1, "stop", Charged(2.0, 0.0, 0.0))

  /** Two shares are bought at 100; the first is sold at 100, and a day later the second at 1. When the
      100 dollars owed for the first sale settle, 101 are owed in all: the last dollar is forgotten. */
  const LEAK_OPS: seq<Op> := [
    BeginOp(0), EntryOp([BUY_A, BUY_B]), ExitOp([SELL_A], IntradayPhase), MarkOp, FinishOp,
    BeginOp(1), ExitOp([SELL_B], IntradayPhase), MarkOp, FinishOp, BeginOp(2)]

  const SHARE_AT_100: Position := Position(Buy, 1.0, 100.0, 300.0, -300.0)
  const TRADE_A: Trade := Trade("A", 0, 1.0, 300.0, -100.0, 0.0, -400.0)
  const TRADE_B: Trade := Trade("B", 1, 1.0, 300.0, -1.0, 0.0, -301.0)
  const OPENINGS: seq<Event> := [Opened("A", LotOf(SHARE_AT_100)), Opened("B", LotOf(SHARE_AT_100))]

  const BOUGHT: Account :=
    Account(0.0, 0.0, [0.0, 0.0, 0.0, 0.0], map["A" := SHARE_AT_100, "B" := SHARE_AT_100], OPENINGS)
  const SOLD_A: Account :=
    Account(0.0, -100.0, [0.0, 0.0, -100.0, 0.0], map["B" := SHARE_AT_100], OPENINGS + [Closed(TRADE_A)])
  const SOLD_BOTH: Account :=
    Account(0.0, -101.0, [0.0, 0.0, -100.0, -1.0], map[], OPENINGS + [Closed(TRADE_A)] + [Closed(TRADE_B)])

  lemma BuysBoth(a: Account)
    requires a == Account(600.0, 0.0, [0.0, 0.0, 0.0, 0.0], map[], [])
    ensures OpenAll(LEAK_CONFIG, a, [BUY_A, BUY_B], 2) == (BOUGHT, None)
  {
    var first := OpenOne(LEAK_CONFIG, a, BUY_A);
    assert OpenAll(LEAK_CONFIG, a, [BUY_A, BUY_B], 1) == first;
    assert EntryPosition(Buy, BUY_A.answer) == SHARE_AT_100 && EntryPosition(Buy, BUY_B.answer) == SHARE_AT_100;
    assert first.0.settled == 300.0 && first.0.positions == map["A" := SHARE_AT_100];
    assert first.0.events == [OPENINGS[0]] && first.1 == None;
    var second := OpenOne(LEAK_CONFIG, first.0, BUY_B);
    assert second.0.events == OPENINGS && second.0.positions == BOUGHT.positions;
  }

  lemma SellsA()
    ensures ExitGuard(BOUGHT, 0, [SELL_A], 0) == None
    ensures CloseAll(LEAK_CONFIG, BOUGHT, [SELL_A], 1) == (SOLD_A, None)
  {
    assert CloseAll(LEAK_CONFIG, BOUGHT, [SELL_A], 0) == (BOUGHT, None);
    assert TradeOf(SHARE_AT_100, SELL_A) == TRADE_A;
    assert BOUGHT.positions - {"A"} == SOLD_A.positions;
    var sold := CloseOne(LEAK_CONFIG, BOUGHT, SELL_A).0;
    assert sold.pending == SOLD_A.pending && sold.events == SOLD_A.events && sold.positions == SOLD_A.positions;
  }

  lemma SellsB()
    ensures ExitGuard(SOLD_A, 1, [SELL_B], 0) == None
    ensures CloseAll(LEAK_CONFIG, SOLD_A, [SELL_B], 1) == (SOLD_BOTH, None)
  {
    assert CloseAll(LEAK_CONFIG, SOLD_A, [SELL_B], 0) == (SOLD_A, None);
    assert TradeOf(SHARE_AT_100, SELL_B) == TRADE_B;
    assert SOLD_A.positions - {"B"} == SOLD_BOTH.positions;
    var sold := CloseOne(LEAK_CONFIG, SOLD_A, SELL_B).0;
    assert sold.pending == SOLD_BOTH.pending && sold.events == SOLD_BOTH.events;
    assert sold.positions == SOLD_BOTH.positions;
  }

  lemma FirstMorning(st: State)
    requires st == InitialState(LEAK_CONFIG)
    ensures After(LEAK_CONFIG, LEAK_OPS, 2) ==
      State(BOUGHT, Clock(Some(0), None, OpenPhase, false, false, 0.0, 0.0, []), false)
  {
    var c, ops := LEAK_CONFIG, LEAK_OPS;
    var zeros := [0.0, 0.0, 0.0, 0.0];
    assert st.account.pending == zeros && zeros[0 := 0.0] == zeros;
    var a := Account(600.0, 0.0, zeros, map[], []);
    assert After(c, ops, 0) == st;
    assert After(c, ops, 1) == State(a, Clock(Some(0), None, OpenPhase, false, false, 0.0, 0.0, []), false);
    BuysBoth(a);
    assert ops[1].entries == [BUY_A, BUY_B] && EntryGuard(c, 0, ops[1].entries, 2) == None;
    assert EntryGuard(c, 0, ops[1].entries, 1) == None;
  }

  lemma FirstDay()
    requires After(LEAK_CONFIG, LEAK_OPS, 2) ==
      State(BOUGHT, Clock(Some(0), None, OpenPhase, false, false, 0.0, 0.0, []), false)
    ensures After(LEAK_CONFIG, LEAK_OPS, 5) ==
      State(SOLD_A, Clock(None, Some(0), ClosePhase, true, true, 0.0, 0.0, [DayRow(0, 0.0)]), false)
  {
    var c, ops := LEAK_CONFIG, LEAK_OPS;
    SellsA();
    assert After(c, ops, 3) == State(SOLD_A, Clock(Some(0), None, IntradayPhase, false, false, 0.0, 0.0, []), false);
    assert After(c, ops, 4) == State(SOLD_A, Clock(Some(0), None, ClosePhase, true, true, 0.0, 0.0, []), false);
  }

  lemma SecondDay()
    requires After(LEAK_CONFIG, LEAK_OPS, 5) ==
      State(SOLD_A, Clock(None, Some(0), ClosePhase, true, true, 0.0, 0.0, [DayRow(0, 0.0)]), false)
    ensures After(LEAK_CONFIG, LEAK_OPS, 9) ==
      State(SOLD_BOTH, Clock(None, Some(1), ClosePhase, true, true, 0.0, 0.0, [DayRow(0, 0.0), DayRow(1, 0.0)]), false)
  {
    var c, ops, daily := LEAK_CONFIG, LEAK_OPS, [DayRow(0, 0.0)];
    assert SOLD_A.pending[1 := 0.0] == SOLD_A.pending;
    assert After(c, ops, 6) == State(SOLD_A, Clock(Some(1), Some(0), OpenPhase, false, false, 0.0, 0.0, daily), false);
    SellsB();
    var sold := Clock(Some(1), Some(0), IntradayPhase, false, false, 0.0, 0.0, daily);
    assert After(c, ops, 7) == State(SOLD_BOTH, sold, false);
    var marked := Clock(Some(1), Some(0), ClosePhase, true, true, 0.0, 0.0, daily);
    assert After(c, ops, 8) == State(SOLD_BOTH, marked, false);
  }

  lemma LeakPnl()
    ensures Pnl(SOLD_BOTH.events) == -701.0
  {
    Appended(OPENINGS + [Closed(TRADE_A)], Closed(TRADE_B));
    Appended(OPENINGS, Closed(TRADE_A));
    assert OPENINGS == [OPENINGS[0]] + [OPENINGS[1]];
    Appended([OPENINGS[0]], OPENINGS[1]);
  }

  /** The reconciliation law fails on that run: flat, never refused, and one dollar too many. */
  lemma LeakingRun()
    ensures var st := After(LEAK_CONFIG, LEAK_OPS, 10);
      !st.failed && st.account.positions == map[] && ReconciliationError(LEAK_CONFIG, st) == Ok(1.0)
  {
    FirstMorning(InitialState(LEAK_CONFIG));
    FirstDay();
    SecondDay();
    LeakPnl();
    assert After(LEAK_CONFIG, LEAK_OPS, 10).account == Settle(SOLD_BOTH, 2);
  }
}
