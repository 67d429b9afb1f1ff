/** A concrete ledger run on which a sale never settles: a cash account with a settlement delay of no day. */
module StrandedCash {
  import opened Common
  import opened Ledger
  import opened LedgerRuns

  const ZERO_DELAY: Config := Config(100.0, true, 0, 0.0, 5, 2, Buy)

  const BUY: EntryRow := EntryRow("A", -1, Buy, 1.0, Booked(1.0, 100.0, 0.0, 0.0))
  const SELL: ExitRow := ExitRow("A", None, 100.0, 0, "stop", Charged(0.0, 0.0, 0.0))

  const STRANDING_OPS: seq<Op> := [
    BeginOp(0), EntryOp([BUY]), ExitOp([SELL], IntradayPhase), MarkOp, FinishOp, BeginOp(1)]

  const SHARE: Position := Position(Buy, 1.0, 100.0, 100.0, -100.0)
  const SALE: Trade := Trade("A", 0, 1.0, 100.0, 100.0, 0.0, 0.0)
  const HOLDING: Account := Account(0.0, 0.0, [0.0, 0.0], map["A" := SHARE], [Opened("A", LotOf(SHARE))])
  const SOLD: Account := Account(0.0, 100.0, [100.0, 0.0], map[], [Opened("A", LotOf(SHARE)), Closed(SALE)])

  lemma Buys(a: Account)
    requires a == Account(100.0, 0.0, [0.0, 0.0], map[], [])
    ensures OpenAll(ZERO_DELAY, a, [BUY], 1) == (HOLDING, None)
  {
    assert OpenAll(ZERO_DELAY, a, [BUY], 0) == (a, None);
    assert EntryPosition(Buy, BUY.answer) == SHARE;
    var b := OpenOne(ZERO_DELAY, a, BUY).0;
    assert b.events == HOLDING.events && b.positions == HOLDING.positions;
  }

  lemma Sells()
    ensures ExitGuard(HOLDING, 0, [SELL], 0) == None
    ensures CloseAll(ZERO_DELAY, HOLDING, [SELL], 1) == (SOLD, None)
  {
    assert CloseAll(ZERO_DELAY, HOLDING, [SELL], 0) == (HOLDING, None);
    assert TradeOf(SHARE, SELL) == SALE;
    assert HOLDING.positions - {"A"} == SOLD.positions;
    var sold := CloseOne(ZERO_DELAY, HOLDING, SELL).0;
    assert sold.pending == SOLD.pending && sold.events == SOLD.events && sold.positions == SOLD.positions;
  }

  lemma Morning(st: State)
    requires st == InitialState(ZERO_DELAY)
    ensures After(ZERO_DELAY, STRANDING_OPS, 2) ==
      State(HOLDING, Clock(Some(0), None, OpenPhase, false, false, 0.0, 0.0, []), false)
  {
    var c, ops, zeros := ZERO_DELAY, STRANDING_OPS, [0.0, 0.0];
    assert st.account.pending == zeros && zeros[0 := 0.0] == zeros;
    var a := Account(100.0, 0.0, zeros, map[], []);
    assert After(c, ops, 0) == st;
    assert After(c, ops, 1) == State(a, Clock(Some(0), None, OpenPhase, false, false, 0.0, 0.0, []), false);
    Buys(a);
    assert ops[1].entries == [BUY] && EntryGuard(c, 0, ops[1].entries, 1) == None;
  }

  /** The next session has begun, and the 100 dollars of the sale are still unsettled, pending on a day that
      is over. */
  lemma SaleNeverSettles()
    ensures var st := After(ZERO_DELAY, STRANDING_OPS, 6);
      !st.failed && st.clock.currentDay == Some(1) && st.account.settled == 0.0 && st.account.unsettled == 100.0 &&
      st.account.pending == [100.0, 0.0]
  {
    var c, ops := ZERO_DELAY, STRANDING_OPS;
    Morning(InitialState(c));
    Sells();
    assert After(c, ops, 3) == State(SOLD, Clock(Some(0), None, IntradayPhase, false, false, 0.0, 0.0, []), false);
    assert After(c, ops, 4) == State(SOLD, Clock(Some(0), None, ClosePhase, true, true, 0.0, 0.0, []), false);
    assert After(c, ops, 5).account == SOLD && After(c, ops, 5).clock.lastFinished == Some(0);
    assert SOLD.pending[1 := 0.0] == SOLD.pending;
  }
}
