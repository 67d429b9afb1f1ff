/** The order rows of the replay: what the watcher, the exit scan and the end of the window do to
    the protection children of every entry. */
module OrderBook {
  import opened Common
  import opened Microstructure
  import opened ProtectionReplay

  datatype Role = EntryOrder | TakeProfitOrder | InitialStopOrder | TrailingStopOrder

  datatype Status = New | HeldBack | Submitted | PartiallyFilled | Filled | Canceled | Rejected | Failed | Expired

  datatype Order = Order(role: Role, status: Status)

  /** One row state per intent id. */
  type Book = map<string, Order>

  predicate Terminal(s: Status) {
    s == Filled || s == Canceled || s == Rejected || s == Failed || s == Expired
  }

  /** The children of one entry and what the replay decided for it. A missing child has no id. */
  datatype Signal = Signal(
    takeProfit: Option<string>,
    initialStop: Option<string>,
    trailingStop: Option<string>,
    transitioned: bool,
    exit: Option<Reason>)
  {
    function Child(reason: Reason): Option<string> {
      match reason
      case TakeProfit => takeProfit
      case InitialStop => initialStop
      case TrailingStop => trailingStop
    }
  }

  function SetStatus(b: Book, id: Option<string>, s: Status): Book {
    if id.Some? && id.value in b then b[id.value := b[id.value].(status := s)] else b
  }

  function CancelIfOpen(b: Book, id: Option<string>): Book {
    if id.Some? && id.value in b && !Terminal(b[id.value].status) then SetStatus(b, id, Canceled) else b
  }

  // ---------- one signal, then all of them ----------

  /** The watcher replaces the initial stop by the trailing stop. */
  function WatchOne(b: Book, g: Signal): Book {
    if g.transitioned then SetStatus(SetStatus(b, g.initialStop, Canceled), g.trailingStop, Submitted) else b
  }

  /** The exit fills its own child and cancels the open siblings. */
  function ExitOne(b: Book, g: Signal): Book {
    if g.exit.None? then b
    else
      var filled := g.Child(g.exit.value);
      var b0 := SetStatus(b, filled, Filled);
      var b1 := if g.takeProfit != filled then CancelIfOpen(b0, g.takeProfit) else b0;
      var b2 := if g.initialStop != filled then CancelIfOpen(b1, g.initialStop) else b1;
      if g.trailingStop != filled then CancelIfOpen(b2, g.trailingStop) else b2
  }

  function WatchAll(b: Book, gs: seq<Signal>, n: nat): Book
    requires n <= |gs|
  {
    if n == 0 then b else WatchOne(WatchAll(b, gs, n - 1), gs[n - 1])
  }

  function ExitAll(b: Book, gs: seq<Signal>, n: nat): Book
    requires n <= |gs|
  {
    if n == 0 then b else ExitOne(ExitAll(b, gs, n - 1), gs[n - 1])
  }

  /** Children still open when the window ends expire; entry rows are left alone. */
  function ExpireOpen(b: Book): Book {
    map id | id in b ::
      if b[id].role != EntryOrder && !Terminal(b[id].status) then b[id].(status := Expired) else b[id]
  }

  function Final(b: Book, gs: seq<Signal>): Book {
    ExpireOpen(ExitAll(WatchAll(b, gs, |gs|), gs, |gs|))
  }

  /** The lifecycle frame, rewritten in place by the three passes. */
  class LifecycleFrame {
    var orders: Book

    constructor (rows: Book)
      ensures orders == rows
    {
      orders := rows;
    }

    method Mark(id: Option<string>, s: Status)
      modifies this
      ensures orders == SetStatus(old(orders), id, s)
    {
      if id.Some? && id.value in orders {
        orders := orders[id.value := orders[id.value].(status := s)];
      }
    }

    method CancelSibling(id: Option<string>, filled: Option<string>)
      modifies this
      ensures orders == if id != filled then CancelIfOpen(old(orders), id) else old(orders)
    {
      if id.Some? && id != filled && id.value in orders && !Terminal(orders[id.value].status) {
        Mark(id, Canceled);
      }
    }

    method ReplayWatcher(gs: seq<Signal>)
      modifies this
      ensures orders == WatchAll(old(orders), gs, |gs|)
    {
      for i := 0 to |gs|
        invariant orders == WatchAll(old(orders), gs, i)
      {
        if gs[i].transitioned {
          Mark(gs[i].initialStop, Canceled);
          Mark(gs[i].trailingStop, Submitted);
        }
      }
    }

    method ReplayExits(gs: seq<Signal>)
      modifies this
      ensures orders == ExpireOpen(ExitAll(old(orders), gs, |gs|))
    {
      for i := 0 to |gs|
        invariant orders == ExitAll(old(orders), gs, i)
      {
        if gs[i].exit.Some? {
          var filled := gs[i].Child(gs[i].exit.value);
          Mark(filled, Filled);
          CancelSibling(gs[i].takeProfit, filled);
          CancelSibling(gs[i].initialStop, filled);
          CancelSibling(gs[i].trailingStop, filled);
        }
      }
      orders := ExpireOpen(orders);
    }
  }

  // ---------- terminal states ----------

  function Ids(g: Signal): set<string> {
    (if g.takeProfit.Some? then {g.takeProfit.value} else {}) +
    (if g.initialStop.Some? then {g.initialStop.value} else {}) +
    (if g.trailingStop.Some? then {g.trailingStop.value} else {})
  }

  /** Intent ids are unique: inside a group and across groups. */
  ghost predicate DistinctIds(gs: seq<Signal>) {
    (forall i, r1: Reason, r2: Reason :: 0 <= i < |gs| && r1 != r2 && gs[i].Child(r1).Some? ==>
      gs[i].Child(r1) != gs[i].Child(r2)) &&
    (forall i, j :: 0 <= i < j < |gs| ==> Ids(gs[i]) !! Ids(gs[j]))
  }

  /** Children are emitted open, under their own role. */
  ghost predicate EmittedOpen(b: Book, gs: seq<Signal>) {
    forall i, r: Reason :: 0 <= i < |gs| && gs[i].Child(r).Some? ==>
      gs[i].Child(r).value in b && b[gs[i].Child(r).value].role != EntryOrder &&
      !Terminal(b[gs[i].Child(r).value].status)
  }

  /** The status in which a child ends, given only what the replay decided for its group. */
  function Outcome(g: Signal, r: Reason): Status {
    if g.exit == Some(r) then Filled
    else if g.exit.Some? then Canceled
    else if r == InitialStop && g.transitioned then Canceled
    else Expired
  }

  ghost predicate SameAt(b1: Book, b2: Book, id: string) {
    (id in b1 <==> id in b2) && (id in b1 ==> b1[id] == b2[id])
  }

  lemma WatchOneSkips(b: Book, g: Signal, id: string)
    requires id !in Ids(g)
    ensures SameAt(b, WatchOne(b, g), id)
  {
  }

  lemma ExitOneSkips(b: Book, g: Signal, id: string)
    requires id !in Ids(g)
    ensures SameAt(b, ExitOne(b, g), id)
  {
    if g.exit.Some? {
      var filled := g.Child(g.exit.value);
      var b0 := SetStatus(b, filled, Filled);
      assert SameAt(b, b0, id);
      var b1 := if g.takeProfit != filled then CancelIfOpen(b0, g.takeProfit) else b0;
      assert SameAt(b, b1, id);
      var b2 := if g.initialStop != filled then CancelIfOpen(b1, g.initialStop) else b1;
      assert SameAt(b, b2, id);
    }
  }

  /** Signals `i .. n` leave a row they do not own as the first `i` signals left it. */
  lemma {:induction false} SignalsSkip(b: Book, gs: seq<Signal>, i: nat, n: nat, id: string)
    requires i <= n <= |gs| && forall j :: i <= j < n ==> id !in Ids(gs[j])
    ensures SameAt(WatchAll(b, gs, i), WatchAll(b, gs, n), id)
    ensures SameAt(ExitAll(b, gs, i), ExitAll(b, gs, n), id)
    decreases n
  {
    if i < n {
      SignalsSkip(b, gs, i, n - 1, id);
      WatchOneSkips(WatchAll(b, gs, n - 1), gs[n - 1], id);
      ExitOneSkips(ExitAll(b, gs, n - 1), gs[n - 1], id);
    }
  }

  /** The rows of signal `i` are untouched by every other signal. */
  lemma OnlyOwnSignal(b: Book, gs: seq<Signal>, i: nat, id: string)
    requires i < |gs| && DistinctIds(gs) && id in Ids(gs[i])
    ensures SameAt(b, WatchAll(b, gs, i), id) && SameAt(WatchAll(b, gs, i + 1), WatchAll(b, gs, |gs|), id)
    ensures SameAt(b, ExitAll(b, gs, i), id) && SameAt(ExitAll(b, gs, i + 1), ExitAll(b, gs, |gs|), id)
  {
    SignalsSkip(b, gs, 0, i, id);
    SignalsSkip(b, gs, i + 1, |gs|, id);
  }

  /** After the watcher: the initial stop of a transitioned group is canceled, its trailing stop is
      working, and every other child is as emitted. */
  lemma AfterWatcher(b: Book, gs: seq<Signal>, i: nat, r: Reason)
    requires i < |gs| && DistinctIds(gs) && EmittedOpen(b, gs) && gs[i].Child(r).Some?
    ensures var id := gs[i].Child(r).value;
      var after := WatchAll(b, gs, |gs|);
      id in after && after[id].role == b[id].role &&
      after[id].status ==
        if gs[i].transitioned && r == InitialStop then Canceled
        else if gs[i].transitioned && r == TrailingStop then Submitted
        else b[id].status
  {
    var id := gs[i].Child(r).value;
    assert id in Ids(gs[i]);
    OnlyOwnSignal(b, gs, i, id);
    assert gs[i].initialStop == gs[i].Child(InitialStop) && gs[i].trailingStop == gs[i].Child(TrailingStop);
  }

  lemma ExitOneOutcome(b: Book, g: Signal, r: Reason)
    requires g.exit.Some? && g.Child(r).Some? && g.Child(r).value in b
    requires forall r1: Reason, r2: Reason :: r1 != r2 && g.Child(r1).Some? ==> g.Child(r1) != g.Child(r2)
    requires Terminal(b[g.Child(r).value].status) ==> b[g.Child(r).value].status == Canceled
    ensures var id := g.Child(r).value;
      id in ExitOne(b, g) && ExitOne(b, g)[id] == b[id].(status := if g.exit.value == r then Filled else Canceled)
  {
    assert g.takeProfit == g.Child(TakeProfit) && g.initialStop == g.Child(InitialStop) &&
           g.trailingStop == g.Child(TrailingStop);
  }

  /** Terminal states: whatever the interleaving of signals, each child ends exactly in the outcome of
      its own group. No child is left open, at most the exit's child is filled, and after an exit
      every sibling is canceled. */
  lemma ChildEndsInOutcome(b: Book, gs: seq<Signal>, i: nat, r: Reason)
    requires i < |gs| && DistinctIds(gs) && EmittedOpen(b, gs) && gs[i].Child(r).Some?
    ensures var id := gs[i].Child(r).value;
      id in Final(b, gs) && Final(b, gs)[id] == b[id].(status := Outcome(gs[i], r)) &&
      Terminal(Final(b, gs)[id].status)
  {
    var id := gs[i].Child(r).value;
    var w := WatchAll(b, gs, |gs|);
    AfterWatcher(b, gs, i, r);
    assert id in Ids(gs[i]);
    OnlyOwnSignal(w, gs, i, id);
    if gs[i].exit.Some? {
      ExitOneOutcome(ExitAll(w, gs, i), gs[i], r);
    }
  }

  /** Rows outside every group keep their state, unless they are open children the window expires. */
  lemma UnrelatedRowsKept(b: Book, gs: seq<Signal>, id: string)
    requires id in b && forall j :: 0 <= j < |gs| ==> id !in Ids(gs[j])
    ensures id in Final(b, gs) && Final(b, gs)[id] ==
      if b[id].role != EntryOrder && !Terminal(b[id].status) then b[id].(status := Expired) else b[id]
  {
    SignalsSkip(b, gs, 0, |gs|, id);
    SignalsSkip(WatchAll(b, gs, |gs|), gs, 0, |gs|, id);
  }

  /** The end of the window, status by status: it expires a child that is new, held back, submitted or partly
      filled, and keeps every other status and every entry row. */
  lemma ExpiryByStatus(b: Book, id: string)
    requires id in b
    ensures id in ExpireOpen(b) && ExpireOpen(b)[id].role == b[id].role
    ensures ExpireOpen(b)[id].status ==
      if b[id].role != EntryOrder && b[id].status in {New, HeldBack, Submitted, PartiallyFilled} then Expired
      else b[id].status
    ensures b[id].role != EntryOrder ==> ExpireOpen(b)[id].status in {Filled, Canceled, Rejected, Failed, Expired}
  {
  }

  /** A row that is terminal when the exit pass begins is rewritten to something else exactly when it
      is the initial stop of a transitioned group whose exit is that very stop. */
  lemma TerminalRewrittenIff(b: Book, gs: seq<Signal>, i: nat, r: Reason)
    requires i < |gs| && DistinctIds(gs) && EmittedOpen(b, gs) && gs[i].Child(r).Some?
    ensures var id := gs[i].Child(r).value;
      var w := WatchAll(b, gs, |gs|);
      id in w && id in Final(b, gs) &&
      (Terminal(w[id].status) && Final(b, gs)[id].status != w[id].status
       <==> r == InitialStop && gs[i].transitioned && gs[i].exit == Some(InitialStop))
  {
    AfterWatcher(b, gs, i, r);
    ChildEndsInOutcome(b, gs, i, r);
  }

  // ---------- from the replay of a position to its orders ----------

  /** The signal the replay of one position produces. */
  function SignalOf(p: Protection, s: Settings, h: seq<Bar>, start: nat, takeProfit: Option<string>,
                    initialStop: Option<string>, trailingStop: Option<string>): Signal {
    var x := Replay(p, s, h, start);
    Signal(takeProfit, initialStop, trailingStop, Watch(p, h, start).Transitioned?,
           if x.Some? then Some(x.value.reason) else None)
  }

  /** The one row that is rewritten, read off the bars before any pass: the watcher cancels the initial stop
      and the exit pass fills it exactly when the activation price is reached with a session to spare, and
      some scanned day touches the stop with no trailing stop in force, before any touched it or the
      take-profit. With trailing disabled that day may come after the transition. */
  lemma CanceledThenFilledIff(b: Book, gs: seq<Signal>, i: nat, p: Protection, s: Settings, h: seq<Bar>, start: nat)
    requires i < |gs| && DistinctIds(gs) && EmittedOpen(b, gs) && gs[i].initialStop.Some?
    requires gs[i] == SignalOf(p, s, h, start, gs[i].takeProfit, gs[i].initialStop, gs[i].trailingStop)
    ensures var id, watched, final := gs[i].initialStop.value, WatchAll(b, gs, |gs|), Final(b, gs);
      id in watched && id in final &&
      (watched[id].status == Canceled && final[id].status == Filled <==>
        Watch(p, h, start).Transitioned? && p.fillPrice > 0.0 && p.takeProfit.Some? &&
        exists d: nat :: StoppedOn(p, s, Watch(p, h, start), h, FirstScanned(s, start), d))
  {
    assert gs[i].Child(InitialStop) == gs[i].initialStop;
    AfterWatcher(b, gs, i, InitialStop);
    ChildEndsInOutcome(b, gs, i, InitialStop);
    InitialStopExitIff(p, s, h, start);
  }

  /** A trailing child is filled only in a group whose initial stop the watcher already canceled. With
      trailing enabled, the initial stop of a transitioned group is filled only on a day before the
      transition takes effect: the one case in which a canceled row becomes filled. */
  lemma FilledChildMatchesHandOff(p: Protection, s: Settings, h: seq<Bar>, start: nat, g: Signal)
    requires g == SignalOf(p, s, h, start, g.takeProfit, g.initialStop, g.trailingStop)
    requires s.trailingEnabled && p.trailingPct.Some?
    ensures Outcome(g, TrailingStop) == Filled ==>
      g.transitioned && Replay(p, s, h, start).value.day >= Watch(p, h, start).effective
    ensures Outcome(g, InitialStop) == Filled && g.transitioned ==>
      Replay(p, s, h, start).value.day < Watch(p, h, start).effective
  {
    if Replay(p, s, h, start).Some? {
      HandOff(p, s, h, start);
    }
  }

  /** A replay that does so: the activation price is reached on the second day, so the trailing stop takes
      over on the third, but the first day already falls through the initial stop. */
  lemma CanceledThenFilled()
    ensures
      var p := Protection(Buy, 100.0, Some(200.0), Some(50.0), Some(0.1), Some(110.0));
      var s := Settings(Conservative, false, true, true);
      var h := [Bar(Some(105.0), Some(45.0)), Bar(Some(120.0), Some(60.0)), Bar(Some(115.0), Some(60.0))];
      var g := SignalOf(p, s, h, 0, Some("tp"), Some("stop"), Some("trail"));
      var b: Book := map["tp" := Order(TakeProfitOrder, New), "stop" := Order(InitialStopOrder, New),
                         "trail" := Order(TrailingStopOrder, HeldBack)];
      var watched, final := WatchAll(b, [g], 1), Final(b, [g]);
      "stop" in watched && watched["stop"].status == Canceled && "stop" in final && final["stop"].status == Filled
  {
    var p := Protection(Buy, 100.0, Some(200.0), Some(50.0), Some(0.1), Some(110.0));
    var s := Settings(Conservative, false, true, true);
    var h := [Bar(Some(105.0), Some(45.0)), Bar(Some(120.0), Some(60.0)), Bar(Some(115.0), Some(60.0))];
    assert FirstTrigger(Buy, 110.0, h, 1) == Some(1);
    assert Watch(p, h, 0) == Transitioned(1, 2);
    assert ResolveDay(p, s, Watch(p, h, 0), h[0], 0, 100.0) == Exit(At(50.0), InitialStop);
    var g := SignalOf(p, s, h, 0, Some("tp"), Some("stop"), Some("trail"));
    assert g.transitioned && g.exit == Some(InitialStop);
    var b: Book := map["tp" := Order(TakeProfitOrder, New), "stop" := Order(InitialStopOrder, New),
                       "trail" := Order(TrailingStopOrder, HeldBack)];
    assert WatchAll(b, [g], 0) == b && WatchAll(b, [g], 1) == WatchOne(b, g);
    var w := WatchOne(b, g);
    assert ExitAll(w, [g], 0) == w && ExitAll(w, [g], 1) == ExitOne(w, g);
  }
}
