/** The risk session: decisions in strict chronology, and an idempotent log of fills that feeds the
    concentration trackers exactly once per event. */
module PortfolioSession {
  import opened Common

  datatype Error = SessionFailed | NotChronological | PrecedesFill | InvalidInputs | BuildFailed
    | FillIdentityRequired | ConflictingIdentity | FillBeforeDecision | OutOfOrder | PnlRequired

  /** The identity of a fill, as retried calls must repeat it. */
  datatype Payload = Payload(day: int, symbol: string, entry: bool, realizedPnl: Option<real>)

  datatype TradeRecord = TradeRecord(symbol: string, day: int, side: Side)

  datatype LossRecord = LossRecord(symbol: string, pnl: real, day: int, side: Side)

  datatype State = State(
    lastDecision: Option<int>,
    lastEvent: Option<int>,
    previousEquity: Option<real>,
    events: set<string>,
    payloads: map<string, Payload>,
    trades: seq<TradeRecord>,
    losses: seq<LossRecord>,
    rotation: seq<real>,
    failed: bool)

  const FRESH: State := State(None, None, None, {}, map[], [], [], [], false)

  /** A decision request: the day, the ledger equity, whether the other inputs pass their validation,
      and whether the portfolio builder then succeeds. */
  datatype Decision = Decision(day: int, equity: real, inputsValid: bool, buildSucceeds: bool)

  function Decide(st: State, d: Decision): (State, Option<Error>) {
    if st.failed then (st, Some(SessionFailed))
    else if st.lastDecision.Some? && d.day <= st.lastDecision.value then (st, Some(NotChronological))
    else if st.lastEvent.Some? && d.day < st.lastEvent.value then (st, Some(PrecedesFill))
    else if d.equity <= 0.0 || !d.inputsValid then (st, Some(InvalidInputs))
    else
      var rotation := if st.previousEquity.Some? && st.previousEquity.value != 0.0
                      then st.rotation + [d.equity / st.previousEquity.value - 1.0] else st.rotation;
      var st1 := st.(failed := true, rotation := rotation);
      if !d.buildSucceeds then (st1, Some(BuildFailed))
      else (st1.(lastDecision := Some(d.day), previousEquity := Some(d.equity), failed := false), None)
  }

  function FillGuard(st: State, id: string, p: Payload): Option<Error> {
    if st.lastDecision.None? || p.day <= st.lastDecision.value then Some(FillBeforeDecision)
    else if st.lastEvent.Some? && p.day < st.lastEvent.value then Some(OutOfOrder)
    else if !p.entry && p.realizedPnl.None? then Some(PnlRequired)
    else None
  }

  function RecordFill(side: Side, st: State, id: string, p: Payload): (State, Option<Error>) {
    if st.failed then (st, Some(SessionFailed))
    else if id == "" || p.symbol == "" then (st, Some(FillIdentityRequired))
    else if id in st.events then
      (st, if id in st.payloads && st.payloads[id] == p then None else Some(ConflictingIdentity))
    else if FillGuard(st, id, p).Some? then (st, FillGuard(st, id, p))
    else
      (st.(trades := if p.entry then st.trades + [TradeRecord(p.symbol, p.day, side)] else st.trades,
           losses := if p.entry || p.realizedPnl.None? then st.losses
                     else st.losses + [LossRecord(p.symbol, p.realizedPnl.value, p.day, side)],
           events := st.events + {id}, payloads := st.payloads[id := p], lastEvent := Some(p.day)),
       None)
  }

  class OraclePortfolioSession {
    const strategySide: Side
    var lastDecision: Option<int>
    var lastEvent: Option<int>
    var previousEquity: Option<real>
    var events: set<string>
    var payloads: map<string, Payload>
    var trades: seq<TradeRecord>
    var losses: seq<LossRecord>
    var rotation: seq<real>
    var failed: bool

    constructor (side: Side)
      ensures strategySide == side && Value() == FRESH
    {
      strategySide := side;
      lastDecision, lastEvent, previousEquity, failed := None, None, None, false;
      events, payloads, trades, losses, rotation := {}, map[], [], [], [];
    }

    function Value(): State
      reads this
    {
      State(lastDecision, lastEvent, previousEquity, events, payloads, trades, losses, rotation, failed)
    }

    method DecideAt(d: Decision) returns (err: Option<Error>)
      modifies this
      ensures (Value(), err) == Decide(old(Value()), d)
    {
      if failed {
        return Some(SessionFailed);
      }
      if lastDecision.Some? && d.day <= lastDecision.value {
        return Some(NotChronological);
      }
      if lastEvent.Some? && d.day < lastEvent.value {
        return Some(PrecedesFill);
      }
      if d.equity <= 0.0 || !d.inputsValid {
        return Some(InvalidInputs);
      }
      failed := true;
      if previousEquity.Some? && previousEquity.value != 0.0 {
        rotation := rotation + [d.equity / previousEquity.value - 1.0];
      }
      if !d.buildSucceeds {
        return Some(BuildFailed);
      }
      lastDecision, previousEquity := Some(d.day), Some(d.equity);
      failed := false;
      err := None;
    }

    method Record(id: string, p: Payload) returns (err: Option<Error>)
      modifies this
      ensures (Value(), err) == RecordFill(strategySide, old(Value()), id, p)
    {
      if failed {
        return Some(SessionFailed);
      }
      if id == "" || p.symbol == "" {
        return Some(FillIdentityRequired);
      }
      if id in events {
        return if id in payloads && payloads[id] == p then None else Some(ConflictingIdentity);
      }
      if lastDecision.None? || p.day <= lastDecision.value {
        return Some(FillBeforeDecision);
      }
      if lastEvent.Some? && p.day < lastEvent.value {
        return Some(OutOfOrder);
      }
      if !p.entry && p.realizedPnl.None? {
        return Some(PnlRequired);
      }
      if p.entry {
        trades := trades + [TradeRecord(p.symbol, p.day, strategySide)];
      } else {
        losses := losses + [LossRecord(p.symbol, p.realizedPnl.value, p.day, strategySide)];
      }
      events := events + {id};
      payloads := payloads[id := p];
      lastEvent := Some(p.day);
      err := None;
    }
  }

  // ---------- interleavings ----------

  datatype Call = DecisionCall(decision: Decision) | FillCall(id: string, payload: Payload)

  function Apply(side: Side, st: State, call: Call): (State, Option<Error>) {
    match call
    case DecisionCall(d) => Decide(st, d)
    case FillCall(id, p) => RecordFill(side, st, id, p)
  }

  /** The session after the first `k` calls of any interleaving, refused calls included. */
  function After(side: Side, calls: seq<Call>, k: nat): State
    requires k <= |calls|
  {
    if k == 0 then FRESH else Apply(side, After(side, calls, k - 1), calls[k - 1]).0
  }

  /** Call `k` is a fill recorded for the first time. */
  predicate RecordsAt(side: Side, calls: seq<Call>, k: nat) {
    k < |calls| && calls[k].FillCall? && calls[k].id !in After(side, calls, k).events &&
    Apply(side, After(side, calls, k), calls[k]).1.None?
  }

  /** Call `k` is a decision that was taken. */
  predicate DecidesAt(side: Side, calls: seq<Call>, k: nat) {
    k < |calls| && calls[k].DecisionCall? && Apply(side, After(side, calls, k), calls[k]).1.None?
  }

  /** The first-time fills of the first `k` calls, in order. */
  function FirstFills(side: Side, calls: seq<Call>, k: nat): seq<(string, Payload)>
    requires k <= |calls|
  {
    if k == 0 then []
    else
      var before := FirstFills(side, calls, k - 1);
      if RecordsAt(side, calls, k - 1) then before + [(calls[k - 1].id, calls[k - 1].payload)] else before
  }

  function TradesOf(side: Side, fills: seq<(string, Payload)>): seq<TradeRecord> {
    if fills == [] then []
    else
      var before, p := TradesOf(side, fills[..|fills| - 1]), fills[|fills| - 1].1;
      if p.entry then before + [TradeRecord(p.symbol, p.day, side)] else before
  }

  function LossesOf(side: Side, fills: seq<(string, Payload)>): seq<LossRecord> {
    if fills == [] then []
    else
      var before, p := LossesOf(side, fills[..|fills| - 1]), fills[|fills| - 1].1;
      if p.entry || p.realizedPnl.None? then before
      else before + [LossRecord(p.symbol, p.realizedPnl.value, p.day, side)]
  }

  /** The payload map holds exactly the fills of a list, under distinct ids. */
  ghost predicate Indexed(payloads: map<string, Payload>, fills: seq<(string, Payload)>) {
    (forall i :: 0 <= i < |fills| ==> fills[i].0 in payloads && payloads[fills[i].0] == fills[i].1) &&
    (forall id :: id in payloads ==> exists i :: 0 <= i < |fills| && fills[i].0 == id) &&
    (forall i, j :: 0 <= i < j < |fills| ==> fills[i].0 != fills[j].0)
  }

  /** The trackers, the id set and the payload map all hold exactly the first-time fills `fills`. */
  ghost predicate Logged(side: Side, st: State, fills: seq<(string, Payload)>) {
    st.trades == TradesOf(side, fills) && st.losses == LossesOf(side, fills) &&
    st.events == st.payloads.Keys && Indexed(st.payloads, fills)
  }

  lemma IndexedAppend(payloads: map<string, Payload>, fills: seq<(string, Payload)>, id: string, p: Payload)
    requires Indexed(payloads, fills) && id !in payloads
    ensures Indexed(payloads[id := p], fills + [(id, p)])
  {
    var more, after := fills + [(id, p)], payloads[id := p];
    forall x | x in after
      ensures exists i :: 0 <= i < |more| && more[i].0 == x
    {
      if x == id {
        assert more[|fills|].0 == x;
      } else {
        var i :| 0 <= i < |fills| && fills[i].0 == x;
        assert more[i].0 == x;
      }
    }
  }

  lemma LoggedAppend(side: Side, st: State, fills: seq<(string, Payload)>, id: string, p: Payload)
    requires Logged(side, st, fills) && id !in st.events && RecordFill(side, st, id, p).1.None?
    ensures Logged(side, RecordFill(side, st, id, p).0, fills + [(id, p)])
  {
    assert (fills + [(id, p)])[..|fills|] == fills;
    IndexedAppend(st.payloads, fills, id, p);
  }

  /** A call that records nothing new leaves trackers, ids and payloads alone. */
  lemma OtherCallsLogNothing(side: Side, st: State, call: Call, fills: seq<(string, Payload)>)
    requires Logged(side, st, fills)
    requires call.FillCall? ==> call.id in st.events || Apply(side, st, call).1.Some?
    ensures Logged(side, Apply(side, st, call).0, fills)
  {
  }

  /** Exactly once: over any interleaving of decisions, fills and retries, each accepted event id reaches
      the trackers once, with its own payload, in order of first arrival. */
  lemma {:induction false} ExactlyOnce(side: Side, calls: seq<Call>, k: nat)
    requires k <= |calls|
    ensures Logged(side, After(side, calls, k), FirstFills(side, calls, k))
  {
    if k > 0 {
      ExactlyOnce(side, calls, k - 1);
      var st, call := After(side, calls, k - 1), calls[k - 1];
      if RecordsAt(side, calls, k - 1) {
        LoggedAppend(side, st, FirstFills(side, calls, k - 1), call.id, call.payload);
      } else {
        OtherCallsLogNothing(side, st, call, FirstFills(side, calls, k - 1));
      }
    }
  }

  /** A known id changes nothing; it is accepted exactly when it repeats the recorded payload. */
  lemma RetryIsIdempotent(side: Side, calls: seq<Call>, k: nat)
    requires k < |calls| && calls[k].FillCall? && calls[k].id in After(side, calls, k).events
    requires !After(side, calls, k).failed && calls[k].id != "" && calls[k].payload.symbol != ""
    ensures After(side, calls, k + 1) == After(side, calls, k)
    ensures Apply(side, After(side, calls, k), calls[k]).1.None?
       <==> (calls[k].id, calls[k].payload) in FirstFills(side, calls, k)
  {
    ExactlyOnce(side, calls, k);
    var st, fills := After(side, calls, k), FirstFills(side, calls, k);
    var i :| 0 <= i < |fills| && fills[i].0 == calls[k].id;
    assert fills[i] in fills;
  }

  /** The clock of the session only moves forward. */
  ghost predicate NotBefore(a: State, b: State) {
    (a.lastDecision.Some? ==> b.lastDecision.Some? && a.lastDecision.value <= b.lastDecision.value) &&
    (a.lastEvent.Some? ==> b.lastEvent.Some? && a.lastEvent.value <= b.lastEvent.value) &&
    (a.failed ==> b == a)
  }

  lemma StepForward(side: Side, st: State, call: Call)
    ensures NotBefore(st, Apply(side, st, call).0)
  {
  }

  lemma {:induction false} TimeMovesForward(side: Side, calls: seq<Call>, i: nat, k: nat)
    requires i <= k <= |calls|
    ensures NotBefore(After(side, calls, i), After(side, calls, k))
    decreases k
  {
    if i < k {
      TimeMovesForward(side, calls, i, k - 1);
      StepForward(side, After(side, calls, k - 1), calls[k - 1]);
    }
  }

  /** Decisions are taken on strictly increasing days. */
  lemma DecisionsIncrease(side: Side, calls: seq<Call>, i: nat, j: nat)
    requires i < j && DecidesAt(side, calls, i) && DecidesAt(side, calls, j)
    ensures calls[i].decision.day < calls[j].decision.day
  {
    TimeMovesForward(side, calls, i + 1, j);
  }

  /** A first-time fill falls strictly after every decision taken before it, and on or before the day of
      every decision taken after it. */
  lemma FillsBetweenDecisions(side: Side, calls: seq<Call>, f: nat, d: nat)
    requires RecordsAt(side, calls, f) && DecidesAt(side, calls, d)
    ensures d < f ==> calls[d].decision.day < calls[f].payload.day
    ensures f < d ==> calls[f].payload.day <= calls[d].decision.day
  {
    if d < f {
      TimeMovesForward(side, calls, d + 1, f);
    } else if f < d {
      TimeMovesForward(side, calls, f + 1, d);
    }
  }

  // ---------- the rotation returns ----------

  /** The equity of the first decision taken among the first `k` calls. */
  function FirstEquity(side: Side, calls: seq<Call>, k: nat): Option<real>
    requires k <= |calls|
  {
    if k == 0 then None
    else
      var before := FirstEquity(side, calls, k - 1);
      if before.None? && DecidesAt(side, calls, k - 1) then Some(calls[k - 1].decision.equity) else before
  }

  function Decisions(side: Side, calls: seq<Call>, k: nat): nat
    requires k <= |calls|
  {
    if k == 0 then 0 else Decisions(side, calls, k - 1) + if DecidesAt(side, calls, k - 1) then 1 else 0
  }

  function Compounded(rs: seq<real>): real {
    if rs == [] then 1.0 else Compounded(rs[..|rs| - 1]) * (1.0 + rs[|rs| - 1])
  }

  lemma CompoundedAppend(rs: seq<real>, first: real, before: real, equity: real)
    requires before > 0.0 && first * Compounded(rs) == before
    ensures first * Compounded(rs + [equity / before - 1.0]) == equity
  {
    var r := equity / before - 1.0;
    assert (rs + [r])[..|rs|] == rs;
    DivTimes(equity, before);
    assert first * (Compounded(rs) * (1.0 + r)) == first * Compounded(rs) * (1.0 + r);
  }

  /** What a session that has not failed knows of its equity. */
  ghost predicate Compounds(st: State, first: Option<real>, decisions: nat) {
    match st.previousEquity
    case None => first.None? && st.rotation == [] && decisions == 0
    case Some(equity) =>
      equity > 0.0 && first.Some? && first.value * Compounded(st.rotation) == equity && |st.rotation| + 1 == decisions
  }

  lemma DecisionCompounds(st: State, d: Decision, first: Option<real>, decisions: nat)
    requires Compounds(st, first, decisions) && Decide(st, d).1.None?
    ensures Compounds(Decide(st, d).0, if first.None? then Some(d.equity) else first, decisions + 1)
  {
    if st.previousEquity.Some? {
      CompoundedAppend(st.rotation, first.value, st.previousEquity.value, d.equity);
    }
  }

  lemma StepCompounds(side: Side, st: State, call: Call, first: Option<real>, decisions: nat)
    requires !st.failed ==> Compounds(st, first, decisions)
    ensures var (after, err) := Apply(side, st, call);
      var taken := call.DecisionCall? && err.None?;
      !after.failed ==>
        Compounds(after, if taken && first.None? then Some(call.decision.equity) else first,
                  decisions + if taken then 1 else 0)
  {
    if call.DecisionCall? && Decide(st, call.decision).1.None? {
      DecisionCompounds(st, call.decision, first, decisions);
    }
  }

  /** One return is recorded per decision after the first, and they compound from the equity of the first
      decision to that of the latest: no decision is counted twice, and no fill or retry adds one. */
  lemma {:induction false} RotationCompounds(side: Side, calls: seq<Call>, k: nat)
    requires k <= |calls|
    ensures !After(side, calls, k).failed ==>
      Compounds(After(side, calls, k), FirstEquity(side, calls, k), Decisions(side, calls, k))
  {
    if k > 0 {
      RotationCompounds(side, calls, k - 1);
      StepCompounds(side, After(side, calls, k - 1), calls[k - 1], FirstEquity(side, calls, k - 1),
                    Decisions(side, calls, k - 1));
    }
  }

  // ---------- which calls are accepted ----------

  /** The days of the decisions taken among the first `k` calls, in order. */
  function DecisionDays(side: Side, calls: seq<Call>, k: nat): seq<int>
    requires k <= |calls|
  {
    if k == 0 then []
    else
      var before := DecisionDays(side, calls, k - 1);
      if DecidesAt(side, calls, k - 1) then before + [calls[k - 1].decision.day] else before
  }

  /** The days of the fills recorded among the first `k` calls, in order. */
  function FillDays(side: Side, calls: seq<Call>, k: nat): seq<int>
    requires k <= |calls|
  {
    if k == 0 then []
    else
      var before := FillDays(side, calls, k - 1);
      if RecordsAt(side, calls, k - 1) then before + [calls[k - 1].payload.day] else before
  }

  predicate BreaksAt(side: Side, calls: seq<Call>, j: nat) {
    j < |calls| && Apply(side, After(side, calls, j), calls[j]).1 == Some(BuildFailed)
  }

  /** A decision among the first `k` calls broke down while building. */
  predicate BrokeDown(side: Side, calls: seq<Call>, k: nat)
    requires k <= |calls|
  {
    k > 0 && (BrokeDown(side, calls, k - 1) || BreaksAt(side, calls, k - 1))
  }

  predicate SomeFrom(days: seq<int>, day: int) {
    exists i :: 0 <= i < |days| && days[i] >= day
  }

  /** `latest` is the last of days that never go back, by at least `step`. */
  ghost predicate LatestOf(days: seq<int>, latest: Option<int>, step: int) {
    latest == (if days == [] then None else Some(days[|days| - 1])) &&
    forall i, j :: 0 <= i < j < |days| ==> days[i] + step <= days[j]
  }

  lemma LatestDecides(days: seq<int>, latest: Option<int>, step: int, day: int)
    requires step >= 0 && LatestOf(days, latest, step)
    ensures SomeFrom(days, day) <==> latest.Some? && latest.value >= day
  {
    if days != [] {
      assert days[|days| - 1] == latest.value;
    }
  }

  lemma LatestGrows(days: seq<int>, latest: Option<int>, step: int, day: int)
    requires LatestOf(days, latest, step) && step >= 0 && (latest.Some? ==> latest.value + step <= day)
    ensures LatestOf(days + [day], Some(day), step)
  {
  }

  /** How one call moves the two clocks of the session, and when it breaks it. */
  lemma StepTimes(side: Side, st: State, call: Call)
    ensures var (after, err) := Apply(side, st, call);
      var decides := call.DecisionCall? && err.None?;
      var records := call.FillCall? && call.id !in st.events && err.None?;
      after.lastDecision == (if decides then Some(call.decision.day) else st.lastDecision) &&
      (decides && st.lastDecision.Some? ==> st.lastDecision.value + 1 <= call.decision.day) &&
      after.lastEvent == (if records then Some(call.payload.day) else st.lastEvent) &&
      (records && st.lastEvent.Some? ==> st.lastEvent.value <= call.payload.day) &&
      (after.failed <==> st.failed || err == Some(BuildFailed))
  {
  }

  /** The session remembers the latest decision taken and the latest fill recorded, and has failed exactly
      when a decision broke down while building. */
  lemma {:induction false} RemembersLatest(side: Side, calls: seq<Call>, k: nat)
    requires k <= |calls|
    ensures LatestOf(DecisionDays(side, calls, k), After(side, calls, k).lastDecision, 1)
    ensures LatestOf(FillDays(side, calls, k), After(side, calls, k).lastEvent, 0)
    ensures After(side, calls, k).failed <==> BrokeDown(side, calls, k)
  {
    if k > 0 {
      RemembersLatest(side, calls, k - 1);
      var st, call := After(side, calls, k - 1), calls[k - 1];
      StepTimes(side, st, call);
      if DecidesAt(side, calls, k - 1) {
        LatestGrows(DecisionDays(side, calls, k - 1), st.lastDecision, 1, call.decision.day);
      }
      if RecordsAt(side, calls, k - 1) {
        LatestGrows(FillDays(side, calls, k - 1), st.lastEvent, 0, call.payload.day);
      }
    }
  }

  /** The outcome of every decision: it is taken exactly when none before broke down, its day is after every
      decision taken and not before any recorded fill, its equity is positive, its inputs are valid and
      the build succeeds; otherwise it is refused for the first of these that fails. */
  lemma {:induction false} DecisionOutcome(side: Side, calls: seq<Call>, k: nat)
    requires k < |calls| && calls[k].DecisionCall?
    ensures var d := calls[k].decision;
      Apply(side, After(side, calls, k), calls[k]).1 ==
      if BrokeDown(side, calls, k) then Some(SessionFailed)
      else if SomeFrom(DecisionDays(side, calls, k), d.day) then Some(NotChronological)
      else if SomeFrom(FillDays(side, calls, k), d.day + 1) then Some(PrecedesFill)
      else if d.equity <= 0.0 || !d.inputsValid then Some(InvalidInputs)
      else if !d.buildSucceeds then Some(BuildFailed)
      else None
  {
    var st, day := After(side, calls, k), calls[k].decision.day;
    RemembersLatest(side, calls, k);
    LatestDecides(DecisionDays(side, calls, k), st.lastDecision, 1, day);
    LatestDecides(FillDays(side, calls, k), st.lastEvent, 0, day + 1);
  }

  /** The outcome of every fill not yet recorded: it is accepted exactly when the session has not failed, it
      is identified, a decision was taken and none on its day or later, no recorded fill is later, and an
      exit carries its profit; otherwise it is refused for the first of these that fails. */
  lemma {:induction false} FillOutcome(side: Side, calls: seq<Call>, k: nat)
    requires k < |calls| && calls[k].FillCall?
    requires forall i :: 0 <= i < |FirstFills(side, calls, k)| ==> FirstFills(side, calls, k)[i].0 != calls[k].id
    ensures var p := calls[k].payload;
      Apply(side, After(side, calls, k), calls[k]).1 ==
      if BrokeDown(side, calls, k) then Some(SessionFailed)
      else if calls[k].id == "" || p.symbol == "" then Some(FillIdentityRequired)
      else if DecisionDays(side, calls, k) == [] || SomeFrom(DecisionDays(side, calls, k), p.day) then
        Some(FillBeforeDecision)
      else if SomeFrom(FillDays(side, calls, k), p.day + 1) then Some(OutOfOrder)
      else if !p.entry && p.realizedPnl.None? then Some(PnlRequired)
      else None
  {
    var st, day := After(side, calls, k), calls[k].payload.day;
    RemembersLatest(side, calls, k);
    LatestDecides(DecisionDays(side, calls, k), st.lastDecision, 1, day);
    LatestDecides(FillDays(side, calls, k), st.lastEvent, 0, day + 1);
    ExactlyOnce(side, calls, k);
    assert calls[k].id !in st.events;
  }
}
