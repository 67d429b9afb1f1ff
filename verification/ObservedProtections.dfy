/** The protections of all held positions, observed session after session: positions may be closed by the
    caller, leave on an opening gap, enter at the open, and leave on the bar of the day. Observing both
    phases, each leaves on the very day of its batch replay. */
module ObservedProtections {
  import opened Common
  import opened ProtectionReplay
  import opened IncrementalReplay
  import opened OpeningReplay
  import Microstructure
  import Ledger

  /** A held position with its protections, entered on day `start`. */
  datatype Holding = Holding(symbol: string, protection: Protection, start: nat)

  datatype Exit = Exit(holding: Holding, row: ExitRow)

  datatype GapExit = GapExit(holding: Holding, exit: OpenExit)

  datatype Error = DuplicateSymbol | Observation(error: DailyError)

  /** What is replayed: the settings, and the aligned daily bars and opening prices of every symbol. */
  datatype Tape = Tape(settings: Settings, bars: string -> seq<Bar>, opens: string -> seq<Option<real>>)

  ghost predicate Aligned(t: Tape, days: nat) {
    forall symbol: string :: |t.bars(symbol)| == |t.opens(symbol)| == days
  }

  function Batch(t: Tape, x: Holding): Option<ExitRow> {
    Replay(x.protection, t.settings, t.bars(x.symbol), x.start)
  }

  function Gap(t: Tape, x: Holding): nat {
    FirstGap(t.bars(x.symbol), x.start)
  }

  function VerdictOn(t: Tape, x: Holding, d: nat): Result<Option<ExitRow>, DailyError> {
    Verdict(Batch(t, x), Gap(t, x), d)
  }

  /** Day `d` has an opening price for `x`; every booked position has validated protections. */
  predicate OpensOn(t: Tape, x: Holding, d: nat) {
    x.start <= d < |t.bars(x.symbol)| && d < |t.opens(x.symbol)| && t.opens(x.symbol)[d].Some? && Booked(x.protection)
  }

  /** The opening exit of `x` on day `d`; a missing opening price compares false with every level. */
  function OpeningOf(t: Tape, x: Holding, d: nat): Option<OpenExit> {
    if OpensOn(t, x, d)
    then OpeningExit(x.protection, t.settings, t.bars(x.symbol), x.start, d, t.opens(x.symbol)[d].value)
    else None
  }

  // ---------- one session ----------

  /** The first `n` positions without those the caller closes. */
  function Kept(held: seq<Holding>, closed: set<string>, n: nat): seq<Holding>
    requires n <= |held|
  {
    if n == 0 then []
    else
      var before := Kept(held, closed, n - 1);
      if held[n - 1].symbol in closed then before else before + [held[n - 1]]
  }

  /** The opening exits of the first `n` positions. */
  function Gaps(t: Tape, held: seq<Holding>, d: nat, n: nat): seq<GapExit>
    requires n <= |held|
  {
    if n == 0 then []
    else
      var before := Gaps(t, held, d, n - 1);
      match OpeningOf(t, held[n - 1], d) case Some(e) => before + [GapExit(held[n - 1], e)] case None => before
  }

  /** The first `n` positions without those that exit at the open. */
  function Waiting(t: Tape, held: seq<Holding>, d: nat, n: nat): seq<Holding>
    requires n <= |held|
  {
    if n == 0 then []
    else
      var before := Waiting(t, held, d, n - 1);
      if OpeningOf(t, held[n - 1], d).None? then before + [held[n - 1]] else before
  }

  predicate Holds(held: seq<Holding>, symbol: string) {
    exists i :: 0 <= i < |held| && held[i].symbol == symbol
  }

  function Entered(held: seq<Holding>, entries: seq<Holding>, n: nat): (seq<Holding>, Option<Error>)
    requires n <= |entries|
  {
    if n == 0 then (held, None)
    else
      var (more, err) := Entered(held, entries, n - 1);
      if err.Some? then (more, err)
      else if Holds(more, entries[n - 1].symbol) then (more, Some(DuplicateSymbol))
      else (more + [entries[n - 1]], None)
  }

  /** The bar exits of the first `n` positions, or the first observation that failed. */
  function Due(t: Tape, held: seq<Holding>, d: nat, n: nat): Result<seq<Exit>, DailyError>
    requires n <= |held|
  {
    if n == 0 then Ok([])
    else match Due(t, held, d, n - 1)
      case Err(e) => Err(e)
      case Ok(xs) =>
        match VerdictOn(t, held[n - 1], d)
        case Err(e) => Err(e)
        case Ok(row) => Ok(if row.Some? then xs + [Exit(held[n - 1], row.value)] else xs)
  }

  /** The first `n` positions without those that exit on the bar of day `d`. */
  function Staying(t: Tape, held: seq<Holding>, d: nat, n: nat): seq<Holding>
    requires n <= |held|
  {
    if n == 0 then []
    else
      var before := Staying(t, held, d, n - 1);
      if VerdictOn(t, held[n - 1], d) == Ok(None) then before + [held[n - 1]] else before
  }

  class ProtectedPositions {
    var held: seq<Holding>

    constructor ()
      ensures held == []
    {
      held := [];
    }

    method CloseByCaller(closed: set<string>)
      modifies this
      ensures held == Kept(old(held), closed, |old(held)|)
    {
      var kept: seq<Holding> := [];
      for i := 0 to |held|
        invariant held == old(held) && kept == Kept(held, closed, i)
      {
        if held[i].symbol !in closed {
          kept := kept + [held[i]];
        }
      }
      held := kept;
    }

    /** Compare every held position with its opening price. */
    method Opening(t: Tape, d: nat) returns (exits: seq<GapExit>)
      modifies this
      ensures exits == Gaps(t, old(held), d, |old(held)|)
      ensures held == Waiting(t, old(held), d, |old(held)|)
    {
      var waiting: seq<Holding> := [];
      exits := [];
      for i := 0 to |held|
        invariant held == old(held) && exits == Gaps(t, held, d, i) && waiting == Waiting(t, held, d, i)
      {
        var x, e := held[i], None;
        if OpensOn(t, x, d) {
          e := ObserveOpening(x.protection, t.settings, t.bars(x.symbol), x.start, d, t.opens(x.symbol)[d].value);
        }
        if e.Some? {
          exits := exits + [GapExit(x, e.value)];
        } else {
          waiting := waiting + [x];
        }
      }
      held := waiting;
    }

    /** Book the entries of the session in order, up to the first symbol already held. */
    method Enter(entries: seq<Holding>) returns (err: Option<Error>)
      modifies this
      ensures (held, err) == Entered(old(held), entries, |entries|)
    {
      err := None;
      for i := 0 to |entries|
        invariant (held, err) == Entered(old(held), entries, i) && err.None?
      {
        if Holds(held, entries[i].symbol) {
          EntryFails(old(held), entries, i + 1);
          return Some(DuplicateSymbol);
        }
        held := held + [entries[i]];
      }
    }

    /** Observe every held position on the bar of day `d`; one failed observation closes nothing. */
    method Intraday(t: Tape, d: nat) returns (r: Result<seq<Exit>, DailyError>)
      requires forall i :: 0 <= i < |held| ==> held[i].start <= d < |t.bars(held[i].symbol)|
      modifies this
      ensures r == Due(t, old(held), d, |old(held)|)
      ensures held == if r.Ok? then Staying(t, old(held), d, |old(held)|) else old(held)
    {
      var exits: seq<Exit>, staying: seq<Holding> := [], [];
      for i := 0 to |held|
        invariant held == old(held) && Due(t, held, d, i) == Ok(exits) && staying == Staying(t, held, d, i)
      {
        var x := held[i];
        var v := ObserveIntraday(x.protection, t.settings, t.bars(x.symbol), x.start, d);
        if v.Err? {
          ObservationFails(t, held, d, i + 1);
          return Err(v.error);
        }
        if v.value.Some? {
          exits := exits + [Exit(x, v.value.value)];
        } else {
          staying := staying + [x];
        }
      }
      held := staying;
      r := Ok(exits);
    }
  }

  lemma {:induction false} EntryFails(held: seq<Holding>, entries: seq<Holding>, n: nat)
    requires n <= |entries| && Entered(held, entries, n).1.Some?
    ensures Entered(held, entries, |entries|) == Entered(held, entries, n)
    decreases |entries| - n
  {
    if n < |entries| {
      EntryFails(held, entries, n + 1);
    }
  }

  lemma {:induction false} ObservationFails(t: Tape, held: seq<Holding>, d: nat, n: nat)
    requires n <= |held| && Due(t, held, d, n).Err?
    ensures Due(t, held, d, |held|) == Due(t, held, d, n)
    decreases |held| - n
  {
    if n < |held| {
      ObservationFails(t, held, d, n + 1);
    }
  }

  // ---------- what a session does, position by position ----------

  lemma {:induction false} KeptMembers(held: seq<Holding>, closed: set<string>, n: nat, x: Holding)
    requires n <= |held|
    ensures x in Kept(held, closed, n) <==> x in held[..n] && x.symbol !in closed
  {
    if n > 0 {
      KeptMembers(held, closed, n - 1, x);
      assert held[..n] == held[..n - 1] + [held[n - 1]];
    }
  }

  lemma {:induction false} GapsMembers(t: Tape, held: seq<Holding>, d: nat, n: nat, g: GapExit)
    requires n <= |held|
    ensures g in Gaps(t, held, d, n) <==> g.holding in held[..n] && OpeningOf(t, g.holding, d) == Some(g.exit)
  {
    if n > 0 {
      GapsMembers(t, held, d, n - 1, g);
      assert held[..n] == held[..n - 1] + [held[n - 1]];
    }
  }

  lemma {:induction false} WaitingMembers(t: Tape, held: seq<Holding>, d: nat, n: nat, x: Holding)
    requires n <= |held|
    ensures x in Waiting(t, held, d, n) <==> x in held[..n] && OpeningOf(t, x, d).None?
  {
    if n > 0 {
      WaitingMembers(t, held, d, n - 1, x);
      assert held[..n] == held[..n - 1] + [held[n - 1]];
    }
  }

  lemma {:induction false} EnteredIsConcatenation(held: seq<Holding>, entries: seq<Holding>, n: nat)
    requires n <= |entries| && Entered(held, entries, n).1.None?
    ensures Entered(held, entries, n).0 == held + entries[..n]
  {
    if n > 0 {
      EnteredIsConcatenation(held, entries, n - 1);
    }
  }

  /** Entries are all accepted exactly when none names a held symbol or one entered before it. */
  lemma {:induction false} EnteredIff(held: seq<Holding>, entries: seq<Holding>, n: nat)
    requires n <= |entries|
    ensures Entered(held, entries, n).1 == None <==>
      forall i :: 0 <= i < n ==>
        (forall j :: 0 <= j < |held| ==> held[j].symbol != entries[i].symbol) &&
        (forall j :: 0 <= j < i ==> entries[j].symbol != entries[i].symbol)
  {
    if n > 0 {
      EnteredIff(held, entries, n - 1);
      if Entered(held, entries, n - 1).1 == None {
        EnteredIsConcatenation(held, entries, n - 1);
        SymbolInConcatenation(held, entries[..n - 1], entries[n - 1].symbol);
      }
    }
  }

  lemma SymbolInConcatenation(held: seq<Holding>, more: seq<Holding>, symbol: string)
    ensures Holds(held + more, symbol) <==>
      (exists j :: 0 <= j < |held| && held[j].symbol == symbol) ||
      (exists j :: 0 <= j < |more| && more[j].symbol == symbol)
  {
    if j :| 0 <= j < |held| && held[j].symbol == symbol {
      assert (held + more)[j].symbol == symbol;
    }
    if j :| 0 <= j < |more| && more[j].symbol == symbol {
      assert (held + more)[|held| + j].symbol == symbol;
    }
  }

  lemma {:induction false} StayingMembers(t: Tape, held: seq<Holding>, d: nat, n: nat, x: Holding)
    requires n <= |held|
    ensures x in Staying(t, held, d, n) <==> x in held[..n] && VerdictOn(t, x, d) == Ok(None)
  {
    if n > 0 {
      StayingMembers(t, held, d, n - 1, x);
      assert held[..n] == held[..n - 1] + [held[n - 1]];
    }
  }

  lemma {:induction false} DueMembers(t: Tape, held: seq<Holding>, d: nat, n: nat, e: Exit)
    requires n <= |held| && Due(t, held, d, n).Ok?
    ensures e in Due(t, held, d, n).value <==>
      e.holding in held[..n] && VerdictOn(t, e.holding, d) == Ok(Some(e.row))
  {
    if n > 0 {
      DueMembers(t, held, d, n - 1, e);
      assert held[..n] == held[..n - 1] + [held[n - 1]];
    }
  }

  /** A session fails exactly on the error of its first failing position. */
  lemma {:induction false} DueFails(t: Tape, held: seq<Holding>, d: nat, n: nat)
    requires n <= |held|
    ensures Due(t, held, d, n).Ok? <==> forall i :: 0 <= i < n ==> VerdictOn(t, held[i], d).Ok?
    ensures Due(t, held, d, n).Err? ==>
      exists i :: 0 <= i < n && VerdictOn(t, held[i], d) == Err(Due(t, held, d, n).error)
  {
    if n > 0 {
      DueFails(t, held, d, n - 1);
    }
  }

  /** The batch replay of the whole history keeps `x` beyond day `k - 1`. */
  ghost predicate Survives(t: Tape, x: Holding, k: nat) {
    Batch(t, x).Some? ==> Batch(t, x).value.day >= k
  }

  lemma StayingSurvives(t: Tape, open: seq<Holding>, d: nat, x: Holding)
    requires Due(t, open, d, |open|).Ok?
    ensures x in Staying(t, open, d, |open|) <==> x in open && Survives(t, x, d + 1)
    ensures x in open ==> Gap(t, x) > d
  {
    assert open[..|open|] == open;
    StayingMembers(t, open, d, |open|, x);
    DueFails(t, open, d, |open|);
  }

  /** When no exit is overdue, only an unusable bar makes the observation of a session fail. */
  lemma OnlyGapsFail(t: Tape, open: seq<Holding>, d: nat)
    requires forall x :: x in open ==> Survives(t, x, d)
    ensures Due(t, open, d, |open|).Err? <==> exists x :: x in open && Gap(t, x) <= d
    ensures Due(t, open, d, |open|).Err? ==> Due(t, open, d, |open|) == Err(IncompletePath)
  {
    DueFails(t, open, d, |open|);
    forall i | 0 <= i < |open|
      ensures VerdictOn(t, open[i], d).Err? ==> VerdictOn(t, open[i], d).error == IncompletePath
    {
      assert open[i] in open;
    }
  }

  // ---------- runs ----------

  /** One session: what the caller closes at the open, then what enters after the opening phase. */
  datatype Plan = Plan(closed: set<string>, entries: seq<Holding>)

  /** What the caller leaves to the opening phase of day `d`, and what that phase leaves. */
  function BeforeOpening(held: seq<Holding>, plan: Plan): seq<Holding> {
    Kept(held, plan.closed, |held|)
  }

  function AfterOpening(t: Tape, held: seq<Holding>, plan: Plan, d: nat): seq<Holding> {
    var kept := BeforeOpening(held, plan);
    Waiting(t, kept, d, |kept|)
  }

  /** The positions held after the sessions of days `0 .. k`. */
  function HeldAfter(t: Tape, plans: seq<Plan>, k: nat): Result<seq<Holding>, Error>
    requires k <= |plans|
    decreases k, 0
  {
    if k == 0 then Ok([])
    else match OpenOn(t, plans, k - 1)
      case Err(e) => Err(e)
      case Ok(open) =>
        match Due(t, open, k - 1, |open|)
        case Err(e) => Err(Observation(e))
        case Ok(_) => Ok(Staying(t, open, k - 1, |open|))
  }

  /** The positions open when the intraday phase of day `k` begins. */
  function OpenOn(t: Tape, plans: seq<Plan>, k: nat): Result<seq<Holding>, Error>
    requires k < |plans|
    decreases k, 1
  {
    match HeldAfter(t, plans, k)
    case Err(e) => Err(e)
    case Ok(held) =>
      var (open, err) := Entered(AfterOpening(t, held, plans[k], k), plans[k].entries, |plans[k].entries|);
      if err.Some? then Err(err.value) else Ok(open)
  }

  /** The exits of the opening phase of day `k`. */
  function GapsOn(t: Tape, plans: seq<Plan>, k: nat): seq<GapExit>
    requires k < |plans| && HeldAfter(t, plans, k).Ok?
  {
    var kept := BeforeOpening(HeldAfter(t, plans, k).value, plans[k]);
    Gaps(t, kept, k, |kept|)
  }

  /** The exits of the intraday phase of day `k`. */
  function ExitsOn(t: Tape, plans: seq<Plan>, k: nat): Result<seq<Exit>, Error>
    requires k < |plans|
  {
    match OpenOn(t, plans, k)
    case Err(e) => Err(e)
    case Ok(open) => match Due(t, open, k, |open|) case Err(e) => Err(Observation(e)) case Ok(xs) => Ok(xs)
  }

  /** Entries carry the day they enter on. */
  ghost predicate Dated(plans: seq<Plan>) {
    forall k, i :: 0 <= k < |plans| && 0 <= i < |plans[k].entries| ==> plans[k].entries[i].start == k
  }

  /** `x` entered before day `k` and no caller has closed it on a day up to `k - 1`. */
  ghost predicate Untouched(plans: seq<Plan>, x: Holding, k: nat)
    requires k <= |plans|
  {
    x.start < k && x in plans[x.start].entries && forall j :: x.start < j < k ==> x.symbol !in plans[j].closed
  }

  /** Whenever the opening phase fires for a planned position, the opening price lies inside the bar of the
      day, and the scan starts on the entry day or the entry day does not set the running extreme. */
  ghost predicate Agreeing(t: Tape, plans: seq<Plan>) {
    forall x: Holding, d: nat ::
      x.start < d && x.start < |plans| && x in plans[x.start].entries && OpeningOf(t, x, d).Some? ==>
      Inside(t.bars(x.symbol)[d], t.opens(x.symbol)[d].value) &&
      SameExtreme(x.protection, t.settings, t.bars(x.symbol), x.start, d)
  }

  /** Opening prices inside their bars are enough when the scan starts on the entry day. */
  lemma InsideOpensAgree(t: Tape, plans: seq<Plan>)
    requires !t.settings.swingOnly
    requires forall symbol: string, d: nat ::
      d < |t.opens(symbol)| && d < |t.bars(symbol)| && t.opens(symbol)[d].Some? ==>
        Inside(t.bars(symbol)[d], t.opens(symbol)[d].value)
    ensures Agreeing(t, plans)
  {
  }

  lemma BatchNotBeforeEntry(t: Tape, x: Holding, days: nat)
    requires Aligned(t, days) && x.start < days
    ensures Survives(t, x, x.start)
  {
    IncrementalEqualsBatch(x.protection, t.settings, t.bars(x.symbol), x.start, x.start);
  }

  /** A position that leaves at the open has its batch exit that day. */
  lemma OpeningIsBatchDay(t: Tape, plans: seq<Plan>, x: Holding, d: nat)
    requires Agreeing(t, plans) && d <= |plans| && Untouched(plans, x, d)
    requires OpeningOf(t, x, d).Some? && Survives(t, x, d) && Gap(t, x) >= d
    ensures Batch(t, x).Some? && Batch(t, x).value.day == d
  {
    OpeningAgreesWithScan(x.protection, t.settings, t.bars(x.symbol), x.start, d, t.opens(x.symbol)[d].value);
  }

  /** What is held has been observed on usable bars up to the day before. */
  lemma HeldWasObserved(t: Tape, plans: seq<Plan>, k: nat, x: Holding)
    requires k <= |plans| && HeldAfter(t, plans, k).Ok? && x in HeldAfter(t, plans, k).value
    ensures Gap(t, x) >= k
  {
    if k > 0 {
      StayingSurvives(t, OpenOn(t, plans, k - 1).value, k - 1, x);
    }
  }

  /** Who is open on day `k`, given who was held before it. */
  lemma OpenMembers(t: Tape, plans: seq<Plan>, k: nat, x: Holding)
    requires k < |plans| && OpenOn(t, plans, k).Ok?
    ensures x in OpenOn(t, plans, k).value <==>
      (x in HeldAfter(t, plans, k).value && x.symbol !in plans[k].closed && OpeningOf(t, x, k).None?) ||
      x in plans[k].entries
  {
    var held, es := HeldAfter(t, plans, k).value, plans[k].entries;
    var kept := BeforeOpening(held, plans[k]);
    KeptMembers(held, plans[k].closed, |held|, x);
    WaitingMembers(t, kept, k, |kept|, x);
    EnteredIsConcatenation(AfterOpening(t, held, plans[k], k), es, |es|);
    assert held[..|held|] == held && kept[..|kept|] == kept && es[..|es|] == es;
  }

  lemma OpenIffFromHeld(t: Tape, days: nat, plans: seq<Plan>, k: nat, x: Holding)
    requires Aligned(t, days) && k < |plans| <= days && Dated(plans) && OpenOn(t, plans, k).Ok?
    requires x in HeldAfter(t, plans, k).value <==> Untouched(plans, x, k) && Survives(t, x, k)
    ensures x in OpenOn(t, plans, k).value <==>
      Untouched(plans, x, k + 1) && Survives(t, x, k) && (x.start < k ==> OpeningOf(t, x, k).None?)
  {
    OpenMembers(t, plans, k, x);
    if x in plans[k].entries {
      BatchNotBeforeEntry(t, x, days);
    }
  }

  /** Incremental equals batch for the whole ledger, both phases observed: after any accepted sessions,
      with positions entering on different days and any of them closed by the caller, what is still held
      is exactly what entered, was not closed by the caller, and has no batch exit so far. */
  lemma {:induction false} HeldIff(t: Tape, days: nat, plans: seq<Plan>, k: nat, x: Holding)
    requires Aligned(t, days) && Agreeing(t, plans) && k <= |plans| <= days && Dated(plans)
    requires HeldAfter(t, plans, k).Ok?
    ensures x in HeldAfter(t, plans, k).value <==> Untouched(plans, x, k) && Survives(t, x, k)
  {
    if k > 0 {
      HeldIff(t, days, plans, k - 1, x);
      OpenIffFromHeld(t, days, plans, k - 1, x);
      StayingSurvives(t, OpenOn(t, plans, k - 1).value, k - 1, x);
      if x in HeldAfter(t, plans, k - 1).value && OpeningOf(t, x, k - 1).Some? {
        HeldWasObserved(t, plans, k - 1, x);
        OpeningIsBatchDay(t, plans, x, k - 1);
      }
    }
  }

  /** Who exits at the open of day `k`, given who was held before it. */
  lemma GapsOnMembers(t: Tape, plans: seq<Plan>, k: nat, g: GapExit)
    requires k < |plans| && HeldAfter(t, plans, k).Ok?
    ensures g in GapsOn(t, plans, k) <==>
      g.holding in HeldAfter(t, plans, k).value && g.holding.symbol !in plans[k].closed &&
      OpeningOf(t, g.holding, k) == Some(g.exit)
  {
    var held := HeldAfter(t, plans, k).value;
    var kept := BeforeOpening(held, plans[k]);
    KeptMembers(held, plans[k].closed, |held|, g.holding);
    GapsMembers(t, kept, k, |kept|, g);
    assert held[..|held|] == held && kept[..|kept|] == kept;
  }

  /** The exits of the opening phase are exactly the opening exits of the positions still protected; each
      of them has its batch exit that day. */
  lemma GapsIff(t: Tape, days: nat, plans: seq<Plan>, k: nat, g: GapExit)
    requires Aligned(t, days) && Agreeing(t, plans) && k < |plans| <= days && Dated(plans)
    requires HeldAfter(t, plans, k).Ok?
    ensures g in GapsOn(t, plans, k) <==>
      g.holding.start < k && Untouched(plans, g.holding, k + 1) && Survives(t, g.holding, k) &&
      OpeningOf(t, g.holding, k) == Some(g.exit)
    ensures g in GapsOn(t, plans, k) ==> Batch(t, g.holding).Some? && Batch(t, g.holding).value.day == k
  {
    HeldIff(t, days, plans, k, g.holding);
    GapsOnMembers(t, plans, k, g);
    if g in GapsOn(t, plans, k) {
      HeldWasObserved(t, plans, k, g.holding);
      OpeningIsBatchDay(t, plans, g.holding, k);
    }
  }

  /** The exits of the intraday phase are exactly the batch exits of that day, with their price and
      reason, of the positions neither a caller nor the opening phase had closed. */
  lemma ExitsIff(t: Tape, days: nat, plans: seq<Plan>, k: nat, e: Exit)
    requires Aligned(t, days) && Agreeing(t, plans) && k < |plans| <= days && Dated(plans)
    requires ExitsOn(t, plans, k).Ok?
    ensures e in ExitsOn(t, plans, k).value <==>
      Untouched(plans, e.holding, k + 1) && Batch(t, e.holding) == Some(e.row) && e.row.day == k &&
      (e.holding.start < k ==> OpeningOf(t, e.holding, k).None?)
  {
    var open := OpenOn(t, plans, k).value;
    HeldIff(t, days, plans, k, e.holding);
    OpenIffFromHeld(t, days, plans, k, e.holding);
    assert open[..|open|] == open;
    DueMembers(t, open, k, |open|, e);
    DueFails(t, open, k, |open|);
  }

  /** `x` leaves through its protections on day `k`, at the open or on the bar. */
  ghost predicate LeavesOn(t: Tape, plans: seq<Plan>, k: nat, x: Holding)
    requires k < |plans| && HeldAfter(t, plans, k).Ok? && ExitsOn(t, plans, k).Ok?
  {
    (exists g :: g in GapsOn(t, plans, k) && g.holding == x) ||
    (exists e :: e in ExitsOn(t, plans, k).value && e.holding == x)
  }

  /** Each position leaves on exactly its batch exit day, unless a caller has closed it by then, and never
      in both phases. */
  lemma LeavesOnBatchDay(t: Tape, days: nat, plans: seq<Plan>, k: nat, x: Holding)
    requires Aligned(t, days) && Agreeing(t, plans) && k < |plans| <= days && Dated(plans)
    requires HeldAfter(t, plans, k).Ok? && ExitsOn(t, plans, k).Ok?
    ensures LeavesOn(t, plans, k, x) <==>
      Untouched(plans, x, k + 1) && Batch(t, x).Some? && Batch(t, x).value.day == k
    ensures forall g, e :: g in GapsOn(t, plans, k) && e in ExitsOn(t, plans, k).value ==> g.holding != e.holding
  {
    forall g | g in GapsOn(t, plans, k)
      ensures g.holding == x ==> Untouched(plans, x, k + 1) && Batch(t, x).Some? && Batch(t, x).value.day == k
      ensures g.holding.start < k && OpeningOf(t, g.holding, k).Some?
    {
      GapsIff(t, days, plans, k, g);
    }
    forall e | e in ExitsOn(t, plans, k).value
      ensures e.holding == x ==> Untouched(plans, x, k + 1) && Batch(t, x).Some? && Batch(t, x).value.day == k
      ensures e.holding.start < k ==> OpeningOf(t, e.holding, k).None?
    {
      ExitsIff(t, days, plans, k, e);
    }
    if Untouched(plans, x, k + 1) && Batch(t, x).Some? && Batch(t, x).value.day == k {
      if x.start < k && OpeningOf(t, x, k).Some? {
        var g := GapExit(x, OpeningOf(t, x, k).value);
        GapsIff(t, days, plans, k, g);
        assert g in GapsOn(t, plans, k);
      } else {
        var e := Exit(x, Batch(t, x).value);
        ExitsIff(t, days, plans, k, e);
        assert e in ExitsOn(t, plans, k).value;
      }
    }
  }

  /** No exit is ever found late: observing every session, a session fails exactly when a position open
      on its bar has an unusable one since its entry, and never because an earlier exit was missed. */
  lemma ObservationFailsIff(t: Tape, days: nat, plans: seq<Plan>, k: nat)
    requires Aligned(t, days) && Agreeing(t, plans) && k < |plans| <= days && Dated(plans)
    requires OpenOn(t, plans, k).Ok?
    ensures ExitsOn(t, plans, k).Err? <==>
      exists x :: Untouched(plans, x, k + 1) && Survives(t, x, k) && (x.start < k ==> OpeningOf(t, x, k).None?) &&
                  Gap(t, x) <= k
    ensures ExitsOn(t, plans, k).Err? ==> ExitsOn(t, plans, k) == Err(Observation(IncompletePath))
  {
    var open := OpenOn(t, plans, k).value;
    forall x
      ensures x in open <==>
        Untouched(plans, x, k + 1) && Survives(t, x, k) && (x.start < k ==> OpeningOf(t, x, k).None?)
    {
      HeldIff(t, days, plans, k, x);
      OpenIffFromHeld(t, days, plans, k, x);
    }
    OnlyGapsFail(t, open, k);
  }

  // ---------- into the ledger ----------

  function ReasonText(r: Microstructure.Reason): string {
    match r
    case TakeProfit => "take_profit"
    case TrailingStop => "trailing_stop"
    case InitialStop => "initial_stop"
  }

  /** The exit row handed to the ledger: the whole position, at the replayed price. */
  function Resolved(e: Exit, answer: Ledger.ExitAnswer): Ledger.ExitRow {
    Ledger.ExitRow(e.holding.symbol, None, e.row.price, e.row.day, ReasonText(e.row.reason), answer)
  }

  ghost predicate OneEach(held: seq<Holding>) {
    forall i, j :: 0 <= i < j < |held| ==> held[i].symbol != held[j].symbol
  }

  lemma AppendOneEach(before: seq<Holding>, held: seq<Holding>, n: nat)
    requires n < |held| && OneEach(held) && OneEach(before) && forall x :: x in before ==> x in held[..n]
    ensures OneEach(before + [held[n]])
  {
    forall i | 0 <= i < |before|
      ensures before[i].symbol != held[n].symbol
    {
      assert before[i] in held[..n];
    }
  }

  lemma {:induction false} KeptOneEach(held: seq<Holding>, closed: set<string>, n: nat)
    requires n <= |held| && OneEach(held)
    ensures OneEach(Kept(held, closed, n))
    ensures forall x :: x in Kept(held, closed, n) ==> x in held[..n]
  {
    if n > 0 {
      KeptOneEach(held, closed, n - 1);
      AppendOneEach(Kept(held, closed, n - 1), held, n - 1);
      assert held[..n] == held[..n - 1] + [held[n - 1]];
    }
  }

  lemma {:induction false} WaitingOneEach(t: Tape, held: seq<Holding>, d: nat, n: nat)
    requires n <= |held| && OneEach(held)
    ensures OneEach(Waiting(t, held, d, n))
    ensures forall x :: x in Waiting(t, held, d, n) ==> x in held[..n]
  {
    if n > 0 {
      WaitingOneEach(t, held, d, n - 1);
      AppendOneEach(Waiting(t, held, d, n - 1), held, n - 1);
      assert held[..n] == held[..n - 1] + [held[n - 1]];
    }
  }

  lemma {:induction false} StayingOneEach(t: Tape, held: seq<Holding>, d: nat, n: nat)
    requires n <= |held| && OneEach(held)
    ensures OneEach(Staying(t, held, d, n))
    ensures forall x :: x in Staying(t, held, d, n) ==> x in held[..n]
  {
    if n > 0 {
      StayingOneEach(t, held, d, n - 1);
      AppendOneEach(Staying(t, held, d, n - 1), held, n - 1);
      assert held[..n] == held[..n - 1] + [held[n - 1]];
    }
  }

  lemma {:induction false} EnteredOneEach(held: seq<Holding>, entries: seq<Holding>, n: nat)
    requires n <= |entries| && OneEach(held)
    ensures OneEach(Entered(held, entries, n).0)
  {
    if n > 0 {
      EnteredOneEach(held, entries, n - 1);
    }
  }

  /** A symbol is never held twice. */
  lemma {:induction false} HeldOneEach(t: Tape, plans: seq<Plan>, k: nat)
    requires k <= |plans| && HeldAfter(t, plans, k).Ok?
    ensures OneEach(HeldAfter(t, plans, k).value)
    ensures k < |plans| && OpenOn(t, plans, k).Ok? ==> OneEach(OpenOn(t, plans, k).value)
  {
    if k > 0 {
      HeldOneEach(t, plans, k - 1);
      var open := OpenOn(t, plans, k - 1).value;
      StayingOneEach(t, open, k - 1, |open|);
    }
    if k < |plans| {
      var held, plan := HeldAfter(t, plans, k).value, plans[k];
      var kept := BeforeOpening(held, plan);
      KeptOneEach(held, plan.closed, |held|);
      WaitingOneEach(t, kept, k, |kept|);
      EnteredOneEach(AfterOpening(t, held, plan, k), plan.entries, |plan.entries|);
    }
  }

  lemma {:induction false} DueOneEach(t: Tape, held: seq<Holding>, d: nat, n: nat)
    requires n <= |held| && OneEach(held) && Due(t, held, d, n).Ok?
    ensures var xs := Due(t, held, d, n).value;
      (forall i :: 0 <= i < |xs| ==> xs[i].holding in held[..n] && xs[i].row.day == d) &&
      forall i, j :: 0 <= i < j < |xs| ==> xs[i].holding.symbol != xs[j].holding.symbol
  {
    if n > 0 {
      DueOneEach(t, held, d, n - 1);
      assert held[..n] == held[..n - 1] + [held[n - 1]];
    }
  }

  lemma {:induction false} GuardPasses(a: Ledger.Account, d: int, rows: seq<Ledger.ExitRow>, i: nat)
    requires forall j :: 0 <= j < |rows| ==>
      Ledger.Closable(a, rows[j]) && rows[j].day == d && rows[j].reason != "" && rows[j].price > 0.0
    requires forall j, l :: 0 <= j < l < |rows| ==> rows[j].symbol != rows[l].symbol
    ensures Ledger.ExitGuard(a, d, rows, i) == None
    decreases |rows| - i
  {
    if i < |rows| {
      GuardPasses(a, d, rows, i + 1);
    }
  }

  lemma VerdictPricePositive(t: Tape, x: Holding, d: nat)
    requires Booked(x.protection) && VerdictOn(t, x, d).Ok? && VerdictOn(t, x, d).value.Some?
    ensures VerdictOn(t, x, d).value.value.price > 0.0
  {
    var p, h := x.protection, t.bars(x.symbol);
    ExitPricePositive(p, t.settings, Watch(p, h, x.start), h, FirstScanned(t.settings, x.start), d, p.fillPrice);
  }

  /** The observed exits of a session are a batch the ledger accepts: distinct held symbols, closed
      today, in full, at positive prices. */
  lemma {:induction false} ObservedExitsAreBookable(t: Tape, plans: seq<Plan>, k: nat, a: Ledger.Account,
                                                   rows: seq<Ledger.ExitRow>)
    requires k < |plans| && ExitsOn(t, plans, k).Ok?
    requires forall x :: x in OpenOn(t, plans, k).value ==>
      Booked(x.protection) && x.symbol in a.positions && a.positions[x.symbol].quantity > 0.0
    requires var xs := ExitsOn(t, plans, k).value;
      |rows| == |xs| && forall i :: 0 <= i < |xs| ==> rows[i] == Resolved(xs[i], rows[i].answer)
    ensures Ledger.ExitGuard(a, k, rows, 0) == None
  {
    HeldOneEach(t, plans, k);
    var open, xs := OpenOn(t, plans, k).value, ExitsOn(t, plans, k).value;
    DueOneEach(t, open, k, |open|);
    assert open[..|open|] == open;
    forall j | 0 <= j < |rows|
      ensures Ledger.Closable(a, rows[j]) && rows[j].day == k && rows[j].reason != "" && rows[j].price > 0.0
    {
      assert rows[j] == Resolved(xs[j], rows[j].answer) && xs[j].holding in open;
      DueMembers(t, open, k, |open|, xs[j]);
      VerdictPricePositive(t, xs[j].holding, k);
    }
    GuardPasses(a, k, rows, 0);
  }

  function GapReasonText(r: OpenReason): string {
    match r
    case TrailingStopGap => "trailing_stop_gap_open"
    case InitialStopGap => "initial_stop_gap_open"
    case TakeProfitGap => "take_profit_gap_limit"
  }

  function ResolvedGap(g: GapExit, day: nat, answer: Ledger.ExitAnswer): Ledger.ExitRow {
    Ledger.ExitRow(g.holding.symbol, None, g.exit.price, day, GapReasonText(g.exit.reason), answer)
  }

  ghost predicate OneGapEach(gs: seq<GapExit>) {
    forall i, j :: 0 <= i < j < |gs| ==> gs[i].holding.symbol != gs[j].holding.symbol
  }

  lemma {:induction false} GapsOneEach(t: Tape, held: seq<Holding>, d: nat, n: nat)
    requires n <= |held| && OneEach(held)
    ensures OneGapEach(Gaps(t, held, d, n))
  {
    if n > 0 {
      GapsOneEach(t, held, d, n - 1);
      var before := Gaps(t, held, d, n - 1);
      forall i | 0 <= i < |before|
        ensures before[i].holding.symbol != held[n - 1].symbol
      {
        GapsMembers(t, held, d, n - 1, before[i]);
        assert before[i] in before;
        var q :| 0 <= q < n - 1 && held[q] == before[i].holding;
      }
    }
  }

  /** The exits of the opening phase are a batch the ledger accepts as well, when opening prices are
      positive. */
  lemma {:induction false} OpeningExitsAreBookable(t: Tape, plans: seq<Plan>, k: nat, a: Ledger.Account,
                                                   rows: seq<Ledger.ExitRow>)
    requires k < |plans| && HeldAfter(t, plans, k).Ok?
    requires forall x :: x in BeforeOpening(HeldAfter(t, plans, k).value, plans[k]) ==>
      x.symbol in a.positions && a.positions[x.symbol].quantity > 0.0 &&
      (OpensOn(t, x, k) ==> t.opens(x.symbol)[k].value > 0.0)
    requires var gs := GapsOn(t, plans, k);
      |rows| == |gs| && forall i :: 0 <= i < |gs| ==> rows[i] == ResolvedGap(gs[i], k, rows[i].answer)
    ensures Ledger.ExitGuard(a, k, rows, 0) == None
  {
    var held, gs := HeldAfter(t, plans, k).value, GapsOn(t, plans, k);
    var kept := BeforeOpening(held, plans[k]);
    HeldOneEach(t, plans, k);
    KeptOneEach(held, plans[k].closed, |held|);
    GapsOneEach(t, kept, k, |kept|);
    assert kept[..|kept|] == kept;
    forall j | 0 <= j < |rows|
      ensures Ledger.Closable(a, rows[j]) && rows[j].day == k && rows[j].reason != "" && rows[j].price > 0.0
    {
      GapsMembers(t, kept, k, |kept|, gs[j]);
      assert gs[j] in gs && rows[j] == ResolvedGap(gs[j], k, rows[j].answer);
    }
    GuardPasses(a, k, rows, 0);
  }
}
