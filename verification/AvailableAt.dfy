/** When an observation becomes usable: the first session close strictly after it. */
module AvailableAt {
  import opened Common

  /** A session calendar: which day numbers trade, when each session closes (UTC instant), and the local
      day an instant belongs to. */
  datatype Calendar = Calendar(trades: int -> bool, close: int -> int, dayOf: int -> int)

  /** Local days follow instants, and a session closes on its own day. */
  ghost predicate Sane(c: Calendar) {
    (forall s: int, t: int :: s <= t ==> c.dayOf(s) <= c.dayOf(t)) &&
    (forall d: int :: c.trades(d) ==> c.dayOf(c.close(d)) == d)
  }

  const MAX_LOOKAHEAD_DAYS: nat := 15

  datatype Error = NoSessionInWindow

  /** The first close after `observed`, looking at `n` days from day `d` on. */
  function FirstClose(c: Calendar, observed: int, d: int, n: nat): Result<int, Error>
    decreases n
  {
    if n == 0 then Err(NoSessionInWindow)
    else if c.trades(d) && c.close(d) > observed then Ok(c.close(d))
    else FirstClose(c, observed, d + 1, n - 1)
  }

  function ResolveAvailableAt(c: Calendar, observed: int): Result<int, Error> {
    FirstClose(c, observed, c.dayOf(observed), MAX_LOOKAHEAD_DAYS)
  }

  function DecisionCutoff(c: Calendar, day: int): int {
    c.close(day)
  }

  method Resolve(c: Calendar, observed: int) returns (r: Result<int, Error>)
    ensures r == ResolveAvailableAt(c, observed)
  {
    var d := c.dayOf(observed);
    for i := 0 to MAX_LOOKAHEAD_DAYS
      invariant d == c.dayOf(observed) + i
      invariant ResolveAvailableAt(c, observed) == FirstClose(c, observed, d, MAX_LOOKAHEAD_DAYS - i)
    {
      if c.trades(d) {
        if c.close(d) > observed {
          return Ok(c.close(d));
        }
      }
      d := d + 1;
    }
    r := Err(NoSessionInWindow);
  }

  /** Closes of later sessions come later. */
  lemma ClosesIncrease(c: Calendar, d: int, e: int)
    requires Sane(c) && c.trades(d) && c.trades(e) && d < e
    ensures c.close(d) < c.close(e)
  {
  }

  /** The scan finds the close of the first session after `observed` in its window, if there is one. */
  lemma {:induction false} ScanFinds(c: Calendar, observed: int, d: int, n: nat)
    ensures FirstClose(c, observed, d, n).Ok? <==> exists e :: d <= e < d + n && c.trades(e) && c.close(e) > observed
    ensures FirstClose(c, observed, d, n).Ok? ==>
      exists e :: d <= e < d + n && c.trades(e) && c.close(e) > observed &&
        FirstClose(c, observed, d, n) == Ok(c.close(e)) &&
        forall x :: d <= x < e && c.trades(x) ==> c.close(x) <= observed
    decreases n
  {
    if n > 0 && !(c.trades(d) && c.close(d) > observed) {
      ScanFinds(c, observed, d + 1, n - 1);
      if FirstClose(c, observed, d, n).Ok? {
        var e :| d + 1 <= e < d + 1 + (n - 1) && c.trades(e) && c.close(e) > observed &&
          FirstClose(c, observed, d + 1, n - 1) == Ok(c.close(e)) &&
          forall x :: d + 1 <= x < e && c.trades(x) ==> c.close(x) <= observed;
        assert forall x :: d <= x < e && c.trades(x) ==> c.close(x) <= observed;
      }
    }
  }

  /** The scan fails exactly when no session of the fifteen days closes after the observation. */
  lemma FailsIffWindowEmpty(c: Calendar, observed: int)
    ensures ResolveAvailableAt(c, observed).Err? <==>
      forall e :: c.dayOf(observed) <= e < c.dayOf(observed) + 15 && c.trades(e) ==>
        c.close(e) <= observed
  {
    ScanFinds(c, observed, c.dayOf(observed), MAX_LOOKAHEAD_DAYS);
  }

  /** Next-close adjunction: whenever the scan succeeds, an observation is usable at the cutoff of a
      trading day exactly when it was made strictly before that cutoff. The scanned close is therefore
      the least close after the observation over the whole calendar, not only over the window. */
  lemma UsableIffObservedBefore(c: Calendar, observed: int, d: int)
    requires Sane(c) && c.trades(d) && ResolveAvailableAt(c, observed).Ok?
    ensures ResolveAvailableAt(c, observed).value <= DecisionCutoff(c, d) <==> observed < DecisionCutoff(c, d)
  {
    var start := c.dayOf(observed);
    ScanFinds(c, observed, start, MAX_LOOKAHEAD_DAYS);
    var e :| start <= e && c.trades(e) && c.close(e) > observed && ResolveAvailableAt(c, observed) == Ok(c.close(e)) &&
      forall x :: start <= x < e && c.trades(x) ==> c.close(x) <= observed;
    if observed < c.close(d) {
      assert c.dayOf(observed) <= c.dayOf(c.close(d));
      assert d >= e;
      if d > e {
        ClosesIncrease(c, e, d);
      }
    }
  }

  /** The result is itself a session close strictly after the observation, and a later observation is
      never usable earlier. */
  lemma ResolutionIsMonotone(c: Calendar, observed: int, later: int)
    requires Sane(c) && observed <= later
    requires ResolveAvailableAt(c, observed).Ok? && ResolveAvailableAt(c, later).Ok?
    ensures observed < ResolveAvailableAt(c, observed).value <= ResolveAvailableAt(c, later).value
  {
    ScanFinds(c, observed, c.dayOf(observed), MAX_LOOKAHEAD_DAYS);
    ScanFinds(c, later, c.dayOf(later), MAX_LOOKAHEAD_DAYS);
    var e :| c.dayOf(later) <= e && c.trades(e) && c.close(e) > later && ResolveAvailableAt(c, later) == Ok(c.close(e));
    UsableIffObservedBefore(c, observed, e);
  }
}
