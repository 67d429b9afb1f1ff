/** The choice of the positions to close when the breaker forces a reduction. */
module ForceClose {
  import opened Common

  datatype Held = Held(symbol: string, side: Side, quantity: real, entryPrice: real, mark: real)

  function UnrealizedPnl(h: Held): real {
    (if h.side == Sell then -1.0 else 1.0) * h.quantity * (h.mark - h.entryPrice)
  }

  /** Position `i` is closed before position `j`: a worse loss, or the same loss held earlier. */
  predicate Precedes(held: seq<Held>, i: nat, j: nat)
    requires i < |held| && j < |held|
  {
    UnrealizedPnl(held[i]) < UnrealizedPnl(held[j]) ||
    (UnrealizedPnl(held[i]) == UnrealizedPnl(held[j]) && i < j)
  }

  /** Stable insertion of position `x`, the latest held, into an ordered list of positions. */
  function Insert(held: seq<Held>, order: seq<nat>, x: nat): seq<nat>
    requires x < |held| && forall i :: 0 <= i < |order| ==> order[i] < |held|
  {
    if order == [] || Precedes(held, order[|order| - 1], x) then order + [x]
    else Insert(held, order[..|order| - 1], x) + [order[|order| - 1]]
  }

  ghost predicate Ordered(held: seq<Held>, order: seq<nat>) {
    (forall i :: 0 <= i < |order| ==> order[i] < |held|) &&
    (forall i, j :: 0 <= i < j < |order| ==> Precedes(held, order[i], order[j]))
  }

  lemma {:induction false} InsertKeepsOrder(held: seq<Held>, order: seq<nat>, x: nat)
    requires x < |held| && Ordered(held, order) && x !in order
    ensures var r := Insert(held, order, x);
      Ordered(held, r) && |r| == |order| + 1 && forall y :: y in r <==> y in order || y == x
  {
    if order != [] && !Precedes(held, order[|order| - 1], x) {
      var last, rest := order[|order| - 1], order[..|order| - 1];
      assert order == rest + [last];
      InsertKeepsOrder(held, rest, x);
      var r := Insert(held, rest, x);
      forall i | 0 <= i < |r|
        ensures Precedes(held, r[i], last)
      {
        assert r[i] in r;
      }
    }
  }

  /** Positions `0 .. n` in closing order. */
  function SortedUpTo(held: seq<Held>, n: nat): (order: seq<nat>)
    requires n <= |held|
    ensures Ordered(held, order) && |order| == n && forall y: nat :: y in order <==> y < n
  {
    if n == 0 then []
    else
      var before := SortedUpTo(held, n - 1);
      InsertKeepsOrder(held, before, n - 1);
      Insert(held, before, n - 1)
  }

  lemma HalfUp(share: real, count: nat)
    requires share <= count as real
    ensures (share + 0.5).Floor <= count
  {
  }

  function CloseCount(count: nat, fraction: real): (n: nat)
    requires 0.0 < fraction <= 1.0 && count > 0
    ensures 1 <= n <= count
    ensures n as real > count as real * fraction - 0.5
    ensures n > 1 ==> n as real <= count as real * fraction + 0.5
  {
    MulMono(fraction, 1.0, count as real);
    var share := count as real * fraction;
    HalfUp(share, count);
    if (share + 0.5).Floor < 1 then 1 else (share + 0.5).Floor
  }

  datatype CloseError = InvalidFraction

  function ForceCloseSelection(held: seq<Held>, fraction: real): Result<seq<string>, CloseError> {
    if !(0.0 < fraction <= 1.0) then Err(InvalidFraction)
    else if held == [] then Ok([])
    else
      var order := SortedUpTo(held, |held|);
      Ok(seq(CloseCount(|held|, fraction), i requires 0 <= i < CloseCount(|held|, fraction) =>
        assert order[i] in order; held[order[i]].symbol))
  }

  /** The positions that must be closed before position `i`. */
  ghost function Worse(held: seq<Held>, i: nat): set<nat>
    requires i < |held|
  {
    set j: nat | j < |held| && Precedes(held, j, i)
  }

  lemma {:induction false} PrefixCardinality(order: seq<nat>, k: nat)
    requires k <= |order| && forall i, j :: 0 <= i < j < |order| ==> order[i] != order[j]
    ensures |set q | 0 <= q < k :: order[q]| == k
  {
    if k > 0 {
      PrefixCardinality(order, k - 1);
      assert (set q | 0 <= q < k :: order[q]) == (set q | 0 <= q < k - 1 :: order[q]) + {order[k - 1]};
    }
  }

  /** The place of a position in the closing order is the number of positions worse than it. */
  lemma {:induction false} PlaceIsRank(held: seq<Held>, k: nat)
    requires k < |held|
    ensures SortedUpTo(held, |held|)[k] < |held| && |Worse(held, SortedUpTo(held, |held|)[k])| == k
  {
    var order := SortedUpTo(held, |held|);
    assert order[k] in order;
    forall i, j | 0 <= i < j < |order|
      ensures order[i] != order[j]
    {
      assert Precedes(held, order[i], order[j]);
    }
    PrefixCardinality(order, k);
    var prefix := set q | 0 <= q < k :: order[q];
    forall y: nat
      ensures y in prefix <==> y in Worse(held, order[k])
    {
      if y in Worse(held, order[k]) {
        assert y in order;
        var q :| 0 <= q < |order| && order[q] == y;
      }
    }
    assert prefix == Worse(held, order[k]);
  }

  /** The selection names, worst first, exactly the `n` positions with fewer than `n` worse ones. */
  lemma SelectionIsWorst(held: seq<Held>, fraction: real, i: nat)
    requires 0.0 < fraction <= 1.0 && i < |held|
    ensures ForceCloseSelection(held, fraction).Ok?
    ensures var names, n := ForceCloseSelection(held, fraction).value, CloseCount(|held|, fraction);
      |names| == n && (|Worse(held, i)| < n ==> names[|Worse(held, i)|] == held[i].symbol)
    ensures exists k :: 0 <= k < |held| && SortedUpTo(held, |held|)[k] == i && |Worse(held, i)| == k
  {
    var order := SortedUpTo(held, |held|);
    assert i in order;
    var k :| 0 <= k < |order| && order[k] == i;
    PlaceIsRank(held, k);
  }

  /** What a position has gained: a long with a rising mark, a short with a falling one. */
  lemma ProfitBySide(h: Held)
    ensures UnrealizedPnl(h) ==
      match h.side case Buy => h.quantity * (h.mark - h.entryPrice) case Sell => h.quantity * (h.entryPrice - h.mark)
  {
  }

  /** Every selected position has a smaller profit than every spared one, or the same and is held earlier. */
  lemma SelectedBeforeSpared(held: seq<Held>, fraction: real, i: nat, j: nat)
    requires 0.0 < fraction <= 1.0 && i < |held| && j < |held|
    requires |Worse(held, i)| < CloseCount(|held|, fraction) <= |Worse(held, j)|
    ensures UnrealizedPnl(held[i]) < UnrealizedPnl(held[j]) ||
            (UnrealizedPnl(held[i]) == UnrealizedPnl(held[j]) && i < j)
  {
    SelectionIsWorst(held, fraction, i);
    SelectionIsWorst(held, fraction, j);
    var order := SortedUpTo(held, |held|);
    assert Precedes(held, order[|Worse(held, i)|], order[|Worse(held, j)|]);
  }
}
