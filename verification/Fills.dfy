/** Synthetic entry fills: the retry chain that fills an order, and their aggregation per intent.

    Quantities are whole numbers of 1e-9 shares, the precision every share quantity is normalised to;
    timestamps are minutes of the execution day. */
module Fills {
  import opened Common
  import opened OrderBook

  const SHARE: nat := 1_000_000_000
  const QUANTITY_EPSILON: nat := 1

  datatype FillError = WholeShareRequired

  datatype Attempt = Attempt(
    attemptNo: nat,
    requested: nat,
    filled: nat,
    cumulative: nat,
    remaining: nat,
    submittedAt: int,
    terminalAt: int,
    status: Status,
    partialFillAt: Option<int>,
    resubmitOf: Option<nat>)

  const SUBMITTED_AT: int := 870          // 14:30
  const FIRST_FILL_AT: int := 875         // 14:35
  const FIRST_CANCEL_AT: int := 876       // 14:36
  const RETRY_SUBMITTED_AT: int := 880    // 14:40
  const RETRY_REJECT_AT: int := 881       // 14:41
  const TIMEOUT_SUBMITTED_AT: int := 883  // 14:43
  const TIMEOUT_AT: int := 884            // 14:44
  const FINAL_SUBMITTED_AT: int := 885    // 14:45
  const RETRY_FILL_AT: int := 886         // 14:46

  /** Sixty percent of the order, truncated, at least one share, and never the whole of it. */
  function FirstFill(target: nat, wholeShares: bool): nat {
    var sixty := if wholeShares then target / SHARE * 6 / 10 * SHARE else target * 6 / 10;
    var first := if target >= SHARE && sixty < SHARE then SHARE else sixty;
    if first >= target then target / 2 else first
  }

  function SyntheticAttempts(target: nat, wholeShares: bool): Result<seq<Attempt>, FillError> {
    if wholeShares && target % SHARE != 0 then Err(WholeShareRequired)
    else
      var single := [Attempt(1, target, target, target, 0, SUBMITTED_AT, FIRST_FILL_AT, Filled, None, None)];
      if target <= SHARE then Ok(single)
      else
        var first := FirstFill(target, wholeShares);
        var remaining := if first <= target then target - first else 0;
        var partial := Attempt(1, target, first, first, remaining, SUBMITTED_AT, FIRST_CANCEL_AT, Canceled,
                               Some(FIRST_FILL_AT), None);
        if remaining <= QUANTITY_EPSILON then Ok(single)
        else if target < 20 * SHARE then Ok([
          partial,
          Attempt(2, remaining, remaining, target, 0, RETRY_SUBMITTED_AT, RETRY_FILL_AT, Filled, None, Some(1))])
        else Ok([
          partial,
          Attempt(2, remaining, 0, first, remaining, RETRY_SUBMITTED_AT, RETRY_REJECT_AT, Rejected, None, Some(1)),
          Attempt(3, remaining, 0, first, remaining, TIMEOUT_SUBMITTED_AT, TIMEOUT_AT, Expired, None, Some(2)),
          Attempt(4, remaining, remaining, target, 0, FINAL_SUBMITTED_AT, RETRY_FILL_AT, Filled, None, Some(3))])
  }

  // ---------- what a plan promises ----------

  function FilledBy(plan: seq<Attempt>, n: nat): nat
    requires n <= |plan|
  {
    if n == 0 then 0 else FilledBy(plan, n - 1) + plan[n - 1].filled
  }

  /** Attempt `k` of a plan for `target`: numbered and chained, asking for what is left, counting what
      is filled, in time order after the previous attempt. */
  ghost predicate Chained(plan: seq<Attempt>, target: nat, k: nat)
    requires k < |plan|
  {
    var a := plan[k];
    a.attemptNo == k + 1 &&
    a.resubmitOf == (if k == 0 then None else Some(k)) &&
    a.requested == (if k == 0 then target else plan[k - 1].remaining) &&
    a.filled + a.remaining == a.requested &&
    a.cumulative == FilledBy(plan, k + 1) && a.cumulative + a.remaining == target &&
    a.submittedAt < a.terminalAt && (k > 0 ==> plan[k - 1].terminalAt < a.submittedAt) &&
    (a.partialFillAt.Some? ==> a.submittedAt < a.partialFillAt.value < a.terminalAt && a.filled > 0) &&
    (a.status == Filled <==> k == |plan| - 1) && (a.remaining == 0 <==> k == |plan| - 1) &&
    (a.filled > 0 <==> a.partialFillAt.Some? || (a.status == Filled && target > 0))
  }

  /** Every normalised target gets a plan, whole shares or not, unless a short asks for a fraction; the
      plan is a chain and its fills add up to the target exactly. */
  lemma PlanFillsTarget(target: nat, wholeShares: bool)
    ensures SyntheticAttempts(target, wholeShares).Err? <==> wholeShares && target % SHARE != 0
    ensures SyntheticAttempts(target, wholeShares).Ok? ==>
      var plan := SyntheticAttempts(target, wholeShares).value;
      0 < |plan| <= 4 && FilledBy(plan, |plan|) == target &&
      (forall k :: 0 <= k < |plan| ==> Chained(plan, target, k)) &&
      (wholeShares ==> forall k :: 0 <= k < |plan| ==> plan[k].filled % SHARE == 0)
  {
    if SyntheticAttempts(target, wholeShares).Ok? {
      var plan := SyntheticAttempts(target, wholeShares).value;
      if target > SHARE {
        FirstFillBounds(target, wholeShares);
      }
      assert FilledBy(plan, 0) == 0;
      assert FilledBy(plan, 1) == plan[0].filled;
      if |plan| >= 2 {
        assert FilledBy(plan, 2) == FilledBy(plan, 1) + plan[1].filled;
      }
      if |plan| == 4 {
        assert FilledBy(plan, 3) == FilledBy(plan, 2) + plan[2].filled;
        assert FilledBy(plan, 4) == FilledBy(plan, 3) + plan[3].filled;
      }
    }
  }

  /** For every order above one share, the first fill is sixty percent of it to within one unit, at least
      one share, and leaves something. */
  lemma FirstFillBounds(target: nat, wholeShares: bool)
    requires target > SHARE && (wholeShares ==> target % SHARE == 0)
    ensures SHARE <= FirstFill(target, wholeShares) < target
    ensures 10 * FirstFill(target, wholeShares) <= 6 * target || FirstFill(target, wholeShares) == SHARE
    ensures 6 * target < 10 * (FirstFill(target, wholeShares) + if wholeShares then SHARE else 1)
    ensures wholeShares ==>
      FirstFill(target, wholeShares) % SHARE == (target - FirstFill(target, wholeShares)) % SHARE == 0
  {
    if wholeShares {
      var q := target / SHARE;
      assert target == q * SHARE && q >= 2;
      var n := q * 6 / 10;
      assert 1 <= n < q;
      WholeMultiple(n);
      WholeMultiple(q - n);
      assert target - n * SHARE == (q - n) * SHARE;
    }
  }

  lemma WholeMultiple(n: nat)
    ensures n * SHARE % SHARE == 0
  {
  }

  /** Up to one share (or one unit above it) an order fills at once; below twenty shares it fills partially,
      is canceled and filled on resubmission; from twenty on the resubmission is first rejected, then times
      out. The times are minutes of the day. */
  lemma PlanTimeline(target: nat, wholeShares: bool)
    requires SyntheticAttempts(target, wholeShares).Ok?
    ensures var plan := SyntheticAttempts(target, wholeShares).value;
      if target <= 1_000_000_001 then
        |plan| == 1 && plan[0].status == Filled && plan[0].submittedAt == 870 && plan[0].terminalAt == 875
      else
        |plan| == (if target < 20_000_000_000 then 2 else 4) &&
        plan[0].status == Canceled && plan[0].submittedAt == 870 && plan[0].partialFillAt == Some(875) &&
        plan[0].terminalAt == 876 && plan[0].filled == FirstFill(target, wholeShares) && plan[1].submittedAt == 880 &&
        if |plan| == 2 then plan[1].status == Filled && plan[1].terminalAt == 886
        else plan[1].status == Rejected && plan[1].terminalAt == 881 &&
             plan[2].status == Expired && plan[2].submittedAt == 883 && plan[2].terminalAt == 884 &&
             plan[3].status == Filled && plan[3].submittedAt == 885 && plan[3].terminalAt == 886
  {
    if target > SHARE {
      FirstFillBounds(target, wholeShares);
      assert target - FirstFill(target, wholeShares) <= 1 <==> target == SHARE + 1;
    }
  }

  // ---------- fills ----------

  datatype Fill = Fill(intent: string, qty: nat, price: real, timestamp: int)

  function FillTime(a: Attempt): Option<int> {
    if a.partialFillAt.Some? then a.partialFillAt
    else if a.status == Filled && a.filled > 0 then Some(a.terminalAt) else None
  }

  function FillsOf(intent: string, price: real, plan: seq<Attempt>, n: nat): seq<Fill>
    requires n <= |plan|
  {
    if n == 0 then []
    else
      var a := plan[n - 1];
      FillsOf(intent, price, plan, n - 1) +
      if FillTime(a).Some? && a.filled > 0 then [Fill(intent, a.filled, price, FillTime(a).value)] else []
  }

  method FillsFromAttempts(intent: string, price: real, plan: seq<Attempt>) returns (fills: seq<Fill>)
    ensures fills == FillsOf(intent, price, plan, |plan|)
  {
    fills := [];
    for i := 0 to |plan|
      invariant fills == FillsOf(intent, price, plan, i)
    {
      var at := FillTime(plan[i]);
      if at.Some? && plan[i].filled > 0 {
        fills := fills + [Fill(intent, plan[i].filled, price, at.value)];
      }
    }
  }

  /** The fills of a plan, in quantities and minutes of the day: one at 14:35, or the first part at 14:35 and
      the rest at 14:46. */
  lemma FillsTimeline(intent: string, price: real, target: nat, wholeShares: bool)
    requires SyntheticAttempts(target, wholeShares).Ok? && target > 0
    ensures var plan := SyntheticAttempts(target, wholeShares).value;
      var first := FirstFill(target, wholeShares);
      FillsOf(intent, price, plan, |plan|) ==
      if target <= 1_000_000_001 then [Fill(intent, target, price, 875)]
      else [Fill(intent, first, price, 875), Fill(intent, target - first, price, 886)]
  {
    var plan := SyntheticAttempts(target, wholeShares).value;
    PlanTimeline(target, wholeShares);
    PlanFillsTarget(target, wholeShares);
    if target > 1_000_000_001 {
      FirstFillBounds(target, wholeShares);
      assert FillsOf(intent, price, plan, 1) == [Fill(intent, plan[0].filled, price, 875)];
      if |plan| == 4 {
        assert FillsOf(intent, price, plan, 2) == FillsOf(intent, price, plan, 1);
        assert FillsOf(intent, price, plan, 3) == FillsOf(intent, price, plan, 2);
      }
    }
  }

  // ---------- aggregation per intent ----------

  datatype Bucket = Bucket(filledQty: nat, weightedNotional: real, lastTimestamp: int) {
    function Average(): Option<real> {
      if filledQty > 0 then Some(weightedNotional / filledQty as real) else None
    }
  }

  function Grow(b: Option<Bucket>, f: Fill): Bucket {
    var bucket := if b.Some? then b.value else Bucket(0, 0.0, f.timestamp);
    Bucket(bucket.filledQty + f.qty, bucket.weightedNotional + f.qty as real * f.price,
           if f.timestamp >= bucket.lastTimestamp then f.timestamp else bucket.lastTimestamp)
  }

  /** The bucket of one intent after the first `n` fills. */
  function BucketOf(fills: seq<Fill>, intent: string, n: nat): Option<Bucket>
    requires n <= |fills|
  {
    if n == 0 then None
    else
      var before := BucketOf(fills, intent, n - 1);
      if fills[n - 1].intent == intent then Some(Grow(before, fills[n - 1])) else before
  }

  method AggregateByIntent(fills: seq<Fill>) returns (m: map<string, Bucket>)
    ensures forall id :: BucketOf(fills, id, |fills|) == if id in m then Some(m[id]) else None
  {
    m := map[];
    for i := 0 to |fills|
      invariant forall id :: BucketOf(fills, id, i) == if id in m then Some(m[id]) else None
    {
      var f := fills[i];
      m := m[f.intent := Grow(if f.intent in m then Some(m[f.intent]) else None, f)];
    }
  }

  function Quantity(fills: seq<Fill>, intent: string, n: nat): nat
    requires n <= |fills|
  {
    if n == 0 then 0
    else Quantity(fills, intent, n - 1) + if fills[n - 1].intent == intent then fills[n - 1].qty else 0
  }

  /** Aggregation loses nothing: a bucket exists exactly for the intents that were filled, its total is
      the sum of their fills and its last timestamp is the latest of them. */
  lemma {:induction false} AggregationIsFaithful(fills: seq<Fill>, intent: string, n: nat)
    requires n <= |fills|
    ensures BucketOf(fills, intent, n).None? <==> forall i :: 0 <= i < n ==> fills[i].intent != intent
    ensures BucketOf(fills, intent, n).None? ==> Quantity(fills, intent, n) == 0
    ensures BucketOf(fills, intent, n).Some? ==>
      var b := BucketOf(fills, intent, n).value;
      b.filledQty == Quantity(fills, intent, n) &&
      (forall i :: 0 <= i < n && fills[i].intent == intent ==> fills[i].timestamp <= b.lastTimestamp) &&
      (exists i :: 0 <= i < n && fills[i].intent == intent && fills[i].timestamp == b.lastTimestamp)
  {
    if n > 0 {
      AggregationIsFaithful(fills, intent, n - 1);
    }
  }

  /** The notional of a bucket is worth between `low` and `high` per unit. */
  ghost predicate Priced(b: Option<Bucket>, low: real, high: real) {
    b.Some? ==> low * b.value.filledQty as real <= b.value.weightedNotional <= high * b.value.filledQty as real
  }

  /** The notional of a bucket lies between any bounds on the prices of its fills. */
  lemma {:induction false} NotionalBetween(fills: seq<Fill>, intent: string, n: nat, low: real, high: real)
    requires n <= |fills|
    requires forall i :: 0 <= i < n && fills[i].intent == intent ==> low <= fills[i].price <= high
    ensures Priced(BucketOf(fills, intent, n), low, high)
  {
    if n > 0 {
      NotionalBetween(fills, intent, n - 1, low, high);
      if fills[n - 1].intent == intent {
        GrowBetween(BucketOf(fills, intent, n - 1), fills[n - 1], low, high);
      }
    }
  }

  lemma GrowBetween(before: Option<Bucket>, f: Fill, low: real, high: real)
    requires low <= f.price <= high
    requires Priced(before, low, high)
    ensures Priced(Some(Grow(before, f)), low, high)
  {
    MulMono(low, f.price, f.qty as real);
    MulMono(f.price, high, f.qty as real);
    var q := if before.Some? then before.value.filledQty else 0;
    WeightSplits(low, q, f.qty);
    WeightSplits(high, q, f.qty);
  }

  lemma WeightSplits(x: real, a: nat, b: nat)
    ensures x * (a + b) as real == x * a as real + x * b as real
  {
  }

  /** The value of the fills of one intent. */
  function Notional(fills: seq<Fill>, intent: string, n: nat): real
    requires n <= |fills|
  {
    if n == 0 then 0.0
    else
      var before := Notional(fills, intent, n - 1);
      if fills[n - 1].intent == intent then before + fills[n - 1].qty as real * fills[n - 1].price else before
  }

  lemma {:induction false} BucketHoldsNotional(fills: seq<Fill>, intent: string, n: nat)
    requires n <= |fills|
    ensures match BucketOf(fills, intent, n)
      case None => Notional(fills, intent, n) == 0.0
      case Some(b) => b.weightedNotional == Notional(fills, intent, n)
  {
    if n > 0 {
      BucketHoldsNotional(fills, intent, n - 1);
    }
  }

  /** The average price is the value of the fills over their quantity: nothing of either is lost. */
  lemma AverageIsWeighted(fills: seq<Fill>, intent: string)
    requires Quantity(fills, intent, |fills|) > 0
    ensures BucketOf(fills, intent, |fills|).Some? && BucketOf(fills, intent, |fills|).value.Average().Some?
    ensures BucketOf(fills, intent, |fills|).value.Average().value * Quantity(fills, intent, |fills|) as real ==
      Notional(fills, intent, |fills|)
  {
    AggregationIsFaithful(fills, intent, |fills|);
    BucketHoldsNotional(fills, intent, |fills|);
    var b := BucketOf(fills, intent, |fills|).value;
    DivTimes(b.weightedNotional, b.filledQty as real);
  }

  lemma AverageBetween(fills: seq<Fill>, intent: string, low: real, high: real)
    requires forall i :: 0 <= i < |fills| && fills[i].intent == intent ==> low <= fills[i].price <= high
    requires Quantity(fills, intent, |fills|) > 0
    ensures BucketOf(fills, intent, |fills|).Some? && BucketOf(fills, intent, |fills|).value.Average().Some?
    ensures low <= BucketOf(fills, intent, |fills|).value.Average().value <= high
  {
    AggregationIsFaithful(fills, intent, |fills|);
    NotionalBetween(fills, intent, |fills|, low, high);
    PricedAverage(BucketOf(fills, intent, |fills|).value, low, high);
  }

  lemma PricedAverage(b: Bucket, low: real, high: real)
    requires Priced(Some(b), low, high) && b.filledQty > 0
    ensures low <= b.Average().value <= high
  {
    RatioBounds(b.weightedNotional, b.filledQty as real, low, high);
  }

  lemma RatioBounds(a: real, b: real, low: real, high: real)
    requires b > 0.0 && low * b <= a <= high * b
    ensures low <= a / b <= high
  {
    DivMono(low * b, a, b);
    DivMono(a, high * b, b);
    assert low * b / b == low && high * b / b == high;
  }

  // ---------- end to end ----------

  /** An entry intent with its target, its side and the opening price that fills it. */
  datatype Intent = Intent(id: string, target: nat, wholeShares: bool, price: real)

  predicate Plannable(o: Intent) {
    SyntheticAttempts(o.target, o.wholeShares).Ok?
  }

  /** The fills of a whole replay, intent after intent. */
  function ReplayFills(orders: seq<Intent>, n: nat): seq<Fill>
    requires n <= |orders| && forall i :: 0 <= i < |orders| ==> Plannable(orders[i])
  {
    if n == 0 then []
    else
      var o := orders[n - 1];
      assert Plannable(o);
      var plan := SyntheticAttempts(o.target, o.wholeShares).value;
      ReplayFills(orders, n - 1) + FillsOf(o.id, o.price, plan, |plan|)
  }

  lemma {:induction false} QuantityOfConcat(a: seq<Fill>, b: seq<Fill>, id: string, n: nat)
    requires n <= |b|
    ensures Quantity(a + b, id, |a| + n) == Quantity(a, id, |a|) + Quantity(b, id, n)
  {
    if n > 0 {
      QuantityOfConcat(a, b, id, n - 1);
    } else {
      QuantityOfPrefix(a, b, id, |a|);
    }
  }

  lemma {:induction false} QuantityOfPrefix(a: seq<Fill>, b: seq<Fill>, id: string, n: nat)
    requires n <= |a|
    ensures Quantity(a + b, id, n) == Quantity(a, id, n)
  {
    if n > 0 {
      QuantityOfPrefix(a, b, id, n - 1);
    }
  }

  /** The fills of one plan: all of its intent, at its price, adding up to what the plan filled. */
  lemma {:induction false} FillsOfPlan(intent: string, price: real, plan: seq<Attempt>, n: nat)
    requires n <= |plan| && forall k :: 0 <= k < n ==> (plan[k].filled > 0 ==> FillTime(plan[k]).Some?)
    ensures var f := FillsOf(intent, price, plan, n);
      Quantity(f, intent, |f|) == FilledBy(plan, n) &&
      forall i :: 0 <= i < |f| ==> f[i].intent == intent && f[i].price == price && f[i].qty > 0
  {
    if n > 0 {
      FillsOfPlan(intent, price, plan, n - 1);
      var before, f := FillsOf(intent, price, plan, n - 1), FillsOf(intent, price, plan, n);
      var last := f[|before|..];
      assert f == before + last;
      QuantityOfConcat(before, last, intent, |last|);
      assert Quantity(last, intent, |last|) == plan[n - 1].filled;
    }
  }

  lemma {:induction false} QuantityOfForeign(f: seq<Fill>, id: string, n: nat)
    requires n <= |f| && forall i :: 0 <= i < n ==> f[i].intent != id
    ensures Quantity(f, id, n) == 0
  {
    if n > 0 {
      QuantityOfForeign(f, id, n - 1);
    }
  }

  ghost predicate DistinctIntents(orders: seq<Intent>) {
    forall i, j :: 0 <= i < j < |orders| ==> orders[i].id != orders[j].id
  }

  /** One intent's own fills, as seen by any intent id. */
  lemma OwnFills(o: Intent, id: string)
    requires Plannable(o)
    ensures var plan := SyntheticAttempts(o.target, o.wholeShares).value;
      var own := FillsOf(o.id, o.price, plan, |plan|);
      Quantity(own, id, |own|) == (if id == o.id then o.target else 0) &&
      forall k :: 0 <= k < |own| ==> own[k].intent == o.id && own[k].price == o.price
  {
    var plan := SyntheticAttempts(o.target, o.wholeShares).value;
    PlanFillsTarget(o.target, o.wholeShares);
    forall k | 0 <= k < |plan|
      ensures plan[k].filled > 0 ==> FillTime(plan[k]).Some?
    {
      assert Chained(plan, o.target, k);
    }
    FillsOfPlan(o.id, o.price, plan, |plan|);
    var own := FillsOf(o.id, o.price, plan, |plan|);
    if id != o.id {
      QuantityOfForeign(own, id, |own|);
    }
  }

  lemma {:induction false} ReplayQuantities(orders: seq<Intent>, n: nat, i: nat)
    requires n <= |orders| && i < |orders| && DistinctIntents(orders)
    requires forall j :: 0 <= j < |orders| ==> Plannable(orders[j])
    ensures var f := ReplayFills(orders, n);
      Quantity(f, orders[i].id, |f|) == if i < n then orders[i].target else 0
  {
    if n > 0 {
      ReplayQuantities(orders, n - 1, i);
      var o := orders[n - 1];
      assert Plannable(o) && (i != n - 1 ==> orders[i].id != o.id);
      OwnFills(o, orders[i].id);
      var plan := SyntheticAttempts(o.target, o.wholeShares).value;
      var before, own := ReplayFills(orders, n - 1), FillsOf(o.id, o.price, plan, |plan|);
      assert ReplayFills(orders, n) == before + own;
      QuantityOfConcat(before, own, orders[i].id, |own|);
    }
  }

  ghost predicate AllPriced(fills: seq<Fill>, id: string, price: real) {
    forall f :: f in fills && f.intent == id ==> f.price == price
  }

  lemma {:induction false} ReplayPrices(orders: seq<Intent>, n: nat, i: nat)
    requires n <= |orders| && i < |orders| && DistinctIntents(orders)
    requires forall j :: 0 <= j < |orders| ==> Plannable(orders[j])
    ensures AllPriced(ReplayFills(orders, n), orders[i].id, orders[i].price)
  {
    if n > 0 {
      ReplayPrices(orders, n - 1, i);
      var o := orders[n - 1];
      assert Plannable(o) && (i != n - 1 ==> orders[i].id != o.id);
      OwnFills(o, orders[i].id);
      var plan := SyntheticAttempts(o.target, o.wholeShares).value;
      var own := FillsOf(o.id, o.price, plan, |plan|);
      assert AllPriced(own, orders[i].id, orders[i].price);
    }
  }

  /** Conservation end to end: after any replay of intents with distinct ids, the aggregate of each
      intent is exactly its target, at exactly its fill price. */
  lemma FillsConserveTargets(orders: seq<Intent>, i: nat)
    requires i < |orders| && DistinctIntents(orders) && orders[i].target > 0
    requires forall j :: 0 <= j < |orders| ==> Plannable(orders[j])
    ensures var f := ReplayFills(orders, |orders|);
      var b := BucketOf(f, orders[i].id, |f|);
      b.Some? && b.value.filledQty == orders[i].target && b.value.Average() == Some(orders[i].price)
  {
    ReplayQuantities(orders, |orders|, i);
    ReplayPrices(orders, |orders|, i);
    var f := ReplayFills(orders, |orders|);
    AggregationIsFaithful(f, orders[i].id, |f|);
    assert forall k :: 0 <= k < |f| && f[k].intent == orders[i].id ==> f[k] in f && f[k].price == orders[i].price;
    AverageBetween(f, orders[i].id, orders[i].price, orders[i].price);
  }

  // ---------- children per parent ----------

  /** A child intent; an empty parent id means it has none. */
  datatype ChildIntent = ChildIntent(id: string, parent: string, role: Role)

  function ChildrenOf(children: seq<ChildIntent>, parent: string, n: nat): seq<ChildIntent>
    requires n <= |children|
  {
    if n == 0 then []
    else ChildrenOf(children, parent, n - 1) + if children[n - 1].parent == parent then [children[n - 1]] else []
  }

  /** A map holds exactly the children of every parent named so far. */
  ghost predicate Grouped(m: map<string, seq<ChildIntent>>, children: seq<ChildIntent>, n: nat)
    requires n <= |children|
  {
    "" !in m && (forall p :: p in m ==> m[p] != []) &&
    forall p :: p != "" ==> ChildrenOf(children, p, n) == if p in m then m[p] else []
  }

  lemma GroupNext(m: map<string, seq<ChildIntent>>, children: seq<ChildIntent>, n: nat)
    requires n < |children| && Grouped(m, children, n)
    ensures var c := children[n];
      Grouped(if c.parent == "" then m else m[c.parent := (if c.parent in m then m[c.parent] else []) + [c]],
              children, n + 1)
  {
  }

  method ChildIntentsByParent(children: seq<ChildIntent>) returns (m: map<string, seq<ChildIntent>>)
    ensures Grouped(m, children, |children|)
  {
    m := map[];
    for i := 0 to |children|
      invariant Grouped(m, children, i)
    {
      var c := children[i];
      GroupNext(m, children, i);
      if c.parent != "" {
        m := m[c.parent := (if c.parent in m then m[c.parent] else []) + [c]];
      }
    }
  }
}
