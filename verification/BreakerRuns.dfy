/** What the breaker keeps over whole runs of daily sessions, starting from a fresh episode. */
module BreakerRuns {
  import opened Common
  import opened AdaptiveBreaker

  /** The episode after the first `k` sessions of a run. */
  function At(p: Params, ts: seq<Tick>, k: nat): Episode
    requires k <= |ts|
    decreases k
  {
    if k == 0 then FRESH else Session(p, At(p, ts, k - 1), ts[k - 1])
  }

  /** Session `i` opens an episode. */
  ghost predicate TripsAt(p: Params, ts: seq<Tick>, i: nat) {
    i < |ts| && !At(p, ts, i).tripped && At(p, ts, i + 1).tripped
  }

  /** The episode opened by session `i` is still open after session `j - 1`. */
  ghost predicate OpenThrough(p: Params, ts: seq<Tick>, i: nat, j: nat) {
    i < j <= |ts| && TripsAt(p, ts, i) && forall k :: i < k <= j ==> At(p, ts, k).tripped
  }

  /** Session `k` relapses: a new trough or three more points of drawdown while re-armed. */
  ghost predicate RelapsesAt(p: Params, ts: seq<Tick>, k: nat) {
    k < |ts| && At(p, ts, k).tripped && RelapseSeen(At(p, ts, k), ts[k].equity, At(p, ts, k).trough)
  }

  /** Session `k` is favourable and leaves an episode open. */
  ghost predicate CountsAt(p: Params, ts: seq<Tick>, k: nat) {
    k < |ts| && IsFavorable(ts[k].regime) && At(p, ts, k + 1).tripped
  }

  /** What the risk controller guarantees of every tick it hands over. */
  predicate Observed(t: Tick) {
    0.0 < t.equity <= t.peak
  }

  /** The three relapse points of an episode are worth more than the money tolerance. */
  predicate Material(e: Episode) {
    e.peak * RELAPSE_DD_PTS > B4_MONEY_ABS_TOL_USD
  }

  /** The trip distance is worth five tolerances. */
  predicate MaterialTrip(p: Params, t: Tick) {
    t.peak * p.maxDd > 5.0 * B4_MONEY_ABS_TOL_USD
  }

  // ---------- B4 and B4a in lockstep ----------

  ghost predicate Lockstep(a: Episode, b: Episode) {
    b == a.(allocation := b.allocation) &&
    a.allocation <= b.allocation <= 1.0 &&
    (a.allocation >= 0.999 <==> b.allocation >= 0.999) &&
    (a.allocation == 1.0 <==> b.allocation == 1.0)
  }

  lemma LockstepTrip(p: Params, a: Episode, b: Episode, t: Tick)
    requires Lockstep(a, b)
    ensures Lockstep(TripOrRecover(p.(policy := B4), a, t.equity, t.peak),
                     TripOrRecover(p.(policy := B4a), b, t.equity, t.peak))
  {
    var p4, p4a := p.(policy := B4), p.(policy := B4a);
    assert Trips(p4, t.equity, t.peak) == Trips(p4a, t.equity, t.peak);
    if a.tripped {
      var a1, b1 := TrackTrough(p4, a, t.equity), TrackTrough(p4a, b, t.equity);
      assert Lockstep(a1, b1);
      assert RelapseSeen(a1, t.equity, a.trough) == RelapseSeen(b1, t.equity, b.trough);
      var a2, b2 := CheckRelapse(a1, t.equity, a.trough), CheckRelapse(b1, t.equity, b.trough);
      assert Lockstep(a2, b2);
      assert Recovered(p4, a2, t.equity) == Recovered(p4a, b2, t.equity);
    }
  }

  lemma LockstepAllocate(a: Episode, b: Episode, t: Tick)
    requires Lockstep(a, b)
    ensures
      var (a1, x) := B4Allocation(a, t.equity, t.regime, B4_BULL_STREAK_ALLOC);
      var (b1, y) := B4Allocation(b, t.equity, t.regime, B4A_BULL_STREAK_ALLOC);
      Lockstep(a1.(allocation := x), b1.(allocation := y))
  {
    assert DdPct(a, t.equity) == DdPct(b, t.equity);
  }

  lemma LockstepStep(p: Params, a: Episode, b: Episode, t: Tick)
    requires Lockstep(a, b)
    ensures Lockstep(Session(p.(policy := B4), a, t), Session(p.(policy := B4a), b, t))
  {
    LockstepTrip(p, a, b, t);
    LockstepAllocate(TripOrRecover(p.(policy := B4), a, t.equity, t.peak),
                     TripOrRecover(p.(policy := B4a), b, t.equity, t.peak), t);
  }

  /** B4 and B4a on the same ticks agree forever on everything but the allocation, B4a never allocates
      less, and both reach 100% and close their episodes on the same sessions. */
  lemma {:induction false} LockstepRun(p: Params, ts: seq<Tick>, k: nat)
    requires k <= |ts|
    ensures Lockstep(At(p.(policy := B4), ts, k), At(p.(policy := B4a), ts, k))
  {
    if k > 0 {
      LockstepRun(p, ts, k - 1);
      LockstepStep(p, At(p.(policy := B4), ts, k - 1), At(p.(policy := B4a), ts, k - 1), ts[k - 1]);
    }
  }

  // ---------- invariants of one session ----------

  /** Outside an episode nothing favourable is remembered, and a relapse never outlives its day. */
  ghost predicate Quiet(e: Episode) {
    !e.relapseDay && 0 <= e.streak <= HYSTERESIS_FAVORABLE_DAYS && (!e.tripped ==> e.streak == 0)
  }

  lemma QuietAdaptive(p: Params, e: Episode, t: Tick)
    requires Quiet(e)
    ensures Quiet(UpdateAdaptive(p, e, t))
  {
    var e1 := TripOrRecover(p, e, t.equity, t.peak);
    assert 0 <= e1.streak <= HYSTERESIS_FAVORABLE_DAYS && (!e1.tripped ==> e1.streak == 0);
    assert !IsB4(p.policy) ==> !e1.relapseDay;
  }

  lemma QuietSession(p: Params, e: Episode, t: Tick)
    requires Quiet(e)
    ensures Quiet(Session(p, e, t))
  {
    QuietAdaptive(p, e, t);
  }

  lemma {:induction false} AlwaysQuiet(p: Params, ts: seq<Tick>, k: nat)
    requires k <= |ts|
    ensures Quiet(At(p, ts, k))
  {
    if k > 0 {
      AlwaysQuiet(p, ts, k - 1);
      QuietSession(p, At(p, ts, k - 1), ts[k - 1]);
    }
  }

  /** A session trips exactly when the loss from the rolling peak reaches the trip fraction of it; B4 and
      B4a forgive one money tolerance. */
  lemma TripIff(p: Params, e: Episode, t: Tick)
    requires !e.tripped && Observed(t)
    ensures Session(p, e, t).tripped <==>
      t.peak - t.equity >= p.maxDd * t.peak - if IsB4(p.policy) then B4_MONEY_ABS_TOL_USD else 0.0
  {
    var loss := t.peak - t.equity;
    assert t.peak * (1.0 - p.maxDd) == t.peak - p.maxDd * t.peak;
    LossAgainstFraction(loss, t.peak, p.maxDd);
    assert Session(p, e, t).tripped == Trips(p, t.equity, t.peak);
  }

  lemma LossAgainstFraction(loss: real, peak: real, dd: real)
    requires peak > 0.0
    ensures loss / peak >= dd <==> loss >= dd * peak
  {
    if loss / peak >= dd {
      RatioAtLeast(loss, peak, dd);
    }
    if loss >= dd * peak {
      DivMono(dd * peak, loss, peak);
      assert dd * peak / peak == dd;
    }
  }

  /** How a session moves the trough and the peak of an open episode. */
  lemma OpenSession(p: Params, e: Episode, t: Tick)
    requires e.tripped
    ensures Session(p, e, t).peak == e.peak
    ensures Session(p, e, t).trough == TrackTrough(p, e, t.equity).trough
  {
  }

  lemma TripSession(p: Params, e: Episode, t: Tick)
    requires !e.tripped && Session(p, e, t).tripped
    requires 0.0 < p.maxDd && Observed(t)
    ensures Session(p, e, t).peak == t.peak && Session(p, e, t).trough == t.equity
  {
  }

  /** The first allocation of a B4/B4a episode is the floor exactly when the regime is unfavourable
      or a quarter of the trip distance is worth more than the money tolerance. */
  lemma TripDayFloor(p: Params, e: Episode, t: Tick)
    requires IsB4(p.policy) && !e.tripped && Quiet(e) && Observed(t) && 0.0 < p.maxDd
    requires Session(p, e, t).tripped
    ensures (Session(p, e, t).allocation == B4_FLOOR && Session(p, e, t).rearmStartDd == None)
       <==> (!IsFavorable(t.regime) || B4_RR_25 * (t.peak - t.equity) > B4_MONEY_ABS_TOL_USD)
  {
    var e1 := TripOrRecover(p, e, t.equity, t.peak);
    assert e1 == e.(tripped := true, peak := t.peak, trough := t.equity);
  }

  lemma TripDistance(peak: real, equity: real, dd: real)
    requires MoneyLe(equity, peak * (1.0 - dd)) && peak * dd > 5.0 * B4_MONEY_ABS_TOL_USD
    ensures peak - equity > 4.0 * B4_MONEY_ABS_TOL_USD
  {
    assert peak * (1.0 - dd) == peak - peak * dd;
  }

  /** So a trip distance of five tolerances is enough for the floor, whatever the regime. */
  lemma TripDayFloorWhenMaterial(p: Params, e: Episode, t: Tick)
    requires IsB4(p.policy) && !e.tripped && Quiet(e) && Observed(t) && 0.0 < p.maxDd
    requires MaterialTrip(p, t) && Session(p, e, t).tripped
    ensures Session(p, e, t).allocation == B4_FLOOR && Session(p, e, t).rearmStartDd == None
  {
    assert Trips(p, t.equity, t.peak);
    TripDistance(t.peak, t.equity, p.maxDd);
    TripDayFloor(p, e, t);
  }

  // ---------- the trough and the peak of an episode ----------

  /** B0 to B3 keep the exact minimum; B4 and B4a may lag it by at most one tolerance, however many
      small declines add up. The peak stays the one of the trip. */
  lemma {:induction false} TroughTracksMinimum(p: Params, ts: seq<Tick>, i: nat, j: nat)
    requires 0.0 < p.maxDd && OpenThrough(p, ts, i, j)
    requires forall k :: i <= k < j ==> Observed(ts[k])
    ensures At(p, ts, j).peak == ts[i].peak
    ensures exists k :: i <= k < j && At(p, ts, j).trough == ts[k].equity
    ensures forall k :: i <= k < j ==>
      At(p, ts, j).trough <= ts[k].equity + (if IsB4(p.policy) then B4_MONEY_ABS_TOL_USD else 0.0)
    decreases j
  {
    if j == i + 1 {
      TripSession(p, At(p, ts, i), ts[i]);
    } else {
      TroughTracksMinimum(p, ts, i, j - 1);
      OpenSession(p, At(p, ts, j - 1), ts[j - 1]);
    }
  }

  // ---------- re-arming memory and relapse ----------

  /** Inside an episode, more than the floor is allocated exactly when a re-arming is remembered. */
  lemma RearmedIffAboveFloor(p: Params, ts: seq<Tick>, k: nat)
    requires IsB4(p.policy) && 0 < k <= |ts|
    ensures At(p, ts, k).allocation >= B4_FLOOR
    ensures At(p, ts, k).allocation > B4_FLOOR <==> At(p, ts, k).rearmStartDd.Some?
  {
  }

  lemma DdTimesPeak(e: Episode, equity: real)
    requires e.peak > 0.0
    ensures RelapseBoundary(e.peak, DdPct(e, equity)) == Min(equity, e.peak) - RELAPSE_DD_PTS * e.peak
  {
    var x := (e.peak - equity) / e.peak;
    assert e.peak * x == e.peak - equity;
    var dd := DdPct(e, equity);
    if equity <= e.peak {
      assert x >= 0.0;
      assert dd == x;
    } else {
      assert x < 0.0;
      assert dd == 0.0;
    }
  }

  lemma RearmedSession(p: Params, e: Episode, t: Tick)
    requires IsB4(p.policy) && e.tripped && e.peak > 0.0
    requires !e.relapseDay && Session(p, e, t).tripped && Session(p, e, t).rearmStartDd.Some?
    ensures t.equity > RelapseBoundary(e.peak, Session(p, e, t).rearmStartDd.value)
    ensures Material(e) ==>
      t.equity > RelapseBoundary(e.peak, Session(p, e, t).rearmStartDd.value) + B4_MONEY_ABS_TOL_USD
  {
    var mid := TripOrRecover(p, e, t.equity, t.peak);
    assert mid.tripped && mid.peak == e.peak && !mid.relapseDay;
    if e.rearmStartDd.Some? {
      assert !RelapseSeen(TrackTrough(p, e, t.equity), t.equity, e.trough);
      assert mid.rearmStartDd == e.rearmStartDd;
    } else {
      DdTimesPeak(mid, t.equity);
      assert Session(p, e, t).rearmStartDd == Some(DdPct(mid, t.equity));
    }
  }

  /** The memory a trip session leaves: none at the floor, otherwise the one it found, and only if it found
      none the drawdown of the day. */
  lemma TripMemory(p: Params, e: Episode, t: Tick)
    requires IsB4(p.policy) && !e.tripped && Quiet(e) && Observed(t) && Session(p, e, t).tripped
    ensures var after := Session(p, e, t);
      t.peak > 0.0 && after.peak == t.peak &&
      after.rearmStartDd ==
        if after.allocation <= B4_FLOOR then None
        else if e.rearmStartDd.Some? then e.rearmStartDd else Some(DdPct(after, t.equity))
  {
  }

  /** While re-armed, the equity stands strictly above the three-point relapse line; the one exception is a
      trip session that keeps a memory from before its episode. It stands more than one tolerance above it
      once three points are worth that. */
  lemma RearmedAboveBoundary(p: Params, ts: seq<Tick>, k: nat)
    requires IsB4(p.policy) && k < |ts| && Observed(ts[k]) && At(p, ts, k + 1).tripped
    requires At(p, ts, k + 1).rearmStartDd.Some?
    ensures var e, after := At(p, ts, k), At(p, ts, k + 1);
      var boundary := RelapseBoundary(after.peak, after.rearmStartDd.value);
      (ts[k].equity > boundary <==>
        e.tripped || e.rearmStartDd.None? || ts[k].equity > RelapseBoundary(ts[k].peak, e.rearmStartDd.value)) &&
      (Material(after) && (e.tripped || e.rearmStartDd.None?) ==> ts[k].equity > boundary + B4_MONEY_ABS_TOL_USD)
  {
    AlwaysQuiet(p, ts, k);
    var e, after := At(p, ts, k), At(p, ts, k + 1);
    if e.tripped {
      TroughBelowPeak(p, ts, k);
      RearmedSession(p, e, ts[k]);
      OpenSession(p, e, ts[k]);
    } else {
      RearmedIffAboveFloor(p, ts, k + 1);
      TripMemory(p, e, ts[k]);
      if e.rearmStartDd.None? {
        DdTimesPeak(after, ts[k].equity);
      }
    }
  }

  lemma RearmedStandsAbove(p: Params, e: Episode, t: Tick)
    requires IsB4(p.policy) && e.tripped && e.peak > 0.0 && !e.relapseDay
    requires Session(p, e, t).tripped && Session(p, e, t).rearmStartDd.Some?
    ensures t.equity > RelapseBoundary(Session(p, e, t).peak, Session(p, e, t).rearmStartDd.value)
  {
    OpenSession(p, e, t);
    RearmedSession(p, e, t);
  }

  /** The same for one session, from any state a run reaches. */
  lemma RearmedWhenMaterial(p: Params, e: Episode, t: Tick, after: Episode)
    requires IsB4(p.policy) && 0.0 < p.maxDd && Observed(t) && Quiet(e) && (e.tripped ==> e.peak > 0.0)
    requires after == Session(p, e, t) && after.tripped && after.rearmStartDd.Some?
    requires e.tripped || MaterialTrip(p, t)
    ensures e.tripped && t.equity > RelapseBoundary(after.peak, after.rearmStartDd.value)
  {
    if e.tripped {
      RearmedStandsAbove(p, e, t);
    } else {
      TripDayFloorWhenMaterial(p, e, t);
      assert false;
    }
  }

  /** So the bound holds on every re-armed session after the trip, and a trip session worth five tolerances
      is not re-armed at all. */
  lemma {:induction false} RearmedAboveBoundaryWhenMaterial(p: Params, ts: seq<Tick>, k: nat)
    requires IsB4(p.policy) && 0.0 < p.maxDd && k < |ts| && Observed(ts[k])
    requires At(p, ts, k + 1).tripped && At(p, ts, k + 1).rearmStartDd.Some?
    requires At(p, ts, k).tripped || MaterialTrip(p, ts[k])
    ensures At(p, ts, k).tripped
    ensures ts[k].equity > RelapseBoundary(At(p, ts, k + 1).peak, At(p, ts, k + 1).rearmStartDd.value)
  {
    AlwaysQuiet(p, ts, k);
    if At(p, ts, k).tripped {
      TroughBelowPeak(p, ts, k);
    }
    RearmedWhenMaterial(p, At(p, ts, k), ts[k], At(p, ts, k + 1));
  }

  /** The frozen peak of an open episode is the peak some earlier tick carried. */
  lemma {:induction false} PeakOfOpenEpisode(p: Params, ts: seq<Tick>, k: nat)
    requires k <= |ts| && At(p, ts, k).tripped
    ensures exists i :: 0 <= i < k && At(p, ts, k).peak == ts[i].peak
  {
    if At(p, ts, k - 1).tripped {
      PeakOfOpenEpisode(p, ts, k - 1);
      OpenSession(p, At(p, ts, k - 1), ts[k - 1]);
    } else {
      assert At(p, ts, k).peak == ts[k - 1].peak;
    }
  }

  /** A relapse sends the allocation to the floor the same day and restarts the streak; it neither
      closes the episode nor moves its peak. */
  lemma RelapseEffect(p: Params, ts: seq<Tick>, k: nat)
    requires IsB4(p.policy) && RelapsesAt(p, ts, k)
    ensures var after := At(p, ts, k + 1);
      after.tripped && after.allocation == B4_FLOOR && after.rearmStartDd == None && !after.relapseDay &&
      after.peak == At(p, ts, k).peak && after.streak == (if IsFavorable(ts[k].regime) then 1 else 0)
  {
    AlwaysQuiet(p, ts, k);
  }

  /** A session adds at most one to the streak, and more than one is left only if it did not relapse. */
  lemma StreakSession(p: Params, ts: seq<Tick>, k: nat)
    requires IsB4(p.policy) && k < |ts| && At(p, ts, k + 1).streak > 0
    ensures CountsAt(p, ts, k)
    ensures At(p, ts, k + 1).streak > 1 ==> !RelapsesAt(p, ts, k)
    ensures At(p, ts, k).streak >= At(p, ts, k + 1).streak - 1
  {
    AlwaysQuiet(p, ts, k);
    AlwaysQuiet(p, ts, k + 1);
  }

  /** The last `n` of the first `k` sessions are all favourable, all inside one episode, and none of
      them but the first relapses. */
  ghost predicate Certified(p: Params, ts: seq<Tick>, k: nat, n: nat) {
    n <= k && (forall j :: k - n <= j < k ==> CountsAt(p, ts, j)) &&
    (forall j :: k - n < j < k ==> !RelapsesAt(p, ts, j))
  }

  lemma CertifiedGrows(p: Params, ts: seq<Tick>, k: nat, n: nat)
    requires 0 < n && 0 < k <= |ts| && CountsAt(p, ts, k - 1)
    requires n > 1 ==> Certified(p, ts, k - 1, n - 1) && !RelapsesAt(p, ts, k - 1)
    ensures Certified(p, ts, k, n)
  {
    forall j | k - n <= j < k
      ensures CountsAt(p, ts, j)
    {
    }
    forall j | k - n < j < k
      ensures !RelapsesAt(p, ts, j)
    {
    }
  }

  /** A streak of `n` certifies the last `n` sessions. */
  lemma {:induction false} StreakCertifies(p: Params, ts: seq<Tick>, k: nat, n: nat)
    requires IsB4(p.policy) && k <= |ts| && 0 < n <= At(p, ts, k).streak
    ensures Certified(p, ts, k, n)
    decreases k
  {
    StreakSession(p, ts, k - 1);
    if n > 1 {
      StreakCertifies(p, ts, k - 1, n - 1);
    }
    CertifiedGrows(p, ts, k, n);
  }

  /** And conversely: up to three certified sessions are all in the streak. */
  lemma {:induction false} CertifiedCounts(p: Params, ts: seq<Tick>, k: nat, n: nat)
    requires p.policy != B0 && k <= |ts| && n <= 3 && Certified(p, ts, k, n)
    ensures At(p, ts, k).streak >= n
    decreases k
  {
    AlwaysQuiet(p, ts, k);
    if n > 0 {
      assert CountsAt(p, ts, k - 1);
      AlwaysQuiet(p, ts, k - 1);
      if n > 1 {
        CertifiedCounts(p, ts, k - 1, n - 1);
        assert CountsAt(p, ts, k - 2) && !RelapsesAt(p, ts, k - 1);
        CountedSession(p, At(p, ts, k - 1), ts[k - 1]);
      }
    }
  }

  /** A favourable session inside an episode that neither relapses nor closes adds one, up to three. */
  lemma CountedSession(p: Params, e: Episode, t: Tick)
    requires p.policy != B0 && e.tripped && Quiet(e) && Session(p, e, t).tripped
    requires t.regime == Bull || t.regime == Rebound
    requires IsB4(p.policy) ==> !RelapseSeen(e, t.equity, e.trough)
    ensures Session(p, e, t).streak == if e.streak >= 3 then 3 else e.streak + 1
  {
    var e1 := TrackTrough(p, e, t.equity);
    assert RelapseSeen(e1, t.equity, e.trough) == RelapseSeen(e, t.equity, e.trough);
  }

  /** A B4 session that leaves an episode open allocates more than the floor exactly when its regime is
      favourable, it does not relapse, and either a quarter of the loss is back or the three sessions
      before it are certified. */
  lemma {:induction false} RearmedIff(p: Params, ts: seq<Tick>, k: nat)
    requires IsB4(p.policy) && k < |ts| && At(p, ts, k + 1).tripped
    ensures At(p, ts, k + 1).allocation > 0.10 <==>
      (ts[k].regime == Bull || ts[k].regime == Rebound) && !RelapsesAt(p, ts, k) &&
      (RecoveredFraction(At(p, ts, k + 1), ts[k].equity, 0.25) || Certified(p, ts, k, 3))
  {
    AlwaysQuiet(p, ts, k);
    if At(p, ts, k).streak >= 3 {
      StreakCertifies(p, ts, k, 3);
    }
    if Certified(p, ts, k, 3) {
      CertifiedCounts(p, ts, k, 3);
      assert CountsAt(p, ts, k - 1);
    }
    RearmingSession(p, At(p, ts, k), ts[k]);
  }

  lemma RearmingSession(p: Params, e: Episode, t: Tick)
    requires IsB4(p.policy) && Quiet(e) && Session(p, e, t).tripped
    ensures Session(p, e, t).allocation > 0.10 <==>
      (t.regime == Bull || t.regime == Rebound) && !(e.tripped && RelapseSeen(e, t.equity, e.trough)) &&
      (RecoveredFraction(Session(p, e, t), t.equity, 0.25) || e.streak >= 3)
  {
    var mid := TripOrRecover(p, e, t.equity, t.peak);
    var e1 := TrackTrough(p, e, t.equity);
    assert RelapseSeen(e1, t.equity, e.trough) == RelapseSeen(e, t.equity, e.trough);
    assert mid.tripped;
    assert mid.relapseDay <==> e.tripped && RelapseSeen(e, t.equity, e.trough);
    B4Ladder(mid, t.equity, t.regime, if p.policy == B4 then B4_BULL_STREAK_ALLOC else B4A_BULL_STREAK_ALLOC);
    HalfImpliesQuarter(mid, t.equity);
  }

  /** After three favourable sessions in a row of one open episode, none but the first relapsing, a further
      session that does not relapse or close allocates at least half on BULL (three quarters under B4a)
      and at least a quarter on REBOUND, whatever the equity. */
  lemma {:induction false} ThreeFavourableSessionsRearm(p: Params, ts: seq<Tick>, k: nat)
    requires IsB4(p.policy) && 3 <= k < |ts| && At(p, ts, k + 1).tripped && !RelapsesAt(p, ts, k)
    requires forall j :: k - 3 <= j < k ==>
      (ts[j].regime == Bull || ts[j].regime == Rebound) && At(p, ts, j + 1).tripped
    requires !RelapsesAt(p, ts, k - 1) && !RelapsesAt(p, ts, k - 2)
    ensures ts[k].regime == Bull ==> At(p, ts, k + 1).allocation >= if p.policy == B4a then 0.75 else 0.50
    ensures ts[k].regime == Rebound ==> At(p, ts, k + 1).allocation >= 0.25
  {
    forall j | k - 3 <= j < k
      ensures CountsAt(p, ts, j)
    {
    }
    assert Certified(p, ts, k, 3);
    CertifiedCounts(p, ts, k, 3);
    AlwaysQuiet(p, ts, k);
    RearmedByStreak(p, At(p, ts, k), ts[k]);
  }

  lemma RearmedByStreak(p: Params, e: Episode, t: Tick)
    requires IsB4(p.policy) && Quiet(e) && e.streak >= 3 && e.tripped && Session(p, e, t).tripped
    requires !RelapseSeen(e, t.equity, e.trough)
    ensures t.regime == Bull ==> Session(p, e, t).allocation >= if p.policy == B4a then 0.75 else 0.50
    ensures t.regime == Rebound ==> Session(p, e, t).allocation >= 0.25
  {
    var mid := TripOrRecover(p, e, t.equity, t.peak);
    var e1 := TrackTrough(p, e, t.equity);
    assert RelapseSeen(e1, t.equity, e.trough) == RelapseSeen(e, t.equity, e.trough);
    assert mid.streak == e.streak && !mid.relapseDay;
    B4Ladder(mid, t.equity, t.regime, if p.policy == B4 then B4_BULL_STREAK_ALLOC else B4A_BULL_STREAK_ALLOC);
  }

  /** Re-arming without a quarter of the loss recovered takes three favourable sessions of the same
      episode before a fourth favourable one, with no relapse after the first. */
  lemma {:induction false} RearmThroughStreak(p: Params, ts: seq<Tick>, k: nat)
    requires IsB4(p.policy) && k < |ts| && At(p, ts, k + 1).tripped
    requires At(p, ts, k + 1).allocation > B4_FLOOR
    requires !RecoveredFraction(At(p, ts, k + 1), ts[k].equity, B4_RR_25)
    ensures Certified(p, ts, k + 1, 4)
  {
    RearmNeedsStreak(p, ts, k);
    StreakCertifies(p, ts, k, 3);
    CertifiedGrows(p, ts, k + 1, 4);
  }

  lemma RearmNeedsStreak(p: Params, ts: seq<Tick>, k: nat)
    requires IsB4(p.policy) && k < |ts| && At(p, ts, k + 1).tripped
    requires At(p, ts, k + 1).allocation > B4_FLOOR
    requires !RecoveredFraction(At(p, ts, k + 1), ts[k].equity, B4_RR_25)
    ensures At(p, ts, k).streak >= HYSTERESIS_FAVORABLE_DAYS && CountsAt(p, ts, k) && !RelapsesAt(p, ts, k)
  {
    AlwaysQuiet(p, ts, k);
    if RelapsesAt(p, ts, k) {
      RelapseEffect(p, ts, k);
      assert false;
    }
    HalfImpliesQuarter(TripOrRecover(p, At(p, ts, k), ts[k].equity, ts[k].peak), ts[k].equity);
  }

  /** A REBOUND session inside an episode never allocates more than half. */
  lemma ReboundCap(p: Params, ts: seq<Tick>, k: nat)
    requires IsB4(p.policy) && k < |ts| && ts[k].regime == Rebound && At(p, ts, k + 1).tripped
    ensures AllocationScale(At(p, ts, k + 1)) <= 0.50
  {
  }

  // ---------- closure ----------

  /** After session `k`, the episode allocates everything exactly when that session was BULL, did not
      relapse and had half the loss back within the money tolerance. */
  lemma FullAllocationIff(p: Params, ts: seq<Tick>, k: nat)
    requires IsB4(p.policy) && k < |ts| && At(p, ts, k + 1).tripped
    ensures At(p, ts, k + 1).allocation >= 0.999
       <==> ts[k].regime == Bull && !RelapsesAt(p, ts, k) &&
            RecoveredFraction(At(p, ts, k + 1), ts[k].equity, B4_RR_50)
  {
    AlwaysQuiet(p, ts, k);
  }

  lemma ClosingSession(p: Params, e: Episode, t: Tick)
    requires IsB4(p.policy) && e.tripped && !e.relapseDay
    requires e.allocation > B4_FLOOR <==> e.rearmStartDd.Some?
    ensures !Session(p, e, t).tripped
       <==> e.allocation >= 0.999 && !RelapseSeen(e, t.equity, e.trough) && RecoveredFraction(e, t.equity, 0.90)
  {
    var e1 := TrackTrough(p, e, t.equity);
    assert RelapseSeen(e1, t.equity, e.trough) == RelapseSeen(e, t.equity, e.trough);
  }

  /** An episode closes at session `k` exactly when the session before was BULL with half the loss back
      and no relapse, and session `k` itself holds 90% of the loss without relapse. */
  lemma ClosureIff(p: Params, ts: seq<Tick>, k: nat)
    requires IsB4(p.policy) && k < |ts| && At(p, ts, k).tripped
    ensures k > 0
    ensures !At(p, ts, k + 1).tripped
       <==> ts[k - 1].regime == Bull && !RelapsesAt(p, ts, k - 1) &&
            RecoveredFraction(At(p, ts, k), ts[k - 1].equity, B4_RR_50) &&
            !RelapsesAt(p, ts, k) && RecoveredFraction(At(p, ts, k), ts[k].equity, 0.90)
  {
    AlwaysQuiet(p, ts, k);
    FullAllocationIff(p, ts, k - 1);
    RearmedIffAboveFloor(p, ts, k);
    ClosingSession(p, At(p, ts, k), ts[k]);
  }

  /** The session after a trip closes the episode exactly when the whole loss of a BULL trip day is
      at most two tolerances (and 90% of it is then back without relapse). */
  lemma ClosureAfterTripIff(p: Params, ts: seq<Tick>, i: nat)
    requires IsB4(p.policy) && 0.0 < p.maxDd && TripsAt(p, ts, i) && i + 1 < |ts| && Observed(ts[i])
    ensures !At(p, ts, i + 2).tripped
       <==> ts[i].regime == Bull && ts[i].peak - ts[i].equity <= 2.0 * B4_MONEY_ABS_TOL_USD &&
            !RelapsesAt(p, ts, i + 1) && RecoveredFraction(At(p, ts, i + 1), ts[i + 1].equity, 0.90)
  {
    ClosureIff(p, ts, i + 1);
    TripSession(p, At(p, ts, i), ts[i]);
  }

  const TINY: Params := Params(B4, 0.15, 0.92, 0.06, 0.25)

  /** An episode that starts at 100% and closes at the next session: a loss of one and a half tolerances. */
  lemma TinyEpisodeClosesNextDay()
    ensures var ts := [Tick(0.0000085, 0.00001, Bull), Tick(0.00001, 0.00001, Bull)];
      TripsAt(TINY, ts, 0) && At(TINY, ts, 1).allocation == 1.0 && !At(TINY, ts, 2).tripped
  {
    var ts := [Tick(0.0000085, 0.00001, Bull), Tick(0.00001, 0.00001, Bull)];
    assert At(TINY, ts, 0) == FRESH;
    TripIff(TINY, FRESH, ts[0]);
    assert At(TINY, ts, 1) == Session(TINY, FRESH, ts[0]);
    FullAllocationIff(TINY, ts, 0);
    TripSession(TINY, FRESH, ts[0]);
    DdTimesPeak(At(TINY, ts, 1), ts[0].equity);
    TripMemory(TINY, FRESH, ts[0]);
    ClosureAfterTripIff(TINY, ts, 0);
  }

  /** A trip session that keeps the memory of an earlier favourable session and stands below its line. */
  lemma TinyTripKeepsMemory()
    ensures var ts := [Tick(0.00001, 0.00001, Bull), Tick(0.0000085, 0.00001, Bull)];
      TripsAt(TINY, ts, 1) && At(TINY, ts, 2).rearmStartDd == Some(0.0) &&
      ts[1].equity < RelapseBoundary(At(TINY, ts, 2).peak, 0.0)
  {
    var ts := [Tick(0.00001, 0.00001, Bull), Tick(0.0000085, 0.00001, Bull)];
    assert At(TINY, ts, 0) == FRESH;
    TripIff(TINY, FRESH, ts[0]);
    var e := At(TINY, ts, 1);
    assert e == Session(TINY, FRESH, ts[0]) && !e.tripped && e.rearmStartDd == Some(0.0);
    TripIff(TINY, e, ts[1]);
    AlwaysQuiet(TINY, ts, 1);
    assert At(TINY, ts, 2) == Session(TINY, e, ts[1]);
    FullAllocationIff(TINY, ts, 1);
    TripSession(TINY, e, ts[1]);
    TripMemory(TINY, e, ts[1]);
  }

  /** No episode closes sooner than two sessions after a trip worth more than two tolerances. */
  lemma ClosureTakesTwoSessions(p: Params, ts: seq<Tick>, i: nat, k: nat)
    requires IsB4(p.policy) && 0.0 < p.maxDd && k < |ts|
    requires OpenThrough(p, ts, i, k) && Observed(ts[i]) && !At(p, ts, k + 1).tripped
    requires ts[i].peak - ts[i].equity > 2.0 * B4_MONEY_ABS_TOL_USD
    ensures k >= i + 2
  {
    ClosureAfterTripIff(p, ts, i);
  }

  lemma ReleaseSession(p: Params, e: Episode, t: Tick)
    requires IsB4(p.policy) && e.tripped && !e.relapseDay && e.allocation >= 0.999 && e.rearmStartDd.Some?
    requires t.equity >= e.trough + 0.9 * (e.peak - e.trough) && e.peak >= e.trough && e.peak > 0.0
    ensures !Session(p, e, t).tripped <==>
      t.equity > RelapseBoundary(e.peak, e.rearmStartDd.value) + B4_MONEY_ABS_TOL_USD
  {
    ClosingSession(p, e, t);
  }

  /** Bounded release: after a BULL session without relapse and with 90% of the loss back, if the equity
      does not fall the episode closes at the next session, whatever its regime, exactly when the equity is
      not within the tolerance of the relapse line; it never is once three points are worth more. */
  lemma BoundedRelease(p: Params, ts: seq<Tick>, k: nat)
    requires IsB4(p.policy) && k + 1 < |ts| && At(p, ts, k).tripped && At(p, ts, k + 1).tripped
    requires Observed(ts[k]) && ts[k].regime == Bull && !RelapsesAt(p, ts, k)
    requires var e := At(p, ts, k + 1); ts[k].equity >= e.trough + 0.9 * (e.peak - e.trough)
    requires ts[k + 1].equity >= ts[k].equity
    ensures At(p, ts, k + 1).rearmStartDd.Some?
    ensures !At(p, ts, k + 2).tripped <==>
      ts[k + 1].equity >
        RelapseBoundary(At(p, ts, k + 1).peak, At(p, ts, k + 1).rearmStartDd.value) + B4_MONEY_ABS_TOL_USD
    ensures Material(At(p, ts, k + 1)) ==> !At(p, ts, k + 2).tripped
  {
    var e := At(p, ts, k + 1);
    TroughBelowPeak(p, ts, k + 1);
    FullAllocationIff(p, ts, k);
    RearmedIffAboveFloor(p, ts, k + 1);
    RearmedAboveBoundary(p, ts, k);
    AlwaysQuiet(p, ts, k + 1);
    ReleaseSession(p, e, ts[k + 1]);
  }

  /** An episode whose three points are worth less than the tolerance: re-armed in full with more than 90% of
      the loss back, it relapses at an unchanged equity instead of closing. */
  lemma TinyReleaseFails()
    ensures var ts := [Tick(0.000024, 0.00003, Correction), Tick(0.0000295, 0.00003, Bull),
                       Tick(0.0000295, 0.00003, Slide)];
      At(TINY, ts, 2).allocation == 1.0 && At(TINY, ts, 3).tripped
  {
    var ts := [Tick(0.000024, 0.00003, Correction), Tick(0.0000295, 0.00003, Bull),
               Tick(0.0000295, 0.00003, Slide)];
    assert At(TINY, ts, 0) == FRESH;
    TripIff(TINY, FRESH, ts[0]);
    assert At(TINY, ts, 1) == Session(TINY, FRESH, ts[0]);
    TripSession(TINY, FRESH, ts[0]);
    TripDayFloor(TINY, FRESH, ts[0]);
    ClosureIff(TINY, ts, 1);
    OpenSession(TINY, At(TINY, ts, 1), ts[1]);
    FullAllocationIff(TINY, ts, 1);
    var e := At(TINY, ts, 2);
    DdTimesPeak(e, ts[1].equity);
    assert e.rearmStartDd == Some(DdPct(e, ts[1].equity));
    BoundedRelease(TINY, ts, 1);
  }

  lemma {:induction false} TroughBelowPeak(p: Params, ts: seq<Tick>, k: nat)
    requires k <= |ts| && At(p, ts, k).tripped
    ensures At(p, ts, k).trough <= At(p, ts, k).peak
    ensures IsB4(p.policy) ==> At(p, ts, k).peak > 0.0
  {
    if At(p, ts, k - 1).tripped {
      TroughBelowPeak(p, ts, k - 1);
      OpenSession(p, At(p, ts, k - 1), ts[k - 1]);
    }
  }

  // ---------- no chattering ----------

  /** The equity below which no policy closes an episode with this frozen peak. */
  function ClosureLine(p: Params, peak: real): real {
    match p.policy
    case B0 => peak * p.recoveryPct
    case B2 => peak * p.recoveryPct
    case B1 => 0.9 * peak
    case B3 => 0.9 * peak
    case B4 => 0.9 * peak - B4_MONEY_ABS_TOL_USD
    case B4a => 0.9 * peak - B4_MONEY_ABS_TOL_USD
  }

  /** The equity above which no rolling peak up to `peak` makes the breaker trip. */
  function TripLine(p: Params, peak: real): real {
    peak * (1.0 - p.maxDd) + if IsB4(p.policy) then B4_MONEY_ABS_TOL_USD else 0.0
  }

  lemma ResidualAtClosure(p: Params, e: Episode, t: Tick)
    requires e.tripped && !Session(p, e, t).tripped
    requires e.peak > 0.0 && e.trough >= 0.0 && t.equity > 0.0
    ensures t.equity >= ClosureLine(p, e.peak)
  {
    var e1 := TrackTrough(p, e, t.equity);
    var e2 := if IsB4(p.policy) then CheckRelapse(e1, t.equity, e.trough) else e1;
    assert Recovered(p, e2, t.equity);
    assert e2.trough >= 0.0 && e2.peak == e.peak;
    if p.policy == B1 || p.policy == B3 {
      NinetyPercentBack(e2, t.equity);
    }
  }

  /** B1 and B3 close an episode exactly when the session before allocated everything (90% of the loss
      back, 75% for a favourable B3) and 90% is back again, the trough of the day included. */
  lemma RecoveryClosureIff(p: Params, ts: seq<Tick>, k: nat)
    requires (p.policy == B1 || p.policy == B3) && k < |ts| && At(p, ts, k).tripped
    ensures k > 0
    ensures !At(p, ts, k + 1).tripped <==>
      RecoveryRatio(At(p, ts, k), ts[k - 1].equity) >=
        (if p.policy == B3 && IsFavorable(ts[k - 1].regime) then 0.75 else 0.90) &&
      RecoveryRatio(TrackTrough(p, At(p, ts, k), ts[k].equity), ts[k].equity) >= 0.90
  {
    var e, before := At(p, ts, k), ts[k - 1];
    AllocatedByTier(p, At(p, ts, k - 1), before);
    FavorableTiersAbove(RecoveryRatio(e, before.equity), 5);
    FullTier(RecoveryRatio(e, before.equity));
  }

  /** B0 and B2 close an episode exactly when the equity is back to the recovery share of its peak. */
  lemma {:induction false} SpeedClosureIff(p: Params, ts: seq<Tick>, k: nat, line: real)
    requires (p.policy == B0 || p.policy == B2) && k < |ts| && At(p, ts, k).tripped
    requires line == At(p, ts, k).peak * p.recoveryPct
    ensures !At(p, ts, k + 1).tripped <==> ts[k].equity >= line
  {
    SpeedClosure(p, At(p, ts, k), ts[k], line);
  }

  lemma SpeedClosure(p: Params, e: Episode, t: Tick, line: real)
    requires (p.policy == B0 || p.policy == B2) && e.tripped && line == e.peak * p.recoveryPct
    ensures !Session(p, e, t).tripped <==> t.equity >= line
  {
    var e1 := TrackTrough(p, e, t.equity);
    assert Recovered(p, e1, t.equity) <==> t.equity >= line;
  }

  /** A closing session starts over: no streak, no relapse, an entry scale of one, and a B4 memory that is at
      most the drawdown of the day. */
  lemma ClosureStartsOver(p: Params, ts: seq<Tick>, k: nat)
    requires k < |ts| && At(p, ts, k).tripped && !At(p, ts, k + 1).tripped
    ensures var after := At(p, ts, k + 1);
      after.streak == 0 && AllocationScale(after) == 1.0 &&
      (IsB4(p.policy) && after.rearmStartDd.Some? ==> after.rearmStartDd.value == DdPct(At(p, ts, k), ts[k].equity)) &&
      (IsB4(p.policy) ==> !after.relapseDay)
  {
    AlwaysQuiet(p, ts, k);
    OpenSession(p, At(p, ts, k), ts[k]);
  }

  /** Entries are scaled by the day's allocation inside an episode and untouched outside. */
  lemma EntryScale(e: Episode)
    ensures !e.tripped ==> AllocationScale(e) == 1.0
    ensures e.tripped ==> AllocationScale(e) == e.allocation
  {
  }

  /** Through the session of the adaptive breaker B0 never counts a streak, so it stays at its degraded
      allocation for the whole episode. */
  lemma {:induction false} B0StaysDegraded(p: Params, ts: seq<Tick>, k: nat)
    requires p.policy == B0 && k <= |ts|
    ensures At(p, ts, k).streak == 0
    ensures k > 0 ==> At(p, ts, k).allocation == p.degraded
  {
    if k > 0 {
      B0StaysDegraded(p, ts, k - 1);
    }
  }

  lemma AllocatedByTier(p: Params, e: Episode, t: Tick)
    requires (p.policy == B1 || p.policy == B3) && Session(p, e, t).tripped
    ensures Session(p, e, t).allocation ==
      LastReached(RecoveryRatio(Session(p, e, t), t.equity),
        if p.policy == B1 then B1_TIERS else if IsFavorable(t.regime) then B3_FAVORABLE else B3_DEFENSIVE, 5)
  {
  }

  lemma NinetyPercentBack(e: Episode, equity: real)
    requires RecoveryRatio(e, equity) >= 0.90 && e.trough >= 0.0 && equity > 0.0 && e.trough <= equity
    ensures equity >= 0.9 * e.peak
  {
    var span := e.peak - e.trough;
    if span > 0.0 {
      var x := (equity - e.trough) / span;
      assert x >= 0.90;
      RatioAtLeast(equity - e.trough, span, 0.90);
    }
  }

  lemma KeptShare(peak: real, frozenPeak: real, dd: real)
    requires peak <= frozenPeak && dd <= 1.0
    ensures peak * (1.0 - dd) <= frozenPeak * (1.0 - dd)
    ensures peak - dd * peak <= frozenPeak * (1.0 - dd)
  {
    MulMono(peak, frozenPeak, 1.0 - dd);
    assert peak * (1.0 - dd) == peak - dd * peak;
  }

  lemma NoTrip(p: Params, t: Tick, frozenPeak: real)
    requires 0.0 < p.maxDd < 1.0 && Observed(t) && t.peak <= frozenPeak
    requires t.equity > TripLine(p, frozenPeak)
    ensures !Trips(p, t.equity, t.peak)
  {
    KeptShare(t.peak, frozenPeak, p.maxDd);
    if !IsB4(p.policy) && Trips(p, t.equity, t.peak) {
      RatioAtLeast(t.peak - t.equity, t.peak, p.maxDd);
    }
  }

  /** When an episode closes and the rolling peak has not passed its frozen peak, the next session
      does not trip again unless the equity falls. */
  lemma NoChattering(p: Params, ts: seq<Tick>, k: nat)
    requires k + 1 < |ts| && At(p, ts, k).tripped && !At(p, ts, k + 1).tripped
    requires 0.0 < p.maxDd < 1.0 && forall j :: 0 <= j < |ts| ==> Observed(ts[j])
    requires ClosureLine(p, At(p, ts, k).peak) > TripLine(p, At(p, ts, k).peak)
    requires ts[k + 1].equity >= ts[k].equity && ts[k + 1].peak <= At(p, ts, k).peak
    ensures ts[k].equity >= ClosureLine(p, At(p, ts, k).peak)
    ensures !At(p, ts, k + 2).tripped
  {
    PeakOfOpenEpisode(p, ts, k);
    TroughNonNegative(p, ts, k);
    ResidualAtClosure(p, At(p, ts, k), ts[k]);
    NoTrip(p, ts[k + 1], At(p, ts, k).peak);
    assert At(p, ts, k + 2) == Session(p, At(p, ts, k + 1), ts[k + 1]);
  }

  /** With the production thresholds (15% trip, 92% recovery) the two lines are apart for every
      peak above four times 1e-5 dollars. */
  lemma ProductionLinesApart(p: Params, peak: real)
    requires p.maxDd == 0.15 && p.recoveryPct == 0.92
    ensures ClosureLine(p, peak) > TripLine(p, peak)
       <==> peak > if IsB4(p.policy) then 40.0 * B4_MONEY_ABS_TOL_USD else 0.0
  {
  }

  lemma {:induction false} TroughNonNegative(p: Params, ts: seq<Tick>, k: nat)
    requires k <= |ts| && At(p, ts, k).tripped && 0.0 < p.maxDd
    requires forall j :: 0 <= j < |ts| ==> Observed(ts[j])
    ensures At(p, ts, k).trough > 0.0
  {
    if At(p, ts, k - 1).tripped {
      TroughNonNegative(p, ts, k - 1);
      OpenSession(p, At(p, ts, k - 1), ts[k - 1]);
    } else {
      TripSession(p, At(p, ts, k - 1), ts[k - 1]);
    }
  }
}
