/** Point-in-time selection of the reported share count of an issuer. Days are day numbers; `available`
    is the instant from which a fact may be used, on the same scale as the cutoff. */
module ShareSelection {
  import opened Common

  datatype Fact = Fact(end: int, available: int, priority: int, value: real, accession: int)

  datatype Error = IssuerMismatch | BeforeIdentityBreak | NoPublicFact | AmbiguousValues | SplitSinceMeasurement

  // ---------- well-formed facts ----------

  /** One reported figure, as filed: the measured day, the filing day, a possible period start, the form
      and the accession number, `None` when it is malformed. */
  datatype Filing = Filing(
    end: int, filed: int, value: real, accession: Option<int>, form: string, start: Option<int>)

  const FORMS: set<string> := {"10-K", "10-Q", "10-K/A", "10-Q/A"}

  predicate Usable(f: Filing) {
    f.value > 0.0 && f.end <= f.filed && f.form in FORMS && (f.start.Some? ==> f.start.value == f.end) &&
    f.accession.Some?
  }

  /** A filing carries a date only: it is public from the midnight after that whole day. */
  function FactOf(midnight: int -> int, priority: int, f: Filing): Fact
    requires Usable(f)
  {
    Fact(f.end, midnight(f.filed + 1), priority, f.value, f.accession.value)
  }

  /** The facts of the first `n` filings of one tag. */
  function FactsUpTo(midnight: int -> int, priority: int, filings: seq<Filing>, n: nat): seq<Fact>
    requires n <= |filings|
  {
    if n == 0 then []
    else
      var before := FactsUpTo(midnight, priority, filings, n - 1);
      if Usable(filings[n - 1]) then before + [FactOf(midnight, priority, filings[n - 1])] else before
  }

  /** The facts of the first `n` tags, in order of preference. */
  function FactsOfTags(midnight: int -> int, tags: seq<seq<Filing>>, n: nat): seq<Fact>
    requires n <= |tags|
  {
    if n == 0 then []
    else FactsOfTags(midnight, tags, n - 1) + FactsUpTo(midnight, n - 1, tags[n - 1], |tags[n - 1]|)
  }

  /** All the facts of an issuer's file, refused when it is the file of another issuer. */
  method ShareFacts(midnight: int -> int, sameIssuer: bool, tags: seq<seq<Filing>>)
    returns (r: Result<seq<Fact>, Error>)
    ensures r == if sameIssuer then Ok(FactsOfTags(midnight, tags, |tags|)) else Err(IssuerMismatch)
  {
    if !sameIssuer {
      return Err(IssuerMismatch);
    }
    var facts: seq<Fact> := [];
    for priority := 0 to |tags|
      invariant facts == FactsOfTags(midnight, tags, priority)
    {
      var filings := tags[priority];
      for i := 0 to |filings|
        invariant facts == FactsOfTags(midnight, tags, priority) + FactsUpTo(midnight, priority, filings, i)
      {
        if Usable(filings[i]) {
          facts := facts + [FactOf(midnight, priority, filings[i])];
        }
      }
    }
    r := Ok(facts);
  }

  /** `f` is the fact of filing `g` under the tag of rank `rank`: a positive count on an annual or quarterly
      report, for one day not after its filing, with a well-formed accession number, public from the
      midnight after the filing day. */
  predicate Reports(midnight: int -> int, rank: nat, g: Filing, f: Fact) {
    g.value > 0.0 && g.end <= g.filed &&
    (g.form == "10-K" || g.form == "10-Q" || g.form == "10-K/A" || g.form == "10-Q/A") &&
    (g.start == None || g.start == Some(g.end)) && g.accession == Some(f.accession) &&
    f.end == g.end && f.available == midnight(g.filed + 1) && f.priority == rank && f.value == g.value
  }

  lemma ReportsIff(midnight: int -> int, rank: nat, g: Filing, f: Fact)
    ensures Reports(midnight, rank, g, f) <==> Usable(g) && f == FactOf(midnight, rank, g)
  {
  }

  lemma {:induction false} FactsOfOneTag(midnight: int -> int, priority: nat, filings: seq<Filing>, n: nat, f: Fact)
    requires n <= |filings|
    ensures f in FactsUpTo(midnight, priority, filings, n) <==>
      exists i :: 0 <= i < n && Reports(midnight, priority, filings[i], f)
  {
    if n > 0 {
      ReportsIff(midnight, priority, filings[n - 1], f);
      FactsOfOneTag(midnight, priority, filings, n - 1, f);
    }
  }

  /** The facts are exactly those the filings report, each under the rank of its tag. */
  lemma {:induction false} FactsAreFilings(midnight: int -> int, tags: seq<seq<Filing>>, n: nat, f: Fact)
    requires n <= |tags|
    ensures f in FactsOfTags(midnight, tags, n) <==>
      exists k, i :: 0 <= k < n && 0 <= i < |tags[k]| && Reports(midnight, k, tags[k][i], f)
  {
    if n > 0 {
      FactsAreFilings(midnight, tags, n - 1, f);
      FactsOfOneTag(midnight, n - 1, tags[n - 1], |tags[n - 1]|, f);
    }
  }

  // ---------- selection ----------

  function Latest(days: seq<int>): Option<int> {
    if days == [] then None
    else
      var rest := Latest(days[..|days| - 1]);
      if rest.Some? && rest.value >= days[|days| - 1] then rest else Some(days[|days| - 1])
  }

  /** What a selection is asked for: day, cutoff instant, freshness limit, known splits and the first day
      after each known change of issuer. */
  datatype Query = Query(day: int, cutoff: int, maxAge: int, splits: seq<int>, identityBreaks: seq<int>)

  predicate Eligible(q: Query, f: Fact) {
    var first := Latest(q.identityBreaks);
    f.available <= q.cutoff && (first.Some? ==> first.value <= f.end) && f.end <= q.day &&
    0 <= q.day - f.end <= q.maxAge
  }

  function EligibleFacts(q: Query, facts: seq<Fact>): (r: seq<Fact>)
    ensures forall f :: f in r <==> f in facts && Eligible(q, f)
  {
    if facts == [] then []
    else
      assert facts == facts[..|facts| - 1] + [facts[|facts| - 1]];
      var before := EligibleFacts(q, facts[..|facts| - 1]);
      if Eligible(q, facts[|facts| - 1]) then before + [facts[|facts| - 1]] else before
  }

  /** Latest measurement first, then latest publication, then the preferred tag. */
  predicate Below(a: Fact, b: Fact) {
    a.end < b.end ||
    (a.end == b.end && (a.available < b.available || (a.available == b.available && a.priority > b.priority)))
  }

  predicate SameRank(a: Fact, b: Fact) {
    a.end == b.end && a.available == b.available && a.priority == b.priority
  }

  /** A fact of the highest rank. */
  function Best(facts: seq<Fact>): (b: Fact)
    requires facts != []
    ensures b in facts && forall f :: f in facts ==> !Below(b, f)
  {
    if |facts| == 1 then facts[0]
    else
      assert facts == facts[..|facts| - 1] + [facts[|facts| - 1]];
      var best := Best(facts[..|facts| - 1]);
      if Below(best, facts[|facts| - 1]) then facts[|facts| - 1] else best
  }

  function Choices(facts: seq<Fact>, best: Fact): (r: seq<Fact>)
    ensures forall f :: f in r <==> f in facts && SameRank(f, best)
  {
    if facts == [] then []
    else
      assert facts == facts[..|facts| - 1] + [facts[|facts| - 1]];
      var before := Choices(facts[..|facts| - 1], best);
      if SameRank(facts[|facts| - 1], best) then before + [facts[|facts| - 1]] else before
  }

  function SmallestAccession(facts: seq<Fact>): (c: Fact)
    requires facts != []
    ensures c in facts && forall f :: f in facts ==> c.accession <= f.accession
  {
    if |facts| == 1 then facts[0]
    else
      assert facts == facts[..|facts| - 1] + [facts[|facts| - 1]];
      var before := SmallestAccession(facts[..|facts| - 1]);
      if facts[|facts| - 1].accession < before.accession then facts[|facts| - 1] else before
  }

  predicate Conflicting(choices: seq<Fact>) {
    exists f, g :: f in choices && g in choices && f.value != g.value
  }

  predicate SplitSince(q: Query, f: Fact) {
    exists d :: d in q.splits && f.end <= d <= q.day
  }

  /** Among the facts of the highest rank, the one with the smallest accession. */
  function Pick(eligible: seq<Fact>): Fact
    requires eligible != []
  {
    assert Best(eligible) in Choices(eligible, Best(eligible));
    SmallestAccession(Choices(eligible, Best(eligible)))
  }

  function SelectShares(q: Query, facts: seq<Fact>): Result<Fact, Error> {
    if exists d :: d in q.identityBreaks && q.day < d then Err(BeforeIdentityBreak)
    else
      var eligible := EligibleFacts(q, facts);
      if eligible == [] then Err(NoPublicFact)
      else if Conflicting(Choices(eligible, Best(eligible))) then Err(AmbiguousValues)
      else
        var chosen := Pick(eligible);
        if SplitSince(q, chosen) then Err(SplitSinceMeasurement) else Ok(chosen)
  }

  // ---------- what a selection means ----------

  /** `f` is an eligible fact that no eligible fact outranks. */
  ghost predicate Freshest(q: Query, facts: seq<Fact>, f: Fact) {
    f in facts && Eligible(q, f) && forall g :: g in facts && Eligible(q, g) ==> !Below(f, g)
  }

  /** All the freshest facts report the same number of shares. */
  ghost predicate Agreed(q: Query, facts: seq<Fact>) {
    forall f, g :: Freshest(q, facts, f) && Freshest(q, facts, g) ==> f.value == g.value
  }

  lemma RankedChoices(q: Query, facts: seq<Fact>)
    requires EligibleFacts(q, facts) != []
    ensures var eligible := EligibleFacts(q, facts);
      forall f :: f in Choices(eligible, Best(eligible)) <==> Freshest(q, facts, f)
  {
    var eligible := EligibleFacts(q, facts);
    var best := Best(eligible);
    forall f
      ensures f in Choices(eligible, best) <==> Freshest(q, facts, f)
    {
      if Freshest(q, facts, f) {
        assert !Below(f, best) && !Below(best, f);
      }
    }
  }

  /** The freshest facts by increasing accession: `f` comes first. */
  ghost predicate First(q: Query, facts: seq<Fact>, f: Fact) {
    Freshest(q, facts, f) && forall g :: Freshest(q, facts, g) ==> f.accession <= g.accession
  }

  lemma PickIsFirst(q: Query, facts: seq<Fact>, f: Fact)
    requires EligibleFacts(q, facts) != [] && Agreed(q, facts)
    ensures Pick(EligibleFacts(q, facts)) == f <==> First(q, facts, f)
  {
    RankedChoices(q, facts);
    var eligible := EligibleFacts(q, facts);
    var choices, chosen := Choices(eligible, Best(eligible)), Pick(eligible);
    assert Freshest(q, facts, chosen) && SameRank(chosen, Best(eligible));
    if First(q, facts, f) {
      assert f in choices && SameRank(f, Best(eligible));
      assert f.value == chosen.value && f.accession == chosen.accession;
    }
  }

  lemma ConflictIff(q: Query, facts: seq<Fact>)
    requires EligibleFacts(q, facts) != []
    ensures Conflicting(Choices(EligibleFacts(q, facts), Best(EligibleFacts(q, facts)))) <==> !Agreed(q, facts)
  {
    RankedChoices(q, facts);
  }

  /** A selection succeeds with `f` exactly when there is no later identity break, `f` is a freshest
      eligible fact (so at most `maxAge` days old and public by the cutoff), all freshest facts agree on
      the value, `f` has their smallest accession, and no split is known since its measurement. */
  lemma SelectionIff(q: Query, facts: seq<Fact>, f: Fact)
    ensures SelectShares(q, facts) == Ok(f) <==>
      (forall d :: d in q.identityBreaks ==> d <= q.day) && First(q, facts, f) && Agreed(q, facts) &&
      !SplitSince(q, f)
  {
    if EligibleFacts(q, facts) != [] {
      ConflictIff(q, facts);
      if Agreed(q, facts) {
        PickIsFirst(q, facts, f);
      }
    } else {
      assert f !in EligibleFacts(q, facts);
    }
  }

  /** With the same freshest facts, the same conflict and the same pick. */
  lemma SameFreshestSamePick(q: Query, facts: seq<Fact>, others: seq<Fact>)
    requires EligibleFacts(q, facts) != [] && EligibleFacts(q, others) != []
    requires forall f :: Freshest(q, facts, f) <==> Freshest(q, others, f)
    ensures Agreed(q, facts) <==> Agreed(q, others)
    ensures Agreed(q, facts) ==> Pick(EligibleFacts(q, facts)) == Pick(EligibleFacts(q, others))
  {
    if Agreed(q, facts) {
      var chosen := Pick(EligibleFacts(q, facts));
      PickIsFirst(q, facts, chosen);
      assert First(q, others, chosen);
      PickIsFirst(q, others, chosen);
    }
  }

  /** The outcome depends only on which facts are eligible: not on their order, not on repetitions, not
      on any fact published after the cutoff or measured after the day. */
  lemma OnlyEligibleFactsMatter(q: Query, facts: seq<Fact>, others: seq<Fact>)
    requires forall f :: Eligible(q, f) ==> (f in facts <==> f in others)
    ensures SelectShares(q, facts) == SelectShares(q, others)
  {
    var a, b := EligibleFacts(q, facts), EligibleFacts(q, others);
    SameMembersEmpty(a, b);
    if a != [] {
      SameFreshestSamePick(q, facts, others);
      ConflictIff(q, facts);
      ConflictIff(q, others);
    }
  }

  lemma SameMembersEmpty(a: seq<Fact>, b: seq<Fact>)
    requires forall f :: f in a <==> f in b
    ensures a == [] <==> b == []
  {
    if a != [] {
      assert a[0] in b;
    }
    if b != [] {
      assert b[0] in a;
    }
  }

  /** Facts unknown at the cutoff or measured after the day change nothing, wherever they are inserted. */
  lemma FutureFactsIgnored(q: Query, before: seq<Fact>, future: seq<Fact>, after: seq<Fact>)
    requires forall f :: f in future ==> f.available > q.cutoff || f.end > q.day
    ensures SelectShares(q, before + future + after) == SelectShares(q, before + after)
  {
    OnlyEligibleFactsMatter(q, before + future + after, before + after);
  }

  // ---------- the same in dates ----------

  /** Public by the cutoff, measured on or before the day, at most `maxAge` days before it, and on or after
      every change of issuer. */
  ghost predicate Admissible(q: Query, f: Fact) {
    f.available <= q.cutoff && f.end <= q.day <= f.end + q.maxAge && forall d :: d in q.identityBreaks ==> d <= f.end
  }

  /** `f` was measured last; among those, published last; among those, under the preferred tag. */
  predicate AtLeastAsFresh(f: Fact, g: Fact) {
    if f.end != g.end then f.end > g.end
    else if f.available != g.available then f.available > g.available
    else f.priority <= g.priority
  }

  lemma {:induction false} LatestIsLatest(days: seq<int>)
    ensures match Latest(days)
      case None => days == []
      case Some(d) => d in days && forall i :: 0 <= i < |days| ==> days[i] <= d
  {
    if days != [] {
      var rest := days[..|days| - 1];
      LatestIsLatest(rest);
      forall i | 0 <= i < |days|
        ensures days[i] <= Latest(days).value
      {
        assert i < |rest| ==> rest[i] == days[i];
      }
    }
  }

  lemma EligibleIffAdmissible(q: Query, f: Fact)
    ensures Eligible(q, f) <==> Admissible(q, f)
  {
    LatestIsLatest(q.identityBreaks);
  }

  /** `f` is one of the freshest admissible facts. */
  ghost predicate Newest(q: Query, facts: seq<Fact>, f: Fact) {
    f in facts && Admissible(q, f) && forall g :: g in facts && Admissible(q, g) ==> AtLeastAsFresh(f, g)
  }

  lemma FreshestIffNewest(q: Query, facts: seq<Fact>, f: Fact)
    ensures Freshest(q, facts, f) <==> Newest(q, facts, f)
  {
    forall g
      ensures Eligible(q, g) <==> Admissible(q, g)
    {
      EligibleIffAdmissible(q, g);
    }
    forall g
      ensures !Below(f, g) <==> AtLeastAsFresh(f, g)
    {
    }
  }

  /** Success in dates: the selected fact is the newest, all the newest agree on the count, it has the
      smallest accession among them, the day is not before a change of issuer, and no split is known from
      its measurement to the day. */
  lemma SelectionInDates(q: Query, facts: seq<Fact>, f: Fact)
    ensures SelectShares(q, facts) == Ok(f) <==>
      (forall d :: d in q.identityBreaks ==> d <= q.day) && Newest(q, facts, f) &&
      (forall g :: Newest(q, facts, g) ==> f.accession <= g.accession && f.value == g.value) &&
      (forall d :: d in q.splits ==> d < f.end || q.day < d)
  {
    forall g
      ensures Freshest(q, facts, g) <==> Newest(q, facts, g)
    {
      FreshestIffNewest(q, facts, g);
    }
    SelectionIff(q, facts, f);
    if Newest(q, facts, f) && forall g :: Newest(q, facts, g) ==> f.accession <= g.accession && f.value == g.value {
      assert First(q, facts, f) && Agreed(q, facts);
    }
  }

  lemma NothingAdmissible(q: Query, facts: seq<Fact>)
    ensures EligibleFacts(q, facts) == [] <==> forall f :: f in facts ==> !Admissible(q, f)
  {
    var eligible := EligibleFacts(q, facts);
    if eligible != [] {
      assert eligible[0] in eligible;
      EligibleIffAdmissible(q, eligible[0]);
    }
    forall f | f in facts && eligible == []
      ensures !Admissible(q, f)
    {
      assert f !in eligible;
      EligibleIffAdmissible(q, f);
    }
  }

  /** Two of the newest facts disagree. */
  ghost predicate NewestDisagree(q: Query, facts: seq<Fact>) {
    exists f, g :: Newest(q, facts, f) && Newest(q, facts, g) && f.value != g.value
  }

  lemma DisagreementIff(q: Query, facts: seq<Fact>)
    ensures Agreed(q, facts) <==> !NewestDisagree(q, facts)
  {
    forall f
      ensures Freshest(q, facts, f) <==> Newest(q, facts, f)
    {
      FreshestIffNewest(q, facts, f);
    }
  }

  /** Every rejection in dates: a later change of issuer; otherwise no admissible fact; otherwise newest facts
      that disagree; otherwise a split. */
  lemma RejectionInDates(q: Query, facts: seq<Fact>)
    ensures var r := SelectShares(q, facts);
      if exists d :: d in q.identityBreaks && q.day < d then r == Err(BeforeIdentityBreak)
      else if forall f :: f in facts ==> !Admissible(q, f) then r == Err(NoPublicFact)
      else if NewestDisagree(q, facts) then r == Err(AmbiguousValues)
      else r.Ok? || r == Err(SplitSinceMeasurement)
  {
    NothingAdmissible(q, facts);
    if EligibleFacts(q, facts) != [] {
      DisagreementIff(q, facts);
      ConflictIff(q, facts);
    }
  }
}
