/** Brinson-Fachler attribution by sector, and how far its effects are from the active return. */
module BrinsonFachler {
  import opened Common

  datatype SectorBucket = SectorBucket(
    sector: string, portfolioWeight: real, benchmarkWeight: real, portfolioReturn: real, benchmarkReturn: real)

  datatype SectorAttribution = SectorAttribution(sector: string, allocation: real, selection: real, interaction: real) {
    function Total(): real {
      allocation + selection + interaction
    }
  }

  datatype Attribution = Attribution(
    sectors: seq<SectorAttribution>,
    totalAllocation: real,
    totalSelection: real,
    totalInteraction: real,
    portfolioReturn: real,
    benchmarkReturn: real)

  datatype Error = NoSector | PortfolioWeights | BenchmarkWeights

  const WEIGHT_TOLERANCE: real := 0.000001

  /** The columns the totals are taken over. */
  datatype Column = PortfolioWeight | BenchmarkWeight | PortfolioContribution | BenchmarkContribution

  function Cell(b: SectorBucket, c: Column): real {
    match c
    case PortfolioWeight => b.portfolioWeight
    case BenchmarkWeight => b.benchmarkWeight
    case PortfolioContribution => b.portfolioWeight * b.portfolioReturn
    case BenchmarkContribution => b.benchmarkWeight * b.benchmarkReturn
  }

  function Sum(bs: seq<SectorBucket>, c: Column): real {
    if bs == [] then 0.0 else Sum(bs[..|bs| - 1], c) + Cell(bs[|bs| - 1], c)
  }

  /** The effects of one sector, given the total benchmark return. */
  function Attribute(b: SectorBucket, benchmark: real): SectorAttribution {
    var activeWeight := b.portfolioWeight - b.benchmarkWeight;
    var activeReturn := b.portfolioReturn - b.benchmarkReturn;
    SectorAttribution(b.sector, activeWeight * (b.benchmarkReturn - benchmark),
                      b.benchmarkWeight * activeReturn, activeWeight * activeReturn)
  }

  function Add(t: Attribution, a: SectorAttribution): Attribution {
    t.(sectors := t.sectors + [a], totalAllocation := t.totalAllocation + a.allocation,
       totalSelection := t.totalSelection + a.selection, totalInteraction := t.totalInteraction + a.interaction)
  }

  /** The attribution of the sectors `bs` inside a portfolio with these total returns. */
  function Accumulated(bs: seq<SectorBucket>, portfolio: real, benchmark: real): Attribution {
    if bs == [] then Attribution([], 0.0, 0.0, 0.0, portfolio, benchmark)
    else Add(Accumulated(bs[..|bs| - 1], portfolio, benchmark), Attribute(bs[|bs| - 1], benchmark))
  }

  predicate Accepted(bs: seq<SectorBucket>) {
    bs != [] && Abs(Sum(bs, PortfolioWeight) - 1.0) <= WEIGHT_TOLERANCE &&
    Abs(Sum(bs, BenchmarkWeight) - 1.0) <= WEIGHT_TOLERANCE
  }

  function Decomposition(bs: seq<SectorBucket>): Attribution {
    Accumulated(bs, Sum(bs, PortfolioContribution), Sum(bs, BenchmarkContribution))
  }

  method Compute(bs: seq<SectorBucket>) returns (r: Result<Attribution, Error>)
    ensures r ==
      if bs == [] then Err(NoSector)
      else if Abs(Sum(bs, PortfolioWeight) - 1.0) > 0.000001 then Err(PortfolioWeights)
      else if Abs(Sum(bs, BenchmarkWeight) - 1.0) > 0.000001 then Err(BenchmarkWeights)
      else Ok(Decomposition(bs))
    ensures r.Ok? <==> Accepted(bs)
  {
    if bs == [] {
      return Err(NoSector);
    }
    if Abs(Sum(bs, PortfolioWeight) - 1.0) > WEIGHT_TOLERANCE {
      return Err(PortfolioWeights);
    }
    if Abs(Sum(bs, BenchmarkWeight) - 1.0) > WEIGHT_TOLERANCE {
      return Err(BenchmarkWeights);
    }
    var benchmark, portfolio := Sum(bs, BenchmarkContribution), Sum(bs, PortfolioContribution);
    var sectors: seq<SectorAttribution> := [];
    var allocation, selection, interaction := 0.0, 0.0, 0.0;
    for i := 0 to |bs|
      invariant Attribution(sectors, allocation, selection, interaction, portfolio, benchmark) ==
        Accumulated(bs[..i], portfolio, benchmark)
    {
      assert bs[..i + 1][..i] == bs[..i];
      var a := Attribute(bs[i], benchmark);
      sectors := sectors + [a];
      allocation := allocation + a.allocation;
      selection := selection + a.selection;
      interaction := interaction + a.interaction;
    }
    assert bs[..|bs|] == bs;
    r := Ok(Attribution(sectors, allocation, selection, interaction, portfolio, benchmark));
  }

  function Effects(t: Attribution): real {
    t.totalAllocation + t.totalSelection + t.totalInteraction
  }

  /** One sector: the three effects add up to its active contribution less its active weight at the
      benchmark return. */
  lemma SectorIdentity(b: SectorBucket, benchmark: real)
    ensures Attribute(b, benchmark).Total() ==
      Cell(b, PortfolioContribution) - Cell(b, BenchmarkContribution)
      - (Cell(b, PortfolioWeight) - Cell(b, BenchmarkWeight)) * benchmark
  {
  }

  /** The three effects separately: allocation is the active weight at the sector's excess over the whole
      benchmark, selection the active return at the benchmark weight, interaction the product of both. */
  lemma EffectsOfSector(b: SectorBucket, benchmark: real)
    ensures var a := Attribute(b, benchmark);
      a.sector == b.sector &&
      a.allocation == (b.portfolioWeight - b.benchmarkWeight) * (b.benchmarkReturn - benchmark) &&
      a.selection == b.benchmarkWeight * (b.portfolioReturn - b.benchmarkReturn) &&
      a.interaction == (b.portfolioWeight - b.benchmarkWeight) * (b.portfolioReturn - b.benchmarkReturn)
  {
  }

  ghost function ActiveWeight(bs: seq<SectorBucket>): real {
    Sum(bs, PortfolioWeight) - Sum(bs, BenchmarkWeight)
  }

  /** The totals of the returns carried along, and one attribution per sector. */
  lemma {:induction false} AccumulatedShape(bs: seq<SectorBucket>, portfolio: real, benchmark: real)
    ensures var t := Accumulated(bs, portfolio, benchmark);
      t.portfolioReturn == portfolio && t.benchmarkReturn == benchmark && |t.sectors| == |bs| &&
      forall i :: 0 <= i < |bs| ==> t.sectors[i] == Attribute(bs[i], benchmark)
  {
    if bs != [] {
      AccumulatedShape(bs[..|bs| - 1], portfolio, benchmark);
    }
  }

  /** What the effects of some sectors should add up to. */
  ghost function Expected(bs: seq<SectorBucket>, benchmark: real): real {
    Sum(bs, PortfolioContribution) - Sum(bs, BenchmarkContribution) - ActiveWeight(bs) * benchmark
  }

  lemma ExpectedGrows(bs: seq<SectorBucket>, benchmark: real)
    requires bs != []
    ensures Expected(bs, benchmark) == Expected(bs[..|bs| - 1], benchmark) + Attribute(bs[|bs| - 1], benchmark).Total()
  {
    var rest, b := bs[..|bs| - 1], bs[|bs| - 1];
    SectorIdentity(b, benchmark);
    Distribute(ActiveWeight(rest), Cell(b, PortfolioWeight) - Cell(b, BenchmarkWeight), benchmark);
  }

  lemma {:induction false} EffectsResidual(bs: seq<SectorBucket>, portfolio: real, benchmark: real)
    ensures Effects(Accumulated(bs, portfolio, benchmark)) == Expected(bs, benchmark)
  {
    if bs != [] {
      EffectsResidual(bs[..|bs| - 1], portfolio, benchmark);
      ExpectedGrows(bs, benchmark);
    }
  }

  lemma Distribute(a: real, b: real, c: real)
    ensures (a + b) * c == a * c + b * c
  {
  }

  /** For any number of sectors, the effects miss the active return by exactly the difference of the
      weight totals times the benchmark return. */
  lemma ResidualOfDecomposition(bs: seq<SectorBucket>)
    ensures var t := Decomposition(bs);
      Effects(t) - (t.portfolioReturn - t.benchmarkReturn) == -(ActiveWeight(bs) * t.benchmarkReturn)
  {
    var portfolio, benchmark := Sum(bs, PortfolioContribution), Sum(bs, BenchmarkContribution);
    AccumulatedShape(bs, portfolio, benchmark);
    EffectsResidual(bs, portfolio, benchmark);
  }

  /** How far the effects are from the active return. */
  ghost function Gap(bs: seq<SectorBucket>): real {
    Effects(Decomposition(bs)) - (Decomposition(bs).portfolioReturn - Decomposition(bs).benchmarkReturn)
  }

  ghost function BenchmarkReturn(bs: seq<SectorBucket>): real {
    Decomposition(bs).benchmarkReturn
  }

  /** The identity the decomposition is for holds exactly when the weight totals agree or the benchmark
      return is zero. */
  lemma IdentityIff(bs: seq<SectorBucket>)
    ensures Gap(bs) == 0.0 <==> ActiveWeight(bs) == 0.0 || BenchmarkReturn(bs) == 0.0
  {
    ResidualOfDecomposition(bs);
    ZeroProduct(ActiveWeight(bs), BenchmarkReturn(bs));
  }

  /** It misses by at most 2e-6 of the benchmark return for any accepted weights. */
  lemma GapBound(bs: seq<SectorBucket>)
    requires Accepted(bs)
    ensures Abs(Gap(bs)) <= 0.000002 * Abs(BenchmarkReturn(bs))
  {
    ResidualOfDecomposition(bs);
    BoundedProduct(ActiveWeight(bs), BenchmarkReturn(bs), 2.0 * WEIGHT_TOLERANCE);
  }

  lemma ZeroProduct(a: real, b: real)
    ensures -(a * b) == 0.0 <==> a == 0.0 || b == 0.0
  {
  }

  lemma BoundedProduct(a: real, b: real, bound: real)
    requires Abs(a) <= bound
    ensures Abs(-(a * b)) <= bound * Abs(b)
  {
    AbsProduct(a, b);
    MulMono(Abs(a), bound, Abs(b));
  }

  lemma AbsProduct(a: real, b: real)
    ensures Abs(a * b) == Abs(a) * Abs(b)
  {
    if a >= 0.0 {
      MulMono(0.0, a, Abs(b));
    } else {
      MulMono(0.0, -a, Abs(b));
    }
  }
}
