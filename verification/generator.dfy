/**
 The revenue-opportunity generator. Every random draw the generator makes
 for one record is an input (`Draws`); with the draws fixed, a record is a
 pure function of its index and its draws, and a run is the sequence of
 records built from the draws in index order.
 */
module Generator {
  import opened Calendar
  import opened Pipeline
  import opened Money
  import opened OpportunityIds
  import opened Optional

  /** First day of the window the created dates are drawn from. */
  const StartDate: Date := Date(2024, 1, 1)

  /** Number of records a default run produces. */
  const NumOpportunities: nat := 5000

  /** The random draws behind one record, in the order the generator makes them. */
  datatype Draws = Draws(
    createdOffset: nat,
    closeOffset: nat,
    region: Region,
    product: Product,
    channel: Channel,
    stage: Stage,
    dealSize: real,
    program: Program)

  /** The ranges the draws come from: `randint(0, 364)`, `randint(30, 180)`, a log-normal deal size. */
  predicate InRange(d: Draws) {
    && d.createdOffset <= 364
    && 30 <= d.closeOffset <= 180
    && d.dealSize > 0.0
  }

  /** One row of the generated table, its fields in column order. */
  datatype Opportunity = Opportunity(
    id: string,
    createdDate: Date,
    closeDate: Date,
    region: Region,
    product: Product,
    channel: Channel,
    stage: Stage,
    dealSize: real,
    probability: int,
    expectedRevenue: real,
    actualRevenue: real,
    program: Program,
    quarter: int,
    month: int)

  /** The record with index `i` built from draws `d`, amounts rounded by `round2`. */
  function MakeOpportunity(i: nat, d: Draws, round2: real -> real): (o: Opportunity)
    ensures ParseId(o.id) == Some(i)
    ensures Valid(o.createdDate) && ToOrdinal(o.createdDate) == ToOrdinal(StartDate) + d.createdOffset
    ensures Valid(o.closeDate) && ToOrdinal(o.closeDate) == ToOrdinal(o.createdDate) + d.closeOffset
    ensures o.month == o.createdDate.month && o.quarter == QuarterOf(o.month)
    ensures o.region == d.region && o.product == d.product && o.channel == d.channel
    ensures o.stage == d.stage && o.program == d.program
    ensures o.probability == Probability(d.stage)
    ensures o.actualRevenue == o.expectedRevenue
  {
    ParseFormatRoundTrip(i);
    var created := AddDays(StartDate, d.createdOffset);
    var close := AddDays(created, d.closeOffset);
    Opportunity(
      FormatId(i),
      created,
      close,
      d.region,
      d.product,
      d.channel,
      d.stage,
      round2(d.dealSize),
      Probability(d.stage),
      round2(ExpectedRevenue(d.stage, d.dealSize)),
      round2(ActualRevenue(d.stage, d.dealSize)),
      d.program,
      QuarterOf(created.month),
      created.month)
  }

  /** The invariants every generated record satisfies, stated on the record alone. */
  predicate WellFormed(o: Opportunity) {
    DatesWellFormed(o) && RevenueWellFormed(o) && ExpectedWithinACent(o)
  }

  /** Created date in 2024, close date 30..180 days later, month and quarter taken from the created date. */
  predicate DatesWellFormed(o: Opportunity) {
    && Valid(o.createdDate) && Valid(o.closeDate)
    && o.createdDate.year == 2024
    && Before(o.createdDate, o.closeDate)
    && 30 <= ToOrdinal(o.closeDate) - ToOrdinal(o.createdDate) <= 180
    && o.month == o.createdDate.month
    && 1 <= o.month <= 12
    && o.quarter == QuarterOf(o.month)
  }

  /** The rounded expected revenue is within a cent of the rounded deal weighted by the probability. */
  predicate ExpectedWithinACent(o: Opportunity) {
    -1.0 / 100.0 <= o.expectedRevenue - o.dealSize * Share(o.probability) <= 1.0 / 100.0
  }

  /** The stage-driven probability and revenue rules. */
  predicate RevenueWellFormed(o: Opportunity) {
    && 0 <= o.probability <= 100
    && o.probability == Probability(o.stage)
    && (o.stage == ClosedWon ==> o.actualRevenue == o.dealSize)
    && (o.stage == ClosedLost ==> o.actualRevenue == 0.0 && o.expectedRevenue == 0.0)
    && o.actualRevenue == o.expectedRevenue
    && 0.0 <= o.actualRevenue <= o.dealSize
  }

  /**
   The created-date window starts on 2024-01-01 and its 366 offsets 0..365
   cover the leap year 2024 exactly; offset 365 alone gives 2024-12-31.
   */
  lemma {:induction false} CreatedDateWindow(c: nat)
    requires c <= 365
    ensures AddDays(StartDate, c).year == 2024
    ensures AddDays(StartDate, c) == Date(2024, 12, 31) <==> c == 365
  {
    var d := AddDays(StartDate, c);
    DaysBeforeYearStep(2024);
    assert IsLeapYear(2024);
    YearOfOrdinal(d, 2024);
    OrdinalOrder(d, Date(2024, 12, 31));
  }

  /** The close date lies 30..180 days after the created date, in 2024 or 2025. */
  lemma {:induction false} CloseDateGap(d: Draws)
    requires InRange(d)
    ensures var created := AddDays(StartDate, d.createdOffset);
            var close := AddDays(created, d.closeOffset);
            && ToOrdinal(close) - ToOrdinal(created) == d.closeOffset
            && Before(created, close)
            && (close.year == 2024 || close.year == 2025)
  {
    var created := AddDays(StartDate, d.createdOffset);
    var close := AddDays(created, d.closeOffset);
    OrdinalOrder(created, close);
    OrdinalOrder(close, Date(2026, 1, 1));
    DaysBeforeYearStep(2024);
    DaysBeforeYearStep(2025);
    assert IsLeapYear(2024) && !IsLeapYear(2025);
    OrdinalOrder(Date(2024, 1, 1), close);
  }

  /** A record built from in-range draws has consistent dates, month and quarter. */
  lemma {:induction false} MakeOpportunityDates(i: nat, d: Draws, round2: real -> real)
    requires InRange(d)
    ensures DatesWellFormed(MakeOpportunity(i, d, round2))
  {
    CreatedDateWindow(d.createdOffset);
    CloseDateGap(d);
  }

  /** Amounts rounded by a genuine rounding follow the stage revenue rules. */
  lemma {:induction false} RoundedRevenueRules(o: Opportunity, deal: real, round2: real -> real)
    requires deal >= 0.0
    requires IsRounding(round2)
    requires o.dealSize == round2(deal)
    requires o.probability == Probability(o.stage)
    requires o.expectedRevenue == round2(ExpectedRevenue(o.stage, deal))
    requires o.actualRevenue == round2(ActualRevenue(o.stage, deal))
    ensures RevenueWellFormed(o)
  {
    var exact := ActualRevenue(o.stage, deal);
    RoundingMonotone(round2, 0.0, exact);
    RoundingMonotone(round2, exact, deal);
  }

  /**
   Rounding the deal and the expected revenue each to within half a cent
   keeps the expected revenue within a cent of the weighted rounded deal.
   */
  lemma {:induction false} RoundedExpectedWithinACent(o: Opportunity, deal: real)
    requires o.probability == Probability(o.stage)
    requires -1.0 / 200.0 <= o.dealSize - deal <= 1.0 / 200.0
    requires -1.0 / 200.0 <= o.expectedRevenue - ExpectedRevenue(o.stage, deal) <= 1.0 / 200.0
    ensures ExpectedWithinACent(o)
  {
    var share := Share(o.probability);
    assert ExpectedRevenue(o.stage, deal) == deal * share;
    WeightedErrors(deal, o.dealSize, o.expectedRevenue, share);
  }

  /** Two half-cent errors, one of them scaled by a share in 0..1, add up to at most a cent. */
  lemma WeightedErrors(deal: real, rounded: real, roundedShare: real, share: real)
    requires -1.0 / 200.0 <= rounded - deal <= 1.0 / 200.0
    requires -1.0 / 200.0 <= roundedShare - deal * share <= 1.0 / 200.0
    requires 0.0 <= share <= 1.0
    ensures -1.0 / 100.0 <= roundedShare - rounded * share <= 1.0 / 100.0
  {
    ScaledErrorBound(rounded - deal, share);
    assert (rounded - deal) * share == rounded * share - deal * share;
  }

  /** An error of at most half a cent stays within half a cent when scaled by a share in 0..1. */
  lemma ScaledErrorBound(e: real, share: real)
    requires -1.0 / 200.0 <= e <= 1.0 / 200.0
    requires 0.0 <= share <= 1.0
    ensures -1.0 / 200.0 <= e * share <= 1.0 / 200.0
  {
    if e >= 0.0 {
      assert e * share <= e * 1.0;
    } else {
      assert e * share >= e * 1.0;
    }
  }

  /** A record built with a genuine rounding follows the stage revenue rules. */
  lemma {:induction false} MakeOpportunityRevenue(i: nat, d: Draws, round2: real -> real)
    requires d.dealSize >= 0.0
    requires IsRounding(round2)
    ensures RevenueWellFormed(MakeOpportunity(i, d, round2))
    ensures ExpectedWithinACent(MakeOpportunity(i, d, round2))
  {
    var o := MakeOpportunity(i, d, round2);
    RoundedRevenueRules(o, d.dealSize, round2);
    RoundingError(round2, d.dealSize);
    RoundingError(round2, ExpectedRevenue(d.stage, d.dealSize));
    RoundedExpectedWithinACent(o, d.dealSize);
  }

  /** A record built from in-range draws with a genuine rounding is well formed. */
  lemma {:induction false} MakeOpportunityWellFormed(i: nat, d: Draws, round2: real -> real)
    requires InRange(d)
    requires IsRounding(round2)
    ensures WellFormed(MakeOpportunity(i, d, round2))
  {
    MakeOpportunityDates(i, d, round2);
    MakeOpportunityRevenue(i, d, round2);
  }

  /** `build(i, items[i])` for every index `i`, in index order. */
  method BuildInOrder<T, R>(items: seq<T>, build: (nat, T) -> R) returns (out: seq<R>)
    ensures |out| == |items|
    ensures forall i :: 0 <= i < |items| ==> out[i] == build(i, items[i])
  {
    out := [];
    var i := 0;
    while i < |items|
      invariant i <= |items|
      invariant |out| == i
      invariant forall k :: 0 <= k < i ==> out[k] == build(k, items[k])
    {
      out := out + [build(i, items[i])];
      i := i + 1;
    }
  }

  /**
   Builds the table: one record per draw, in index order, the record with
   index `i` from `draws[i]`.
   */
  method GenerateRevenueData(draws: seq<Draws>, round2: real -> real) returns (data: seq<Opportunity>)
    ensures |data| == |draws|
    ensures forall i :: 0 <= i < |data| ==> data[i] == MakeOpportunity(i, draws[i], round2)
  {
    data := BuildInOrder(draws, (i: nat, d: Draws) => MakeOpportunity(i, d, round2));
  }

  /** The records of a run carry their own indices as identifiers, so no two share one. */
  lemma {:induction false} GeneratedIdsDistinct(draws: seq<Draws>, round2: real -> real, data: seq<Opportunity>)
    requires |data| == |draws|
    requires forall i :: 0 <= i < |data| ==> data[i] == MakeOpportunity(i, draws[i], round2)
    ensures forall i :: 0 <= i < |data| ==> ParseId(data[i].id) == Some(i)
    ensures forall i, j :: 0 <= i < j < |data| ==> data[i].id != data[j].id
  {
    forall i | 0 <= i < |data|
      ensures ParseId(data[i].id) == Some(i)
    {
      assert data[i].id == FormatId(i);
      ParseFormatRoundTrip(i);
    }
  }

  /** With draws from their ranges, every record of a run is well formed. */
  lemma {:induction false} GeneratedRecordsWellFormed(draws: seq<Draws>, round2: real -> real, data: seq<Opportunity>)
    requires IsRounding(round2)
    requires forall i :: 0 <= i < |draws| ==> InRange(draws[i])
    requires |data| == |draws|
    requires forall i :: 0 <= i < |data| ==> data[i] == MakeOpportunity(i, draws[i], round2)
    ensures forall i :: 0 <= i < |data| ==> WellFormed(data[i])
  {
    forall i | 0 <= i < |data|
      ensures WellFormed(data[i])
    {
      MakeOpportunityWellFormed(i, draws[i], round2);
    }
  }

  /** A default run of 5000 records uses nine-character identifiers throughout. */
  lemma {:induction false} DefaultRunIds(data: seq<Opportunity>)
    requires |data| == NumOpportunities
    requires forall i :: 0 <= i < |data| ==> data[i].id == FormatId(i)
    ensures forall i :: 0 <= i < |data| ==> |data[i].id| == 9 && data[i].id[..4] == "OPP_"
  {
    forall i | 0 <= i < |data|
      ensures |data[i].id| == 9 && data[i].id[..4] == "OPP_"
    {
      FormatIdLength(i);
    }
  }

  /** Sum of one amount column over the table. */
  function Total(data: seq<Opportunity>, amount: Opportunity -> real): real {
    if |data| == 0 then 0.0 else amount(data[0]) + Total(data[1..], amount)
  }

  function DealSizeOf(o: Opportunity): real { o.dealSize }
  function ExpectedOf(o: Opportunity): real { o.expectedRevenue }
  function ActualOf(o: Opportunity): real { o.actualRevenue }

  /**
   The summary totals of a table of well-formed records: expected and actual
   revenue always add up to the same amount, which never exceeds the pipeline.
   */
  lemma {:induction false} SummaryTotals(data: seq<Opportunity>)
    requires forall i :: 0 <= i < |data| ==> WellFormed(data[i])
    ensures Total(data, ExpectedOf) == Total(data, ActualOf)
    ensures 0.0 <= Total(data, ActualOf) <= Total(data, DealSizeOf)
  {
    if |data| > 0 {
      assert WellFormed(data[0]);
      SummaryTotals(data[1..]);
    }
  }
}
