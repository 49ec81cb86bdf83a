/** The analytics helpers `calculateKPIs` and `calculateCampaignPerformance`:
    folds of metric, lead and meeting rows into totals, and the rates derived
    from them. A null counter contributes 0, as `metric.x || 0` does; cost and
    the rates are exact reals. */
module Kpi {
  import opened Js
  import opened Seqs
  import opened Db

  /** `metric.impressions || 0`, and likewise for the other counters. */
  function Impressions(m: Metric): int { OrZero(m.impressions) }
  function Clicks(m: Metric): int { OrZero(m.clicks) }
  function Conversions(m: Metric): int { OrZero(m.conversions) }
  function Cost(m: Metric): real { OrZeroReal(m.cost) }

  /** The four running totals. */
  datatype Totals = Totals(impressions: int, clicks: int, conversions: int, cost: real)

  const Zero: Totals := Totals(0, 0, 0, 0.0)

  /** One `forEach` step: add a row's counters, a null one as 0. */
  function AddRow(t: Totals, m: Metric): Totals {
    Totals(t.impressions + Impressions(m), t.clicks + Clicks(m),
           t.conversions + Conversions(m), t.cost + Cost(m))
  }

  /** The `forEach` over the rows, left to right from `t`: each total ends as
      its start plus the sum of the row values. */
  function Accumulate(t: Totals, rows: seq<Metric>): (r: Totals)
    ensures r.impressions == t.impressions + SumInt(rows, Impressions)
    ensures r.clicks == t.clicks + SumInt(rows, Clicks)
    ensures r.conversions == t.conversions + SumInt(rows, Conversions)
    ensures r.cost == t.cost + SumReal(rows, Cost)
    decreases |rows|
  {
    if |rows| == 0 then t else Accumulate(AddRow(t, rows[0]), rows[1..])
  }

  /** `r` is `num / den` when `den` is positive, and 0 otherwise. */
  predicate IsRatio(r: real, num: real, den: real) {
    (den > 0.0 ==> r * den == num) && (den <= 0.0 ==> r == 0.0)
  }

  /** `den > 0 ? num / den : 0`. */
  function Ratio(num: real, den: real): (r: real)
    ensures IsRatio(r, num, den)
  {
    if den > 0.0 then num / den else 0.0
  }

  /** `lead.qualification_score >= 70`; a null score compares as 0, so it
      never qualifies. */
  predicate IsQualified(l: Lead) {
    l.qualificationScore.Some? && l.qualificationScore.value >= 70
  }

  /** The object `calculateKPIs` returns. */
  datatype Kpis = Kpis(
    impressions: int, clicks: int, conversions: int, cost: real,
    ctr: real, conversionRate: real, cpa: real,
    leads: nat, qualifiedLeads: nat, meetings: nat, meetingConversionRate: real)

  /** `calculateKPIs(metricsData, leadsData, meetingsData)`. */
  function CalculateKpis(metrics: seq<Metric>, leads: seq<Lead>, meetings: seq<Meeting>): (k: Kpis)
    ensures k.impressions == SumInt(metrics, Impressions)
    ensures k.clicks == SumInt(metrics, Clicks)
    ensures k.conversions == SumInt(metrics, Conversions)
    ensures k.cost == SumReal(metrics, Cost)
    ensures IsRatio(k.ctr, k.clicks as real, k.impressions as real)
    ensures IsRatio(k.conversionRate, k.conversions as real, k.clicks as real)
    ensures IsRatio(k.cpa, k.cost, k.conversions as real)
    ensures k.leads == |leads| && k.meetings == |meetings|
    ensures k.qualifiedLeads == |Filter(leads, IsQualified)| <= k.leads
    ensures IsRatio(k.meetingConversionRate, k.meetings as real, k.qualifiedLeads as real)
  {
    var t := Accumulate(Zero, metrics);
    var q := |Filter(leads, IsQualified)|;
    var ctr := Ratio(t.clicks as real, t.impressions as real);
    var conversionRate := Ratio(t.conversions as real, t.clicks as real);
    var cpa := Ratio(t.cost, t.conversions as real);
    var meetingRate := Ratio(|meetings| as real, q as real);
    Kpis(t.impressions, t.clicks, t.conversions, t.cost, ctr, conversionRate, cpa,
         |leads|, q, |meetings|, meetingRate)
  }

  /** One more lead changes only the lead counts: it adds one lead, and one
      qualified lead exactly when its score is at least 70 (70 included, null
      excluded). */
  lemma {:induction false} KpisOneMoreLead(metrics: seq<Metric>, leads: seq<Lead>, meetings: seq<Meeting>, l: Lead)
    ensures var before := CalculateKpis(metrics, leads, meetings);
      var after := CalculateKpis(metrics, leads + [l], meetings);
      && after.leads == before.leads + 1
      && after.qualifiedLeads == before.qualifiedLeads + (if IsQualified(l) then 1 else 0)
      && after.impressions == before.impressions && after.cost == before.cost
  {
    FilterAppend(leads, [l], IsQualified);
    assert [l][1..] == [];
  }

  /** Metric rows can be split across calls: the counter totals over two row
      lists together are the sums of the totals over each. */
  lemma KpisSplitMetrics(a: seq<Metric>, b: seq<Metric>, leads: seq<Lead>, meetings: seq<Meeting>)
    ensures var ka := CalculateKpis(a, leads, meetings);
      var kb := CalculateKpis(b, leads, meetings);
      var k := CalculateKpis(a + b, leads, meetings);
      && k.impressions == ka.impressions + kb.impressions
      && k.clicks == ka.clicks + kb.clicks
      && k.conversions == ka.conversions + kb.conversions
      && k.cost == ka.cost + kb.cost
  {
    SumIntAppend(a, b, Impressions);
    SumIntAppend(a, b, Clicks);
    SumIntAppend(a, b, Conversions);
    SumRealAppend(a, b, Cost);
  }

  // ---------------------------------------------------------------------
  // calculateCampaignPerformance

  /** One entry of `dailyMetrics`. */
  datatype Daily = Daily(date: string, impressions: int, clicks: int, conversions: int, cost: real)

  /** The entry pushed for one row: its date and its defaulted counters. */
  function DailyOf(m: Metric): Daily {
    Daily(m.date, Impressions(m), Clicks(m), Conversions(m), Cost(m))
  }

  function DailyImpressions(d: Daily): int { d.impressions }
  function DailyClicks(d: Daily): int { d.clicks }
  function DailyConversions(d: Daily): int { d.conversions }
  function DailyCost(d: Daily): real { d.cost }

  /** The object `calculateCampaignPerformance` returns. */
  datatype Performance = Performance(
    impressions: int, clicks: int, conversions: int, cost: real,
    ctr: real, conversionRate: real, cpa: real, dailyMetrics: seq<Daily>)

  /** The `forEach` of `calculateCampaignPerformance`: totals and the
      `dailyMetrics` pushed so far, extended row by row. */
  function Track(t: Totals, daily: seq<Daily>, rows: seq<Metric>): (r: (Totals, seq<Daily>))
    ensures r.0 == Accumulate(t, rows)
    ensures |r.1| == |daily| + |rows| && r.1[..|daily|] == daily
    ensures forall i :: 0 <= i < |rows| ==> r.1[|daily| + i] == DailyOf(rows[i])
    decreases |rows|
  {
    if |rows| == 0 then (t, daily)
    else
      var r := Track(AddRow(t, rows[0]), daily + [DailyOf(rows[0])], rows[1..]);
      assert forall i :: 1 <= i < |rows| ==> rows[i] == rows[1..][i - 1];
      r
  }

  /** `calculateCampaignPerformance(metricsData)`. */
  function CampaignPerformance(rows: seq<Metric>): (p: Performance)
    ensures p.impressions == SumInt(rows, Impressions) && p.clicks == SumInt(rows, Clicks)
    ensures p.conversions == SumInt(rows, Conversions) && p.cost == SumReal(rows, Cost)
    ensures |p.dailyMetrics| == |rows|
    ensures forall i :: 0 <= i < |rows| ==> p.dailyMetrics[i] == DailyOf(rows[i])
    ensures IsRatio(p.ctr, p.clicks as real, p.impressions as real)
    ensures IsRatio(p.conversionRate, p.conversions as real, p.clicks as real)
    ensures IsRatio(p.cpa, p.cost, p.conversions as real)
  {
    var r := Track(Zero, [], rows);
    var t := r.0;
    var ctr := Ratio(t.clicks as real, t.impressions as real);
    var conversionRate := Ratio(t.conversions as real, t.clicks as real);
    var cpa := Ratio(t.cost, t.conversions as real);
    Performance(t.impressions, t.clicks, t.conversions, t.cost, ctr, conversionRate, cpa, r.1)
  }

  /** Summing a field over the daily entries is summing the defaulted field
      over the rows they came from. */
  lemma {:induction false} DailySums(rows: seq<Metric>, daily: seq<Daily>)
    requires |daily| == |rows|
    requires forall i :: 0 <= i < |rows| ==> daily[i] == DailyOf(rows[i])
    ensures SumInt(daily, DailyImpressions) == SumInt(rows, Impressions)
    ensures SumInt(daily, DailyClicks) == SumInt(rows, Clicks)
    ensures SumInt(daily, DailyConversions) == SumInt(rows, Conversions)
    ensures SumReal(daily, DailyCost) == SumReal(rows, Cost)
    decreases |rows|
  {
    if |rows| > 0 {
      DailySums(rows[1..], daily[1..]);
    }
  }

  /** The performance totals are the sums over its own `dailyMetrics`, so the
      chart series and the headline figures agree. */
  lemma PerformanceMatchesDaily(rows: seq<Metric>)
    ensures var p := CampaignPerformance(rows);
      && p.impressions == SumInt(p.dailyMetrics, DailyImpressions)
      && p.clicks == SumInt(p.dailyMetrics, DailyClicks)
      && p.conversions == SumInt(p.dailyMetrics, DailyConversions)
      && p.cost == SumReal(p.dailyMetrics, DailyCost)
  {
    var p := CampaignPerformance(rows);
    DailySums(rows, p.dailyMetrics);
  }

  /** The campaign performance and the dashboard KPIs agree on the same rows. */
  lemma PerformanceAgreesWithKpis(rows: seq<Metric>, leads: seq<Lead>, meetings: seq<Meeting>)
    ensures var p := CampaignPerformance(rows);
      var k := CalculateKpis(rows, leads, meetings);
      && p.impressions == k.impressions && p.clicks == k.clicks && p.conversions == k.conversions
      && p.cost == k.cost && p.ctr == k.ctr && p.conversionRate == k.conversionRate && p.cpa == k.cpa
  {
  }

  /** The performance as the plain object the optimizer prompt reads. */
  function PerformanceObject(p: Performance, fmt: NumberText): (v: Value)
    ensures v.Obj? && |v.fields| == 8
  {
    Obj([Field("impressions", Num(p.impressions as real)), Field("clicks", Num(p.clicks as real)),
         Field("conversions", Num(p.conversions as real)), Field("cost", Num(p.cost)),
         Field("ctr", Num(p.ctr)), Field("conversionRate", Num(p.conversionRate)),
         Field("cpa", Num(p.cpa)),
         Field("dailyMetrics", Arr(seq(|p.dailyMetrics|, i requires 0 <= i < |p.dailyMetrics| =>
           DailyObject(p.dailyMetrics[i]))))])
  }

  /** The four properties the optimizer prompt interpolates carry the
      performance's own impressions, ctr, conversion rate and cpa. */
  lemma PerformanceObjectReads(p: Performance, fmt: NumberText)
    ensures GetProp(PerformanceObject(p, fmt), "impressions") == Some(Num(p.impressions as real))
    ensures GetProp(PerformanceObject(p, fmt), "ctr") == Some(Num(p.ctr))
    ensures GetProp(PerformanceObject(p, fmt), "conversionRate") == Some(Num(p.conversionRate))
    ensures GetProp(PerformanceObject(p, fmt), "cpa") == Some(Num(p.cpa))
  {
    ImpressionsProp(p, fmt);
    CtrProp(p, fmt);
    ConversionRateProp(p, fmt);
    CpaProp(p, fmt);
  }

  lemma ImpressionsProp(p: Performance, fmt: NumberText)
    ensures LastValue(PerformanceObject(p, fmt).fields, "impressions") == Num(p.impressions as real)
  {
    LastValueAt(PerformanceObject(p, fmt).fields, 0, "impressions");
  }

  lemma CtrProp(p: Performance, fmt: NumberText)
    ensures LastValue(PerformanceObject(p, fmt).fields, "ctr") == Num(p.ctr)
  {
    LastValueAt(PerformanceObject(p, fmt).fields, 4, "ctr");
  }

  lemma ConversionRateProp(p: Performance, fmt: NumberText)
    ensures LastValue(PerformanceObject(p, fmt).fields, "conversionRate") == Num(p.conversionRate)
  {
    LastValueAt(PerformanceObject(p, fmt).fields, 5, "conversionRate");
  }

  lemma CpaProp(p: Performance, fmt: NumberText)
    ensures LastValue(PerformanceObject(p, fmt).fields, "cpa") == Num(p.cpa)
  {
    LastValueAt(PerformanceObject(p, fmt).fields, 6, "cpa");
  }

  function DailyObject(d: Daily): Value {
    Obj([Field("date", Str(d.date)), Field("impressions", Num(d.impressions as real)),
         Field("clicks", Num(d.clicks as real)), Field("conversions", Num(d.conversions as real)),
         Field("cost", Num(d.cost))])
  }
}
