/** The analytics page: the KPI cards and the three charts drawn from one
    dashboard reply. Each chart groups rows into the buckets of a JavaScript
    object keyed by a label; what is drawn is one point per bucket. */
module AnalyticsView {
  import opened Js
  import opened Seqs
  import opened Db
  import opened Kpi
  import AnalyticsRoutes

  // ---------------------------------------------------------------------
  // KPI cards

  /** The qualification-rate card: qualified leads as a percentage of all
      leads, 0 when there are none. */
  function QualificationRate(k: Kpis): (r: real)
    ensures IsRatio(r, k.qualifiedLeads as real * 100.0, k.leads as real)
  {
    if k.leads > 0 then k.qualifiedLeads as real / k.leads as real * 100.0 else 0.0
  }

  /** The card is a percentage: never below 0 or above 100. */
  lemma QualificationRateIsPercent(metrics: seq<Metric>, leads: seq<Lead>, meetings: seq<Meeting>)
    ensures var r := QualificationRate(CalculateKpis(metrics, leads, meetings));
      0.0 <= r <= 100.0
  {
    var k := CalculateKpis(metrics, leads, meetings);
    if k.leads > 0 {
      var q := k.qualifiedLeads as real;
      var n := k.leads as real;
      assert q <= n;
      assert q / n <= 1.0;
    }
  }

  // ---------------------------------------------------------------------
  // leads chart

  /** `new Date(created_at).toLocaleDateString()`: the browser's locale and
      time zone decide the text, so it is a parameter. */
  type DayText = int -> string

  function LeadDay(day: DayText): Lead -> string {
    (l: Lead) => day(l.createdAt)
  }

  /** One date of the leads chart: all leads created that day, and the
      qualified ones among them. */
  datatype LeadPoint = LeadPoint(date: string, leads: nat, qualified: nat)

  function LeadPointOf(g: Group<Lead>): LeadPoint {
    LeadPoint(g.key, |g.members|, |Filter(g.members, IsQualified)|)
  }

  function PointLeads(p: LeadPoint): int { p.leads }
  function PointQualified(p: LeadPoint): int { p.qualified }

  /** `updateLeadsChart`: the two per-day counters, one point per day. */
  function LeadsChart(leads: seq<Lead>, day: DayText): (pts: seq<LeadPoint>)
    ensures forall i :: 0 <= i < |pts| ==> pts[i].qualified <= pts[i].leads
  {
    MapSeq(GroupBy(leads, LeadDay(day)), LeadPointOf)
  }

  /** Each day appears once, counts exactly the leads created that day and the
      qualified ones among them, and every lead's day appears. */
  lemma LeadsChartExact(leads: seq<Lead>, day: DayText)
    ensures var pts := LeadsChart(leads, day);
      && (forall i, j :: 0 <= i < j < |pts| ==> pts[i].date != pts[j].date)
      && (forall i :: 0 <= i < |pts| ==>
            var those := Filter(leads, KeyIs(LeadDay(day), pts[i].date));
            pts[i].leads == |those| > 0 && pts[i].qualified == |Filter(those, IsQualified)|)
      && (forall l :: l in leads ==> exists i :: 0 <= i < |pts| && pts[i].date == day(l.createdAt))
  {
    var gs := GroupBy(leads, LeadDay(day));
    var pts := LeadsChart(leads, day);
    GroupByGroups(leads, LeadDay(day));
    forall l | l in leads ensures exists i :: 0 <= i < |pts| && pts[i].date == day(l.createdAt) {
      GroupByFinds(leads, LeadDay(day), l);
      var i := FindKey(gs, LeadDay(day)(l)).value;
      assert pts[i].date == gs[i].key;
    }
  }

  /** The chart's columns add up to the dashboard's lead cards: all points
      together count every lead, and every qualified lead, once. */
  lemma LeadsChartAddsUp(period: Option<string>, metrics: Read<Metric>, leads: Read<Lead>, meetings: Read<Meeting>,
                         day: DayText)
    requires AnalyticsRoutes.GetDashboard(period, metrics, leads, meetings).Ok?
    ensures var d := AnalyticsRoutes.GetDashboard(period, metrics, leads, meetings).data;
      var pts := LeadsChart(d.leads, day);
      && SumInt(pts, PointLeads) == d.kpis.leads
      && SumInt(pts, PointQualified) == d.kpis.qualifiedLeads
  {
    var rows := leads.rows;
    var gs := GroupBy(rows, LeadDay(day));
    forall g: Group<Lead> ensures PointLeads(LeadPointOf(g)) == SumInt(g.members, Unit) {
      SumUnit(g.members);
    }
    SumOfGroups(gs, LeadPointOf, PointLeads, Unit);
    GroupSizesSum(rows, LeadDay(day));
    forall g: Group<Lead> ensures PointQualified(LeadPointOf(g)) == SumInt(g.members, Indicator(IsQualified)) {
      CountIsSum(g.members, IsQualified);
    }
    SumOfGroups(gs, LeadPointOf, PointQualified, Indicator(IsQualified));
    GroupByPreservesSum(rows, LeadDay(day), Indicator(IsQualified));
    CountIsSum(rows, IsQualified);
  }

  // ---------------------------------------------------------------------
  // campaign and channel charts

  /** `x || 'Unknown'`: a missing or empty name is shown as "Unknown". */
  function Label(name: Option<string>): (r: string)
    ensures r != ""
    ensures Filled(name) ==> r == name.value
    ensures !Filled(name) ==> r == "Unknown"
  {
    if Filled(name) then name.value else "Unknown"
  }

  /** `metric.campaigns?.name || 'Unknown'`. */
  function CampaignLabel(m: Metric): string {
    Label(if m.campaign.Some? then m.campaign.value.name else None)
  }

  /** `metric.campaigns?.channel || 'Unknown'`. */
  function ChannelLabel(m: Metric): string {
    Label(if m.campaign.Some? then m.campaign.value.channel else None)
  }

  /** One bucket's totals, each counter summed with a null as 0. */
  datatype Bar = Bar(name: string, totals: Totals)

  function BarOf(g: Group<Metric>): Bar {
    Bar(g.key, Accumulate(Zero, g.members))
  }

  function BarImpressions(b: Bar): int { b.totals.impressions }
  function BarClicks(b: Bar): int { b.totals.clicks }
  function BarConversions(b: Bar): int { b.totals.conversions }

  /** The per-label totals both charts build. */
  function Bars(metrics: seq<Metric>, labelOf: Metric -> string): seq<Bar> {
    MapSeq(GroupBy(metrics, labelOf), BarOf)
  }

  /** `updateCampaignChart`: per campaign name. */
  function CampaignChart(metrics: seq<Metric>): (bars: seq<Bar>)
    ensures forall i, j :: 0 <= i < j < |bars| ==> bars[i].name != bars[j].name
    ensures forall i :: 0 <= i < |bars| ==>
      bars[i].totals == Accumulate(Zero, Filter(metrics, KeyIs(CampaignLabel, bars[i].name)))
    ensures forall m :: m in metrics ==> exists i :: 0 <= i < |bars| && bars[i].name == CampaignLabel(m)
  {
    BarsExact(metrics, CampaignLabel);
    Bars(metrics, CampaignLabel)
  }

  /** Each label appears once, its totals are those of exactly the rows with
      that label, and every row's label appears. */
  lemma BarsExact(metrics: seq<Metric>, labelOf: Metric -> string)
    ensures var bars := Bars(metrics, labelOf);
      && (forall i, j :: 0 <= i < j < |bars| ==> bars[i].name != bars[j].name)
      && (forall i :: 0 <= i < |bars| ==>
            bars[i].totals == Accumulate(Zero, Filter(metrics, KeyIs(labelOf, bars[i].name))))
      && (forall m :: m in metrics ==> exists i :: 0 <= i < |bars| && bars[i].name == labelOf(m))
  {
    var gs := GroupBy(metrics, labelOf);
    var bars := Bars(metrics, labelOf);
    GroupByGroups(metrics, labelOf);
    forall m | m in metrics ensures exists i :: 0 <= i < |bars| && bars[i].name == labelOf(m) {
      GroupByFinds(metrics, labelOf, m);
      var i := FindKey(gs, labelOf(m)).value;
      assert bars[i].name == gs[i].key;
    }
  }

  /** Across all bars, the counters add up to the dashboard's totals, whatever
      the label: grouping loses and duplicates no metric row. */
  lemma BarsAddUp(period: Option<string>, metrics: Read<Metric>, leads: Read<Lead>, meetings: Read<Meeting>,
                  labelOf: Metric -> string)
    requires AnalyticsRoutes.GetDashboard(period, metrics, leads, meetings).Ok?
    ensures var d := AnalyticsRoutes.GetDashboard(period, metrics, leads, meetings).data;
      var bars := Bars(d.campaigns, labelOf);
      && SumInt(bars, BarImpressions) == d.kpis.impressions
      && SumInt(bars, BarClicks) == d.kpis.clicks
      && SumInt(bars, BarConversions) == d.kpis.conversions
  {
    var rows := metrics.rows;
    var gs := GroupBy(rows, labelOf);
    SumOfGroups(gs, BarOf, BarImpressions, Impressions);
    SumOfGroups(gs, BarOf, BarClicks, Clicks);
    SumOfGroups(gs, BarOf, BarConversions, Conversions);
    GroupByPreservesSum(rows, labelOf, Impressions);
    GroupByPreservesSum(rows, labelOf, Clicks);
    GroupByPreservesSum(rows, labelOf, Conversions);
  }

  /** One channel of `updateChannelChart`: click-through and conversion rates
      in percent, and cost per acquisition, each 0 when its divisor is 0. */
  datatype ChannelPoint = ChannelPoint(channel: string, ctr: real, conversionRate: real, cpa: real)

  function ChannelPointOf(b: Bar): (p: ChannelPoint)
    ensures p.channel == b.name
    ensures IsRatio(p.ctr, b.totals.clicks as real * 100.0, b.totals.impressions as real)
    ensures IsRatio(p.conversionRate, b.totals.conversions as real * 100.0, b.totals.clicks as real)
    ensures IsRatio(p.cpa, b.totals.cost, b.totals.conversions as real)
  {
    var t := b.totals;
    ChannelPoint(b.name, Ratio(t.clicks as real, t.impressions as real) * 100.0,
                 Ratio(t.conversions as real, t.clicks as real) * 100.0,
                 Ratio(t.cost, t.conversions as real))
  }

  function ChannelChart(metrics: seq<Metric>): (points: seq<ChannelPoint>)
    ensures forall i, j :: 0 <= i < j < |points| ==> points[i].channel != points[j].channel
    ensures forall i :: 0 <= i < |points| ==>
      points[i] == ChannelPointOf(Bar(points[i].channel, Accumulate(Zero, Filter(metrics, KeyIs(ChannelLabel, points[i].channel)))))
    ensures forall m :: m in metrics ==> exists i :: 0 <= i < |points| && points[i].channel == ChannelLabel(m)
  {
    var bars := Bars(metrics, ChannelLabel);
    BarsExact(metrics, ChannelLabel);
    var points := MapSeq(bars, ChannelPointOf);
    points
  }

  /** When every row is from one channel, the chart is one point whose rates
      are the dashboard's own, in percent. */
  lemma OneChannelMatchesKpis(metrics: seq<Metric>, leads: seq<Lead>, meetings: seq<Meeting>, channel: string)
    requires |metrics| > 0 && forall i :: 0 <= i < |metrics| ==> ChannelLabel(metrics[i]) == channel
    ensures var k := CalculateKpis(metrics, leads, meetings);
      ChannelChart(metrics) == [ChannelPoint(channel, k.ctr * 100.0, k.conversionRate * 100.0, k.cpa)]
  {
    GroupByOneKey(metrics, ChannelLabel, channel);
    assert Bars(metrics, ChannelLabel) == [Bar(channel, Accumulate(Zero, metrics))];
  }
}
