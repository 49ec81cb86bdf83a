/** The analytics router: the KPI dashboard, a campaign's performance, recording
    a day of metrics, and asking the Campaign Optimizer for recommendations. */
module AnalyticsRoutes {
  import opened Js
  import opened Seqs
  import opened Db
  import opened Agents
  import opened Kpi
  import opened Effects

  // ---------------------------------------------------------------------
  // Period selection

  /** How far before now the dashboard window starts. */
  datatype Offset = Days(n: nat) | Months(n: nat) | Years(n: nat)

  /** `period || 'month'`: the time frame the dashboard echoes back. */
  function TimeFrame(period: Option<string>): (tf: string)
    ensures !Filled(period) ==> tf == "month"
    ensures Filled(period) ==> tf == period.value
  {
    if Filled(period) then period.value else "month"
  }

  const KnownPeriods: set<string> := {"day", "week", "month", "quarter", "year"}

  /** The `switch (timeFrame)` choosing the start of the window: 'day' and
      'week' step back in days, 'month' and 'quarter' in calendar months,
      'year' in calendar years, and anything else falls to the default of
      one month. */
  function StartOffset(timeFrame: string): (r: Offset)
    ensures r.Days? <==> timeFrame == "day" || timeFrame == "week"
    ensures r.Years? <==> timeFrame == "year"
    ensures r.Months? <==> timeFrame == "month" || timeFrame == "quarter" || timeFrame !in KnownPeriods
    ensures r == Months(1) <==> timeFrame == "month" || timeFrame !in KnownPeriods
    ensures r.n == (if timeFrame == "week" then 7 else if timeFrame == "quarter" then 3 else 1)
  {
    match timeFrame
    case "day" => Days(1)
    case "week" => Days(7)
    case "month" => Months(1)
    case "quarter" => Months(3)
    case "year" => Years(1)
    case _ => Months(1)
  }

  /** A missing, empty or unrecognised period selects the same window as
      'month', and each known period selects its own distinct window. */
  lemma PeriodDefaultsToMonth(period: Option<string>)
    ensures TimeFrame(period) !in KnownPeriods ==> StartOffset(TimeFrame(period)) == StartOffset("month")
    ensures !Filled(period) ==> StartOffset(TimeFrame(period)) == Months(1)
  {
  }

  lemma KnownPeriodsDistinct(a: string, b: string)
    requires a in KnownPeriods && b in KnownPeriods && a != b
    ensures StartOffset(a) != StartOffset(b)
  {
  }

  // ---------------------------------------------------------------------
  // GET /dashboard/:company_id

  datatype Dashboard = Dashboard(
    timeFrame: string, start: Offset, kpis: Kpis,
    campaigns: seq<Metric>, leads: seq<Lead>, meetings: seq<Meeting>)

  /** The dashboard over the three windowed reads (metric rows with their
      campaign's name and channel, leads, meetings); the first read that fails
      decides a 500 with its message, and the later ones are not issued. */
  function GetDashboard(period: Option<string>, metrics: Read<Metric>, leads: Read<Lead>, meetings: Read<Meeting>): (r: Reply<Dashboard>)
    ensures metrics.ReadFailed? ==> r == Fail(500, metrics.err.message)
    ensures metrics.Rows? && leads.ReadFailed? ==> r == Fail(500, leads.err.message)
    ensures metrics.Rows? && leads.Rows? && meetings.ReadFailed? ==> r == Fail(500, meetings.err.message)
    ensures r.Ok? <==> metrics.Rows? && leads.Rows? && meetings.Rows?
    ensures r.Ok? ==>
      && r.status == 200 && r.data.timeFrame == TimeFrame(period)
      && r.data.start == StartOffset(TimeFrame(period))
      && r.data.kpis == CalculateKpis(metrics.rows, leads.rows, meetings.rows)
      && r.data.campaigns == metrics.rows && r.data.leads == leads.rows && r.data.meetings == meetings.rows
  {
    match metrics
    case ReadFailed(e) => Fail(500, e.message)
    case Rows(ms) =>
      match leads
      case ReadFailed(e) => Fail(500, e.message)
      case Rows(ls) =>
        match meetings
        case ReadFailed(e) => Fail(500, e.message)
        case Rows(mt) =>
          var tf := TimeFrame(period);
          Ok(200, None, Dashboard(tf, StartOffset(tf), CalculateKpis(ms, ls, mt), ms, ls, mt))
  }

  // ---------------------------------------------------------------------
  // The dashboard's metric query

  /** The metric row points at one of the company's campaigns. */
  function BelongsTo(campaigns: seq<Campaign>, companyId: string): Metric -> bool {
    (m: Metric) => exists c :: c in campaigns && m.campaignId == Some(c.id) && c.companyId == Some(companyId)
  }

  /** The `campaigns(name, channel)` embedding under the filter
      `campaigns.company_id = companyId`: the name and channel of the row's
      campaign when that campaign is the company's, and null otherwise. */
  function Embedded(campaigns: seq<Campaign>, companyId: string, m: Metric): (r: Option<CampaignRef>)
    ensures r.Some? <==> BelongsTo(campaigns, companyId)(m)
  {
    var own := Filter(campaigns, (c: Campaign) => m.campaignId == Some(c.id) && c.companyId == Some(companyId));
    FilterMembers(campaigns, (c: Campaign) => m.campaignId == Some(c.id) && c.companyId == Some(companyId));
    if own == [] then None
    else
      assert own[0] in own;
      Some(CampaignRef(Some(own[0].name), Some(own[0].channel)))
  }

  function WithEmbedding(campaigns: seq<Campaign>, companyId: string): Metric -> Metric {
    (m: Metric) => m.(campaign := Embedded(campaigns, companyId, m))
  }

  predicate Embeds(m: Metric) {
    m.campaign.Some?
  }

  /** The metric read of the dashboard as written, over the rows whose date
      falls in the window: the filter on `campaigns.company_id` restricts only
      the embedded campaign, not the metric rows, so every row in the window
      comes back, and the rows of other companies' campaigns (or of none)
      carry a null campaign. */
  function DashboardMetricsAsWritten(campaigns: seq<Campaign>, companyId: string, window: seq<Metric>): (r: seq<Metric>)
    ensures |r| == |window|
    ensures forall i :: 0 <= i < |r| ==> r[i].id == window[i].id && r[i].impressions == window[i].impressions
    ensures forall i :: 0 <= i < |r| ==> (r[i].campaign.Some? <==> BelongsTo(campaigns, companyId)(window[i]))
  {
    MapSeq(window, WithEmbedding(campaigns, companyId))
  }

  /** The read the dashboard of one company evidently means: only the rows of
      that company's campaigns, each with its campaign embedded. */
  function DashboardMetrics(campaigns: seq<Campaign>, companyId: string, window: seq<Metric>): (r: seq<Metric>)
    ensures |r| <= |window|
    ensures forall i :: 0 <= i < |r| ==> r[i].campaign.Some?
  {
    var own := Filter(window, BelongsTo(campaigns, companyId));
    MapSeq(own, WithEmbedding(campaigns, companyId))
  }

  /** The company's read is the as-written read with the rows carrying a null
      campaign dropped: what the query returns beyond that are the other
      companies' rows. */
  lemma DashboardMetricsDropsForeignRows(campaigns: seq<Campaign>, companyId: string, window: seq<Metric>)
    ensures DashboardMetrics(campaigns, companyId, window)
         == Filter(DashboardMetricsAsWritten(campaigns, companyId, window), Embeds)
  {
    var f := WithEmbedding(campaigns, companyId);
    var p := BelongsTo(campaigns, companyId);
    forall m ensures Embeds(f(m)) == p(m) {
      assert f(m).campaign == Embedded(campaigns, companyId, m);
    }
    FilterMapSeq(window, f, p, Embeds);
  }

  /** Re-embedding the campaign changes no counter. */
  lemma {:induction false} EmbeddingKeepsImpressions(campaigns: seq<Campaign>, companyId: string, rows: seq<Metric>)
    ensures SumInt(MapSeq(rows, WithEmbedding(campaigns, companyId)), Impressions) == SumInt(rows, Impressions)
    decreases |rows|
  {
    var f := WithEmbedding(campaigns, companyId);
    if |rows| > 0 {
      assert MapSeq(rows, f)[1..] == MapSeq(rows[1..], f);
      EmbeddingKeepsImpressions(campaigns, companyId, rows[1..]);
    }
  }

  /** On the company's read the impressions KPI counts exactly the rows of
      the company's campaigns; on the as-written read it counts every row in
      the window. */
  lemma DashboardImpressions(campaigns: seq<Campaign>, companyId: string, window: seq<Metric>, leads: seq<Lead>, meetings: seq<Meeting>)
    ensures CalculateKpis(DashboardMetrics(campaigns, companyId, window), leads, meetings).impressions
         == SumInt(Filter(window, BelongsTo(campaigns, companyId)), Impressions)
    ensures CalculateKpis(DashboardMetricsAsWritten(campaigns, companyId, window), leads, meetings).impressions
         == SumInt(window, Impressions)
  {
    EmbeddingKeepsImpressions(campaigns, companyId, Filter(window, BelongsTo(campaigns, companyId)));
    EmbeddingKeepsImpressions(campaigns, companyId, window);
  }

  /** A campaign of company "other", and one metric row of it in the window. */
  const OtherCampaign := Campaign("c1", Some("other"), None, "Spring", "email", None, None, "active", 0, 0)
  const OtherRow := Metric("m1", Some("c1"), Some(10), Some(1), Some(0), Some(2.0), "2024-01-01", 0, None)

  /** That row is not one of company "mine"'s. */
  lemma OtherRowIsForeign()
    ensures Filter([OtherRow], BelongsTo([OtherCampaign], "mine")) == []
  {
    forall c | c in [OtherCampaign] ensures c.companyId != Some("mine") {
      assert c == OtherCampaign;
    }
    assert [OtherRow][1..] == [];
  }

  /** The dashboard of company "mine" over that row: the as-written read hands
      it over and the impressions KPI counts it; the company's read leaves it
      out. */
  lemma DashboardCountsOtherCompanies()
    ensures CalculateKpis(DashboardMetricsAsWritten([OtherCampaign], "mine", [OtherRow]), [], []).impressions == 10
    ensures CalculateKpis(DashboardMetrics([OtherCampaign], "mine", [OtherRow]), [], []).impressions == 0
  {
    OtherRowIsForeign();
    assert [OtherRow][1..] == [];
    DashboardImpressions([OtherCampaign], "mine", [OtherRow], [], []);
  }

  // ---------------------------------------------------------------------
  // GET /campaign/:campaign_id

  datatype Report = Report(campaign: Campaign, metrics: seq<Metric>, performance: Performance)

  /** A campaign's performance over all its metric rows. */
  function GetCampaignReport(st: Store, campaignId: string, campaignFault: Option<DbError>, metricsFault: Option<DbError>): (r: Reply<Report>)
    ensures campaignFault.Some? ==> r == Fail(500, campaignFault.value.message)
    ensures campaignFault.None? && Filter(st.campaigns, CampaignIdIs(campaignId)) == [] ==> r == Fail(404, "Campaign not found")
    ensures (campaignFault.None? && Filter(st.campaigns, CampaignIdIs(campaignId)) != [] && metricsFault.Some?)
              ==> r == Fail(500, metricsFault.value.message)
    ensures (campaignFault.None? && Filter(st.campaigns, CampaignIdIs(campaignId)) != [] && metricsFault.None?)
              ==> r.Ok? && r.data.campaign == Filter(st.campaigns, CampaignIdIs(campaignId))[0]
    ensures r.Ok? ==>
      && r.status == 200 && r.data.campaign.id == campaignId && r.data.campaign in st.campaigns
      && r.data.metrics == Filter(st.metrics, MetricOf(campaignId))
      && r.data.performance == CampaignPerformance(r.data.metrics)
  {
    match campaignFault
    case Some(e) => Fail(500, e.message)
    case None =>
      var found := Filter(st.campaigns, CampaignIdIs(campaignId));
      if |found| == 0 then Fail(404, "Campaign not found")
      else
        FilterMembers(st.campaigns, CampaignIdIs(campaignId));
        assert found[0] in found;
        match metricsFault
        case Some(e) => Fail(500, e.message)
        case None =>
          var ms := Filter(st.metrics, MetricOf(campaignId));
          Ok(200, None, Report(found[0], ms, CampaignPerformance(ms)))
  }

  // ---------------------------------------------------------------------
  // POST /metrics

  /** The fields of the request body the route reads. */
  datatype MetricsBody = MetricsBody(
    campaignId: Option<string>, impressions: Option<int>, clicks: Option<int>,
    conversions: Option<int>, cost: Option<real>, date: Option<string>)

  /** The row inserted for a body: absent counters and cost stored as 0, an
      absent date as today's. */
  function MetricRow(id: string, b: MetricsBody, today: string, now: int): (m: Metric)
    requires Filled(b.campaignId)
  {
    Metric(id, b.campaignId, Some(OrZero(b.impressions)), Some(OrZero(b.clicks)),
           Some(OrZero(b.conversions)), Some(OrZeroReal(b.cost)),
           if Filled(b.date) then b.date.value else today, now, None)
  }

  /** `POST /metrics`. Without a campaign id the request is refused before
      anything is written; otherwise exactly one row is appended to
      `campaign_metrics`, with every absent or zero counter stored as 0. */
  function RecordMetrics(st: Store, b: MetricsBody, today: string, now: int, ins: Insert): (o: Outcome<Metric>)
    ensures !Filled(b.campaignId) ==> o.reply == Fail(400, "Campaign ID is required") && o.store == st
    ensures Filled(b.campaignId) && ins.InsertFailed? ==> o.reply == Fail(500, ins.err.message) && o.store == st
    ensures o.reply.Ok? <==> Filled(b.campaignId) && ins.Inserted?
    ensures o.reply.Ok? ==>
      && o.reply.status == 201
      && o.store == st.(metrics := st.metrics + [o.reply.data])
      && o.reply.data.id == ins.id && o.reply.data.campaignId == b.campaignId
      && o.reply.data.impressions == Some(if b.impressions.Some? then b.impressions.value else 0)
      && o.reply.data.clicks == Some(if b.clicks.Some? then b.clicks.value else 0)
      && o.reply.data.conversions == Some(if b.conversions.Some? then b.conversions.value else 0)
      && o.reply.data.cost == Some(if b.cost.Some? then b.cost.value else 0.0)
      && (o.reply.data.date == if Filled(b.date) then b.date.value else today)
    ensures o.calls == [] && !o.warned
  {
    if !Filled(b.campaignId) then Refuse(st, 400, "Campaign ID is required")
    else match ins
      case InsertFailed(e) => Refuse(st, 500, e.message)
      case Inserted(id) =>
        var m := MetricRow(id, b, today, now);
        Outcome(Ok(201, Some("Campaign metrics recorded successfully"), m),
                st.(metrics := st.metrics + [m]), [], false)
  }

  // ---------------------------------------------------------------------
  // POST /optimize/:campaign_id

  datatype Optimization = Optimization(campaign: Campaign, performance: Performance, recommendations: string, action: Action)

  /** The action recording a set of recommendations for a campaign. */
  function OptimizationAction(id: string, c: Campaign, campaignId: string, text: string, now: int): Action {
    Action(id, c.companyId, Some(campaignId), "optimization", text, "pending", None, None, now, now)
  }

  /** The notification announcing a campaign's new recommendations, linking
      to the action that holds them. */
  function OptimizationNote(userId: Option<string>, c: Campaign, actionId: string): Call {
    Notify(userId, "Campaign Optimization",
      "New optimization recommendations are available for " + c.name, "/actions/" + actionId)
  }

  /** What the route's metric read (`eq('campaign_id')`, newest `date` first,
      `limit(7)`) can return: at most seven stored rows, all of this campaign. */
  predicate RecentOf(st: Store, campaignId: string, rows: seq<Metric>) {
    && |rows| <= 7
    && forall i :: 0 <= i < |rows| ==> rows[i] in st.metrics && rows[i].campaignId == Some(campaignId)
  }

  /** Every entry of `dailyMetrics` is the entry of a stored row of the campaign. */
  predicate OwnDaily(st: Store, campaignId: string, p: Performance) {
    forall i :: 0 <= i < |p.dailyMetrics| ==>
      exists m :: m in st.metrics && m.campaignId == Some(campaignId) && p.dailyMetrics[i] == DailyOf(m)
  }

  /** The performance of such a read has at most seven daily entries, each
      the entry of a stored row of the campaign. */
  lemma RecentPerformanceIsOwn(st: Store, campaignId: string, rows: seq<Metric>)
    ensures RecentOf(st, campaignId, rows) ==>
      |CampaignPerformance(rows).dailyMetrics| <= 7 && OwnDaily(st, campaignId, CampaignPerformance(rows))
  {
    var p := CampaignPerformance(rows);
    forall i | RecentOf(st, campaignId, rows) && 0 <= i < |p.dailyMetrics|
      ensures exists m :: m in st.metrics && m.campaignId == Some(campaignId) && p.dailyMetrics[i] == DailyOf(m)
    {
      assert p.dailyMetrics[i] == DailyOf(rows[i]);
    }
  }

  /** The part of `POST /optimize/:campaign_id` after the campaign was found:
      ask the optimizer about the recent rows, store its recommendations as one
      pending 'optimization' action for the campaign's company, then notify the
      user best-effort. */
  function Recommend(st: Store, c: Campaign, campaignId: string, userId: Option<string>,
                     recent: Read<Metric>, agent: AgentReply, ins: Insert, notified: bool,
                     now: int): (o: Outcome<Optimization>)
    ensures recent.ReadFailed? ==> o == Refuse(st, 500, recent.err.message)
    ensures recent.Rows? && agent.Raised? ==>
      o == Outcome(Fail(500, "Server error generating optimization recommendations"), st,
                   [Completion(Optimizer(c, CampaignPerformance(recent.rows)))], false)
    ensures recent.Rows? && agent.Replied? ==>
      o == Record(st, c, campaignId, userId, CampaignPerformance(recent.rows),
                  [Completion(Optimizer(c, CampaignPerformance(recent.rows)))],
                  Trim(agent.text), ins, notified, now)
    ensures o.reply.Ok? <==> recent.Rows? && agent.Replied? && ins.Inserted?
    ensures o.reply.Fail? ==> o.store == st && !o.warned
    ensures (o.reply.Ok? && recent.Rows? && RecentOf(st, campaignId, recent.rows)) ==>
      |o.reply.data.performance.dailyMetrics| <= 7 && OwnDaily(st, campaignId, o.reply.data.performance)
  {
    match recent
    case ReadFailed(e) => Refuse(st, 500, e.message)
    case Rows(rows) =>
      var p := CampaignPerformance(rows);
      RecentPerformanceIsOwn(st, campaignId, rows);
      var asked := [Completion(Optimizer(c, p))];
      match agent
      case Raised(_) =>
        Outcome(Fail(500, "Server error generating optimization recommendations"), st, asked, false)
      case Replied(raw) =>
        Record(st, c, campaignId, userId, p, asked, Complete(agent).text, ins, notified, now)
  }

  /** The last steps of `Recommend`, once the reply is in: the action insert,
      then the notification. */
  function Record(st: Store, c: Campaign, campaignId: string, userId: Option<string>, p: Performance,
                  asked: seq<Call>, text: string, ins: Insert, notified: bool, now: int): (o: Outcome<Optimization>)
    ensures ins.InsertFailed? ==> o == Outcome(Fail(500, ins.err.message), st, asked, false)
    ensures ins.Inserted? ==>
      var a := OptimizationAction(ins.id, c, campaignId, text, now);
      && o.reply == Ok(200, Some("Optimization recommendations generated successfully"), Optimization(c, p, text, a))
      && o.store == st.(actions := st.actions + [a])
      && o.calls == asked + [OptimizationNote(userId, c, ins.id)]
      && o.warned == !notified
  {
    match ins
    case InsertFailed(e) => Outcome(Fail(500, e.message), st, asked, false)
    case Inserted(id) =>
      var a := OptimizationAction(id, c, campaignId, text, now);
      Outcome(Ok(200, Some("Optimization recommendations generated successfully"), Optimization(c, p, text, a)),
              st.(actions := st.actions + [a]), asked + [OptimizationNote(userId, c, id)], !notified)
  }

  /** `POST /optimize/:campaign_id`: the campaign read, then `Recommend`. */
  function Optimize(st: Store, campaignId: string, userId: Option<string>, campaignFault: Option<DbError>,
                    recent: Read<Metric>, agent: AgentReply, ins: Insert, notified: bool,
                    now: int): (o: Outcome<Optimization>)
    ensures campaignFault.Some? ==> o == Refuse(st, 500, campaignFault.value.message)
    ensures campaignFault.None? && Filter(st.campaigns, CampaignIdIs(campaignId)) == [] ==> o == Refuse(st, 404, "Campaign not found")
    ensures campaignFault.None? && Filter(st.campaigns, CampaignIdIs(campaignId)) != [] ==>
      var c := Filter(st.campaigns, CampaignIdIs(campaignId))[0];
      && c in st.campaigns && c.id == campaignId
      && o == Recommend(st, c, campaignId, userId, recent, agent, ins, notified, now)
    ensures (o.reply.Ok? && recent.Rows? && RecentOf(st, campaignId, recent.rows)) ==>
      |o.reply.data.performance.dailyMetrics| <= 7 && OwnDaily(st, campaignId, o.reply.data.performance)
  {
    match campaignFault
    case Some(e) => Refuse(st, 500, e.message)
    case None =>
      var found := Filter(st.campaigns, CampaignIdIs(campaignId));
      if |found| == 0 then Refuse(st, 404, "Campaign not found")
      else
        FilterMembers(st.campaigns, CampaignIdIs(campaignId));
        assert found[0] in found;
        Recommend(st, found[0], campaignId, userId, recent, agent, ins, notified, now)
  }

  /** When the campaign exists, the reads and the insert succeed and the
      optimizer replies, the route stores exactly one new action: pending, of
      type 'optimization', for the campaign and its company, holding the
      trimmed recommendations; then it notifies the user with a link to it. */
  lemma OptimizeStoresOneAction(st: Store, campaignId: string, userId: Option<string>,
                                rows: seq<Metric>, text: string, id: string, notified: bool,
                                now: int)
    requires Filter(st.campaigns, CampaignIdIs(campaignId)) != []
    ensures var o := Optimize(st, campaignId, userId, None, Rows(rows), Replied(text), Inserted(id), notified, now);
      && o.reply.Ok? && o.reply.status == 200
      && var d := o.reply.data;
      && d.campaign in st.campaigns && d.campaign.id == campaignId
      && d.performance == CampaignPerformance(rows)
      && d.recommendations == Trim(text)
      && o.store == st.(actions := st.actions + [d.action])
      && d.action.id == id && d.action.kind == "optimization" && d.action.status == "pending"
      && d.action.companyId == d.campaign.companyId && d.action.campaignId == Some(campaignId)
      && d.action.content == d.recommendations
      && o.calls == [Completion(Optimizer(d.campaign, d.performance)),
                     Notify(userId, "Campaign Optimization",
                            "New optimization recommendations are available for " + d.campaign.name,
                            "/actions/" + id)]
      && o.warned == !notified
      && (RecentOf(st, campaignId, rows) ==>
            |d.performance.dailyMetrics| <= 7 && OwnDaily(st, campaignId, d.performance))
  {
    var c := Filter(st.campaigns, CampaignIdIs(campaignId))[0];
    var p := CampaignPerformance(rows);
    var asked := [Completion(Optimizer(c, p))];
    assert Optimize(st, campaignId, userId, None, Rows(rows), Replied(text), Inserted(id), notified, now)
      == Record(st, c, campaignId, userId, p, asked, Trim(text), Inserted(id), notified, now);
  }

  /** The route answers 200 exactly when the campaign exists, every read and
      the insert succeed and the optimizer replies; any other answer leaves
      the store as it was. */
  lemma OptimizeSucceedsExactly(st: Store, campaignId: string, userId: Option<string>, campaignFault: Option<DbError>,
                                recent: Read<Metric>, agent: AgentReply, ins: Insert, notified: bool,
                                now: int)
    ensures var o := Optimize(st, campaignId, userId, campaignFault, recent, agent, ins, notified, now);
      && (o.reply.Ok? <==> campaignFault.None? && Filter(st.campaigns, CampaignIdIs(campaignId)) != []
                           && recent.Rows? && agent.Replied? && ins.Inserted?)
      && (o.reply.Fail? ==> o.store == st && !o.warned)
  {
    var found := Filter(st.campaigns, CampaignIdIs(campaignId));
    if campaignFault.None? && found != [] {
      var o := Recommend(st, found[0], campaignId, userId, recent, agent, ins, notified, now);
      assert Optimize(st, campaignId, userId, campaignFault, recent, agent, ins, notified, now) == o;
    }
  }

  /** A failed notification is only a warning: the reply, the store and the
      calls made are the same whether or not it was delivered. */
  lemma OptimizeNotificationBestEffort(st: Store, campaignId: string, userId: Option<string>, campaignFault: Option<DbError>,
                                       recent: Read<Metric>, agent: AgentReply, ins: Insert, now: int)
    ensures var a := Optimize(st, campaignId, userId, campaignFault, recent, agent, ins, true, now);
      var b := Optimize(st, campaignId, userId, campaignFault, recent, agent, ins, false, now);
      a.reply == b.reply && a.store == b.store && a.calls == b.calls
  {
  }
}
