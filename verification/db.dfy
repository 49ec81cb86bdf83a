/** The rows of the hosted database as the route handlers see them, and the
    store holding one table per entity.

    Foreign calls are parameters of the handlers rather than effects: a
    database statement either succeeds or fails with a `DbError`, an insert
    that succeeds reports the id the database assigned, the completion
    endpoint either replies or raises, and a best-effort call (notification,
    approval flow, workflow webhook) is either delivered or not. */
module Db {
  import opened Js

  /** The error object the database client returns: a code and a message. */
  datatype DbError = DbError(code: string, message: string)

  /** Outcome of an `insert(...).select()`: the id of the new row, or the error. */
  datatype Insert = Inserted(id: string) | InsertFailed(err: DbError)

  /** `companies`: the onboarding route stores whatever JSON the client sent,
      so every column is a JavaScript value. */
  datatype Company = Company(
    id: string, name: Value, industry: Value, arr: Value, icp: Value,
    ticketSize: Value, channels: Value, createdAt: int)

  /** `users`. */
  datatype User = User(id: string, email: Value, companyId: Value, role: Value, createdAt: int)

  /** `strategies`. */
  datatype Strategy = Strategy(
    id: string, companyId: Option<string>, title: string, content: string,
    status: string, createdAt: int, updatedAt: int)

  /** `leads`; `None` is a null column. */
  datatype Lead = Lead(
    id: string, companyId: Option<string>, name: string, email: Option<string>,
    company: Option<string>, position: Option<string>, industry: Option<string>,
    companySize: Option<string>, budget: Option<string>, painPoints: Option<string>,
    qualificationScore: Option<int>, status: string, createdAt: int, updatedAt: int)

  /** `campaigns`. */
  datatype Campaign = Campaign(
    id: string, companyId: Option<string>, strategyId: Option<string>, name: string,
    channel: string, targetAudience: Option<string>, content: Option<string>,
    status: string, createdAt: int, updatedAt: int)

  /** The `campaigns(name, channel)` columns embedded in a metric row by the
      dashboard query. The metric's `campaign` is `None` where that embedding
      is null: the row has no campaign, or its campaign is not the company's,
      since the query's filter on `campaigns.company_id` restricts only the
      embedding and not the metric rows. */
  datatype CampaignRef = CampaignRef(name: Option<string>, channel: Option<string>)

  /** `campaign_metrics`; `None` is a null column. */
  datatype Metric = Metric(
    id: string, campaignId: Option<string>, impressions: Option<int>, clicks: Option<int>,
    conversions: Option<int>, cost: Option<real>, date: string, createdAt: int,
    campaign: Option<CampaignRef>)

  /** `actions`; `kind` is the `type` column. */
  datatype Action = Action(
    id: string, companyId: Option<string>, campaignId: Option<string>, kind: string,
    content: string, status: string, assignedTo: Option<string>, dueDate: Option<string>,
    createdAt: int, updatedAt: int)

  /** `meetings`: the routes only count them. */
  datatype Meeting = Meeting(id: string, companyId: Option<string>, leadId: Option<string>, title: string, createdAt: int)

  datatype Store = Store(
    companies: seq<Company>, users: seq<User>, strategies: seq<Strategy>,
    leads: seq<Lead>, campaigns: seq<Campaign>, metrics: seq<Metric>,
    actions: seq<Action>, meetings: seq<Meeting>)

  /** A column written from a request value: an `undefined` property is dropped
      by the JSON encoding of the insert, so the column is left null. */
  function Column(v: Value): (r: Value)
    ensures r.Undefined? == false
    ensures !v.Undefined? ==> r == v
  {
    if v.Undefined? then Null else v
  }

  /** A nullable text column as a JavaScript value. */
  function Text(o: Option<string>): (r: Value)
    ensures o.None? <==> r.Null?
  {
    match o
    case None => Null
    case Some(s) => Str(s)
  }

  /** A nullable integer column as a JavaScript value. */
  function Int(o: Option<int>): (r: Value)
    ensures o.None? <==> r.Null?
  {
    match o
    case None => Null
    case Some(n) => Num(n as real)
  }

  /** The object `select('*')` yields for a company row: its columns under
      their database names. */
  function CompanyObject(c: Company): Value {
    Obj([Field("id", Str(c.id)), Field("name", c.name), Field("industry", c.industry),
         Field("arr", c.arr), Field("icp", c.icp), Field("ticket_size", c.ticketSize),
         Field("channels", c.channels), Field("created_at", Num(c.createdAt as real))])
  }

  /** The object `select('*')` yields for a lead row. */
  function LeadObject(l: Lead): Value {
    Obj([Field("id", Str(l.id)), Field("company_id", Text(l.companyId)), Field("name", Str(l.name)),
         Field("email", Text(l.email)), Field("company", Text(l.company)),
         Field("position", Text(l.position)), Field("industry", Text(l.industry)),
         Field("company_size", Text(l.companySize)), Field("budget", Text(l.budget)),
         Field("pain_points", Text(l.painPoints)), Field("qualification_score", Int(l.qualificationScore)),
         Field("status", Str(l.status)), Field("created_at", Num(l.createdAt as real)),
         Field("updated_at", Num(l.updatedAt as real))])
  }

  /** The object `select('*')` yields for a campaign row. */
  function CampaignObject(c: Campaign): Value {
    Obj([Field("id", Str(c.id)), Field("company_id", Text(c.companyId)),
         Field("strategy_id", Text(c.strategyId)), Field("name", Str(c.name)),
         Field("channel", Str(c.channel)), Field("target_audience", Text(c.targetAudience)),
         Field("content", Text(c.content)), Field("status", Str(c.status)),
         Field("created_at", Num(c.createdAt as real)), Field("updated_at", Num(c.updatedAt as real))])
  }

  /** Row selectors for `.eq('id', id)` and `.eq('campaign_id', id)`. */
  function CompanyIdIs(id: string): Company -> bool { (c: Company) => c.id == id }
  function StrategyIdIs(id: string): Strategy -> bool { (s: Strategy) => s.id == id }
  function LeadIdIs(id: string): Lead -> bool { (l: Lead) => l.id == id }
  function CampaignIdIs(id: string): Campaign -> bool { (c: Campaign) => c.id == id }
  function ActionIdIs(id: string): Action -> bool { (a: Action) => a.id == id }
  function MetricOf(campaignId: string): Metric -> bool { (m: Metric) => m.campaignId == Some(campaignId) }

  /** A query whose rows depend on the clock (a date window) or on an ordering
      the model does not fix: the rows the database returned, or its error. */
  datatype Read<T> = Rows(rows: seq<T>) | ReadFailed(err: DbError)

  /** What the completion endpoint did with a request. */
  datatype AgentReply = Replied(text: string) | Raised(message: string)
}
