/** What a route handler does: the HTTP reply, the store afterwards, and the
    outbound calls it attempted, in order. */
module Effects {
  import opened Js
  import opened Db
  import opened Agents
  import opened Kpi

  /** The HTTP reply: a 2xx with an optional `message` and the `data` payload,
      or an error status with `{ error }`. */
  datatype Reply<D> = Ok(status: int, message: Option<string>, data: D) | Fail(status: int, error: string)

  /** A question put to an agent, with what its prompt is built from. */
  datatype Ask =
    | Architect(company: Company)
    | Outreach(channel: string, lead: Lead, strategy: string)
    | Optimizer(campaign: Campaign, performance: Performance)

  /** An outbound call a handler attempted. */
  datatype Call =
    | Completion(ask: Ask)
    | Notify(userId: Option<string>, title: string, message: string, link: string)
    | ApprovalFlow(strategy: Strategy, userId: Option<string>)
    | Webhook(path: string, action: Action)

  /** A handler's effect: the reply, the store afterwards, the calls in the
      order they were attempted, and whether a best-effort step failed and
      only a warning was logged. */
  datatype Outcome<D> = Outcome(reply: Reply<D>, store: Store, calls: seq<Call>, warned: bool)

  /** An early exit that touches nothing: the store is returned unchanged and
      nothing is called. */
  function Refuse<D>(st: Store, status: int, error: string): (o: Outcome<D>)
    ensures o.reply == Fail(status, error) && o.store == st && o.calls == [] && !o.warned
  {
    Outcome(Fail(status, error), st, [], false)
  }

  /** How the column a prompt line misreads prints when it is read: the
      company's ticket size, the lead's pain points, the campaign's target
      audience. */
  function MisreadColumn(a: Ask, fmt: NumberText): string {
    match a
    case Architect(c) => Interpolate(c.ticketSize, fmt)
    case Outreach(_, l, _) => if l.painPoints.Some? then l.painPoints.value else "null"
    case Optimizer(c, _) => if c.targetAudience.Some? then c.targetAudience.value else "null"
  }

  /** The question with that column replaced (a null column for `None`). */
  function WithColumn(a: Ask, v: Option<string>): (r: Ask)
    ensures r.Architect? == a.Architect? && r.Outreach? == a.Outreach?
  {
    match a
    case Architect(c) => Architect(c.(ticketSize := Text(v)))
    case Outreach(channel, l, strategy) => Outreach(channel, l.(painPoints := v), strategy)
    case Optimizer(c, p) => Optimizer(c.(targetAudience := v), p)
  }

  /** The prompt text the corrected templates build, reading the stored
      column names. */
  function CorrectedPromptText(a: Ask, fmt: NumberText): string {
    match a
    case Architect(c) => StrategyText("ticket_size", c, fmt)
    case Outreach(channel, l, strategy) => OutreachText("pain_points", channel, l, strategy, fmt)
    case Optimizer(c, p) => OptimizerText("target_audience", c, PerformanceObject(p, fmt), fmt)
  }

  /** The prompt text sent for a question, as the routes build it: one line of
      each prompt reads a property the stored row does not have, so the text
      is the corrected one only when that column itself prints "undefined". */
  function PromptText(a: Ask, fmt: NumberText): (r: string)
    ensures r == CorrectedPromptText(a, fmt) <==> MisreadColumn(a, fmt) == "undefined"
  {
    match a
    case Architect(c) =>
      StrategyAsWrittenVsCorrected(c, fmt);
      StrategyText("ticketSize", c, fmt)
    case Outreach(channel, l, strategy) =>
      OutreachAsWrittenVsCorrected(channel, l, strategy, fmt);
      OutreachText("painPoints", channel, l, strategy, fmt)
    case Optimizer(c, p) =>
      OptimizerAsWrittenVsCorrected(c, PerformanceObject(p, fmt), fmt);
      OptimizerText("targetAudience", c, PerformanceObject(p, fmt), fmt)
  }

  /** The prompt as sent never shows the misread column: changing it alone
      leaves the prompt unchanged. */
  lemma PromptIgnoresColumn(a: Ask, v: Option<string>, fmt: NumberText)
    ensures PromptText(WithColumn(a, v), fmt) == PromptText(a, fmt)
  {
    match a
    case Architect(c) => StrategyIgnoresTicketSize(c, Text(v), fmt);
    case Outreach(channel, l, strategy) => OutreachIgnoresPainPoints(channel, l, strategy, v, fmt);
    case Optimizer(c, p) => OptimizerIgnoresAudience(c, PerformanceObject(p, fmt), v, fmt);
  }

  /** The corrected prompt shows it: changing the column alone changes the
      corrected prompt exactly when the column prints differently. */
  lemma CorrectedPromptReadsColumn(a: Ask, v: Option<string>, fmt: NumberText)
    ensures CorrectedPromptText(WithColumn(a, v), fmt) == CorrectedPromptText(a, fmt)
        <==> MisreadColumn(WithColumn(a, v), fmt) == MisreadColumn(a, fmt)
  {
    match a
    case Architect(c) =>
      assert WithColumn(a, v) == Architect(c.(ticketSize := Text(v)));
      StrategyCorrectedReadsTicketSize(c, Text(v), fmt);
    case Outreach(channel, l, strategy) =>
      assert WithColumn(a, v) == Outreach(channel, l.(painPoints := v), strategy);
      OutreachCorrectedReadsPainPoints(channel, l, strategy, v, fmt);
    case Optimizer(c, p) =>
      assert WithColumn(a, v) == Optimizer(c.(targetAudience := v), p);
      OptimizerCorrectedReadsAudience(c, PerformanceObject(p, fmt), v, fmt);
  }
}
