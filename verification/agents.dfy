/** The AI agents: the configuration every agent merges at construction, the
    completion request it sends, the reply it returns, and the prompt each
    agent writes. A prompt is a template of literal text and `${...}` slots,
    so which fields a prompt reads, and in which order, is part of the model. */
module Agents {
  import opened Js
  import opened Db

  /** JavaScript's `a || b`. */
  function Or(a: Value, b: Value): (r: Value)
    ensures Truthy(a) ==> r == a
    ensures !Truthy(a) ==> r == b
  {
    if Truthy(a) then a else b
  }

  // ---------------------------------------------------------------------
  // Configuration and the completion call

  const ModelDefault: Value := Str("gpt-4")
  const TemperatureDefault: Value := Num(0.7)
  const MaxTokensDefault: Value := Num(2000.0)

  /** The constructor's `{ model: config.model || 'gpt-4', temperature:
      config.temperature || 0.7, max_tokens: config.max_tokens || 2000, ...config }`. */
  function MergeConfig(config: seq<Field>): seq<Field> {
    Defaulted(config) + config
  }

  /** The three defaulted entries written before `...config`. */
  function Defaulted(config: seq<Field>): seq<Field> {
    [Field("model", Or(LastValue(config, "model"), ModelDefault)),
     Field("temperature", Or(LastValue(config, "temperature"), TemperatureDefault)),
     Field("max_tokens", Or(LastValue(config, "max_tokens"), MaxTokensDefault))]
  }

  /** The default a key falls back to when the supplied configuration lacks it. */
  function DefaultFor(k: string): Value {
    if k == "model" then ModelDefault
    else if k == "temperature" then TemperatureDefault
    else if k == "max_tokens" then MaxTokensDefault
    else Undefined
  }

  /** Every key the caller supplied wins, whatever its value (temperature 0
      included); an absent model, temperature or max_tokens takes its default;
      nothing else is added. */
  lemma MergeConfigLookup(config: seq<Field>, k: string)
    ensures LastValue(MergeConfig(config), k) == if HasKey(config, k) then LastValue(config, k) else DefaultFor(k)
  {
    var base := Defaulted(config);
    LastValueAppend(base, config, k);
    if !HasKey(config, k) {
      assert LastValue(config, k) == Undefined by {
        assert forall i :: 0 <= i < |config| ==> config[i].key != k;
      }
      if k == "model" {
        LastValueAt(base, 0, k);
      } else if k == "temperature" {
        LastValueAt(base, 1, k);
      } else if k == "max_tokens" {
        LastValueAt(base, 2, k);
      } else {
        assert forall i :: 0 <= i < |base| ==> base[i].key != k;
      }
    }
  }

  /** The configuration of an agent built as `new XAgent(openai)`, as every
      route does: exactly the three defaults. */
  lemma DefaultConfig(k: string)
    ensures LastValue(MergeConfig([]), k) == DefaultFor(k)
  {
    MergeConfigLookup([], k);
  }

  /** The body of `openai.createCompletion`: the agent's model, the prompt, its
      temperature and max_tokens, then `...additionalParams`. */
  function CompletionRequest(config: seq<Field>, prompt: string, extra: seq<Field>): seq<Field> {
    RequestBase(config, prompt) + extra
  }

  /** The entries written before `...additionalParams`. */
  function RequestBase(config: seq<Field>, prompt: string): seq<Field> {
    [Field("model", LastValue(config, "model")), Field("prompt", Str(prompt)),
     Field("temperature", LastValue(config, "temperature")),
     Field("max_tokens", LastValue(config, "max_tokens"))]
  }

  /** `additionalParams` override the configuration and even the prompt; keys
      it lacks come from the configuration. */
  lemma CompletionRequestLookup(config: seq<Field>, prompt: string, extra: seq<Field>, k: string)
    ensures var req := CompletionRequest(config, prompt, extra);
      && (HasKey(extra, k) ==> LastValue(req, k) == LastValue(extra, k))
      && (!HasKey(extra, k) && k == "prompt" ==> LastValue(req, k) == Str(prompt))
      && (!HasKey(extra, k) && (k == "model" || k == "temperature" || k == "max_tokens") ==>
            LastValue(req, k) == LastValue(config, k))
  {
    var base := RequestBase(config, prompt);
    LastValueAppend(base, extra, k);
    if k == "model" {
      LastValueAt(base, 0, k);
    } else if k == "prompt" {
      LastValueAt(base, 1, k);
    } else if k == "temperature" {
      LastValueAt(base, 2, k);
    } else if k == "max_tokens" {
      LastValueAt(base, 3, k);
    }
  }

  /** `generateCompletion`'s result: the first choice's text trimmed, or the
      endpoint's error thrown again unchanged. */
  function Complete(reply: AgentReply): (r: AgentReply)
    ensures r.Raised? <==> reply.Raised?
    ensures reply.Raised? ==> r == reply
    ensures reply.Replied? ==> exists i, j :: 0 <= i <= j <= |reply.text| && r.text == reply.text[i..j]
                                             && SpaceOutside(reply.text, i, j)
    ensures r.Replied? ==> r.text == [] || (!IsSpace(r.text[0]) && !IsSpace(r.text[|r.text| - 1]))
  {
    match reply
    case Replied(text) => Replied(Trim(text))
    case Raised(_) => reply
  }

  /** A reply the endpoint already trimmed comes back as it is, and completing
      twice is completing once. */
  lemma CompleteIdempotent(reply: AgentReply)
    ensures Complete(Complete(reply)) == Complete(reply)
  {
    if reply.Replied? {
      TrimIdempotent(reply.text);
    }
  }

  // ---------------------------------------------------------------------
  // Prompt templates

  /** A `${...}` hole of a template literal: a property of an argument, or a
      whole argument. */
  datatype Hole = Prop(arg: nat, key: string) | Whole(arg: nat)

  /** The four agents that prompt the completion endpoint. */
  datatype Agent = StrategyArchitect | LeadQualifier | OutreachCreator | CampaignOptimizer

  /** A stretch of literal text of an agent's prompt: `index` 0 is the text
      before the first hole, `index` k the text after the k-th hole. */
  datatype Segment = Segment(agent: Agent, index: nat)

  /** A hole and the literal text that follows it. */
  datatype Part = Part(hole: Hole, text: Segment)

  /** A template literal: leading text, then holes each followed by text. */
  datatype Template = Template(head: Segment, parts: seq<Part>)

  /** A hole can be filled from `args` without a TypeError: the argument
      exists and, for a property read, is an object. */
  predicate Fits(h: Hole, args: seq<Value>) {
    match h
    case Prop(a, _) => a < |args| && args[a].Obj?
    case Whole(a) => a < |args|
  }

  predicate AllFit(parts: seq<Part>, args: seq<Value>) {
    forall i :: 0 <= i < |parts| ==> Fits(parts[i].hole, args)
  }

  /** The text `${...}` puts in place of a hole. */
  function HoleText(h: Hole, args: seq<Value>, fmt: NumberText): string
    requires Fits(h, args)
  {
    match h
    case Prop(a, k) => Interpolate(LastValue(args[a].fields, k), fmt)
    case Whole(a) => Interpolate(args[a], fmt)
  }

  function RenderParts(parts: seq<Part>, args: seq<Value>, fmt: NumberText): string
    requires AllFit(parts, args)
  {
    if |parts| == 0 then ""
    else HoleText(parts[0].hole, args, fmt) + SegmentText(parts[0].text) + RenderParts(parts[1..], args, fmt)
  }

  /** The evaluated template literal. */
  function Render(t: Template, args: seq<Value>, fmt: NumberText): string
    requires AllFit(t.parts, args)
  {
    SegmentText(t.head) + RenderParts(t.parts, args, fmt)
  }

  /** Rendering is piecewise: the text of a template split after part `i` is
      the text up to it, the hole, and the rest. */
  lemma {:induction false} RenderPartsAppend(a: seq<Part>, b: seq<Part>, args: seq<Value>, fmt: NumberText)
    requires AllFit(a, args) && AllFit(b, args)
    ensures AllFit(a + b, args)
    ensures RenderParts(a + b, args, fmt) == RenderParts(a, args, fmt) + RenderParts(b, args, fmt)
    decreases |a|
  {
    if |a| > 0 {
      assert (a + b)[0] == a[0];
      assert (a + b)[1..] == a[1..] + b;
      RenderPartsAppend(a[1..], b, args, fmt);
    } else {
      assert a + b == b;
    }
  }

  /** Two runs of parts with the same literal text whose holes read the same
      text render the same text: a prompt changes only through its holes. */
  lemma {:induction false} RenderDependsOnHoles(p: seq<Part>, q: seq<Part>, args: seq<Value>, args': seq<Value>,
                                                fmt: NumberText)
    requires AllFit(p, args) && AllFit(q, args') && |p| == |q|
    requires forall j :: 0 <= j < |p| ==> p[j].text == q[j].text
    requires forall j :: 0 <= j < |p| ==> HoleText(p[j].hole, args, fmt) == HoleText(q[j].hole, args', fmt)
    ensures RenderParts(p, args, fmt) == RenderParts(q, args', fmt)
    decreases |p|
  {
    if |p| > 0 {
      RenderDependsOnHoles(p[1..], q[1..], args, args', fmt);
    }
  }

  /** Conversely, when the holes agree except hole `i`, the two texts agree
      exactly when hole `i` reads the same text: the literal text around a
      hole cannot make up for a change in it. */
  lemma {:induction false} RenderPartsReadsHole(p: seq<Part>, q: seq<Part>, args: seq<Value>, args': seq<Value>,
                                                i: nat, fmt: NumberText)
    requires AllFit(p, args) && AllFit(q, args') && |p| == |q| && i < |p|
    requires forall j :: 0 <= j < |p| ==> p[j].text == q[j].text
    requires forall j :: 0 <= j < |p| && j != i ==> HoleText(p[j].hole, args, fmt) == HoleText(q[j].hole, args', fmt)
    ensures RenderParts(p, args, fmt) == RenderParts(q, args', fmt)
        <==> HoleText(p[i].hole, args, fmt) == HoleText(q[i].hole, args', fmt)
    decreases |p|
  {
    var x, y := HoleText(p[0].hole, args, fmt), HoleText(q[0].hole, args', fmt);
    var s := SegmentText(p[0].text);
    var r, r' := RenderParts(p[1..], args, fmt), RenderParts(q[1..], args', fmt);
    assert RenderParts(p, args, fmt) == x + s + r;
    assert RenderParts(q, args', fmt) == y + s + r';
    if i == 0 {
      RenderDependsOnHoles(p[1..], q[1..], args, args', fmt);
      if x + s + r == y + s + r {
        assert x == (x + s + r)[..|x|];
        assert y == (y + s + r)[..|y|];
      }
    } else {
      RenderPartsReadsHole(p[1..], q[1..], args, args', i - 1, fmt);
      if x + s + r == x + s + r' {
        assert r == (x + s + r)[|x + s|..];
        assert r' == (x + s + r')[|x + s|..];
      }
    }
  }

  /** The same for whole templates sharing their literal text. */
  lemma RenderReadsHole(t: Template, t': Template, args: seq<Value>, args': seq<Value>, i: nat, fmt: NumberText)
    requires AllFit(t.parts, args) && AllFit(t'.parts, args') && |t.parts| == |t'.parts| && i < |t.parts|
    requires t.head == t'.head && forall j :: 0 <= j < |t.parts| ==> t.parts[j].text == t'.parts[j].text
    requires forall j :: 0 <= j < |t.parts| && j != i ==>
      HoleText(t.parts[j].hole, args, fmt) == HoleText(t'.parts[j].hole, args', fmt)
    ensures Render(t, args, fmt) == Render(t', args', fmt)
        <==> HoleText(t.parts[i].hole, args, fmt) == HoleText(t'.parts[i].hole, args', fmt)
  {
    var h := SegmentText(t.head);
    var r, r' := RenderParts(t.parts, args, fmt), RenderParts(t'.parts, args', fmt);
    RenderPartsReadsHole(t.parts, t'.parts, args, args', i, fmt);
    if h + r == h + r' {
      assert r == (h + r)[|h|..];
      assert r' == (h + r')[|h|..];
    }
  }

  /** The texts a template's holes read from `args`, in order. */
  function Readings(t: Template, args: seq<Value>, fmt: NumberText): (r: seq<string>)
    requires AllFit(t.parts, args)
    ensures |r| == |t.parts|
    ensures forall n :: 0 <= n < |r| ==> r[n] == HoleText(t.parts[n].hole, args, fmt)
  {
    seq(|t.parts|, n requires 0 <= n < |t.parts| => HoleText(t.parts[n].hole, args, fmt))
  }

  predicate AllFitHoles(hs: seq<Hole>, args: seq<Value>) {
    forall n :: 0 <= n < |hs| ==> Fits(hs[n], args)
  }

  /** The texts a list of holes reads from `args`. */
  function HoleTexts(hs: seq<Hole>, args: seq<Value>, fmt: NumberText): seq<string>
    requires AllFitHoles(hs, args)
  {
    seq(|hs|, n requires 0 <= n < |hs| => HoleText(hs[n], args, fmt))
  }

  lemma HoleTextsAppend(a: seq<Hole>, b: seq<Hole>, args: seq<Value>, fmt: NumberText)
    requires AllFitHoles(a, args) && AllFitHoles(b, args)
    ensures AllFitHoles(a + b, args)
    ensures HoleTexts(a + b, args, fmt) == HoleTexts(a, args, fmt) + HoleTexts(b, args, fmt)
  {
  }

  /** An agent's template reads, in order, what its holes read. */
  lemma PromptReadings(a: Agent, hs: seq<Hole>, args: seq<Value>, fmt: NumberText)
    requires AllFitHoles(hs, args)
    ensures AllFit(Prompt(a, hs).parts, args)
    ensures Readings(Prompt(a, hs), args, fmt) == HoleTexts(hs, args, fmt)
  {
  }

  /** `f` and `f'` agree everywhere except perhaps at `n`. */
  predicate OnlyAt(f: seq<string>, f': seq<string>, n: int) {
    forall m :: 0 <= m < |f| && m < |f'| && m != n ==> f[m] == f'[m]
  }

  /** Two texts built from the readings `f` and `f'` depend on exactly those
      readings: equal readings give equal texts, and when the readings differ
      at most at `n`, the texts agree exactly when reading `n` does. */
  predicate ReadsExactly(x: string, x': string, f: seq<string>, f': seq<string>) {
    && |f| == |f'|
    && (f == f' ==> x == x')
    && forall n :: 0 <= n < |f| && OnlyAt(f, f', n) ==> (x == x' <==> f[n] == f'[n])
  }

  /** A template's text depends on exactly what its holes read. */
  lemma RenderReads(t: Template, args: seq<Value>, args': seq<Value>, fmt: NumberText)
    requires AllFit(t.parts, args) && AllFit(t.parts, args')
    ensures ReadsExactly(Render(t, args, fmt), Render(t, args', fmt), Readings(t, args, fmt), Readings(t, args', fmt))
  {
    var f, f' := Readings(t, args, fmt), Readings(t, args', fmt);
    if f == f' {
      assert forall j :: 0 <= j < |t.parts| ==> f[j] == f'[j];
      RenderDependsOnHoles(t.parts, t.parts, args, args', fmt);
    }
    forall n | 0 <= n < |f| && OnlyAt(f, f', n)
      ensures Render(t, args, fmt) == Render(t, args', fmt) <==> f[n] == f'[n]
    {
      RenderReadsHole(t, t, args, args', n, fmt);
    }
  }

  /** Newline plus the four-space indentation every prompt line carries. */
  const NL: string := "\n    "

  /** The literal text of the prompts. */
  function SegmentText(s: Segment): string {
    match s.agent
    case StrategyArchitect => ArchitectSegment(s.index)
    case LeadQualifier => QualifierSegment(s.index)
    case OutreachCreator => OutreachSegment(s.index)
    case CampaignOptimizer => OptimizerSegment(s.index)
  }

  function ArchitectSegment(i: nat): string {
    match i
    case 0 =>
      NL + "You are the Strategy Architect for SwitchON MultiAgent platform." + NL + NL
      + "Based on the following SaaS company data, create a comprehensive Go-To-Market strategy:"
      + NL + NL + "Company: "
    case 1 => NL + "Industry: "
    case 2 => NL + "Annual Recurring Revenue (ARR): "
    case 3 => NL + "Ideal Customer Profile (ICP): "
    case 4 => NL + "Average Ticket Size: "
    case 5 => NL + "Current Acquisition Channels: "
    case 6 =>
      NL + NL + "Your strategy should include:" + NL + "1. Target market segments"
      + NL + "2. Acquisition strategy" + NL + "3. Nurturing approach" + NL + "4. Closing tactics"
      + NL + "5. Key performance indicators" + NL + "6. Revenue targets"
      + NL + "7. Timeline for implementation" + NL
    case _ => ""
  }

  function QualifierSegment(i: nat): string {
    match i
    case 0 =>
      NL + "You are the Lead Qualifier for SwitchON MultiAgent platform." + NL + NL
      + "Based on the following lead data and the company's Ideal Customer Profile (ICP), " + NL
      + "evaluate the lead's qualification score from 0-100:" + NL + NL + "Lead Data:" + NL + "Name: "
    case 1 => NL + "Company: "
    case 2 => NL + "Position: "
    case 3 => NL + "Industry: "
    case 4 => NL + "Company Size: "
    case 5 => NL + "Budget: "
    case 6 => NL + "Pain Points: "
    case 7 => NL + NL + "Company's ICP:" + NL
    case 8 => NL + NL + "Provide a qualification score and detailed reasoning for your assessment." + NL
    case _ => ""
  }

  function OutreachSegment(i: nat): string {
    match i
    case 0 =>
      NL + "You are the Outreach Creator for SwitchON MultiAgent platform." + NL + NL
      + "Create personalized outreach content for the following channel: "
    case 1 => NL + NL + "Lead Information:" + NL + "Name: "
    case 2 => NL + "Company: "
    case 3 => NL + "Position: "
    case 4 => NL + "Industry: "
    case 5 => NL + "Pain Points: "
    case 6 => NL + NL + "Strategy Context:" + NL
    case 7 =>
      NL + NL + "Create compelling, personalized outreach content that aligns with our strategy "
      + "and addresses the lead's specific pain points." + NL
    case _ => ""
  }

  function OptimizerSegment(i: nat): string {
    match i
    case 0 =>
      NL + "You are the Campaign Optimizer for SwitchON MultiAgent platform." + NL + NL
      + "Analyze the following campaign performance data and provide optimization recommendations:"
      + NL + NL + "Campaign Information:" + NL + "Name: "
    case 1 => NL + "Channel: "
    case 2 => NL + "Target Audience: "
    case 3 => NL + "Content: "
    case 4 => NL + NL + "Performance Metrics:" + NL + "Impressions: "
    case 5 => NL + "Click-through Rate: "
    case 6 => NL + "Conversion Rate: "
    case 7 => NL + "Cost per Acquisition: "
    case 8 =>
      NL + NL + "Provide specific recommendations to improve campaign performance, including:"
      + NL + "1. Content adjustments" + NL + "2. Audience targeting refinements"
      + NL + "3. Channel optimization" + NL + "4. A/B testing suggestions" + NL
    case _ => ""
  }

  /** The template of an agent's prompt: its holes, each followed by the next
      segment of its text. */
  function Prompt(a: Agent, holes: seq<Hole>): (t: Template)
    ensures t.head == Segment(a, 0) && |t.parts| == |holes|
    ensures forall i :: 0 <= i < |holes| ==> t.parts[i] == Part(holes[i], Segment(a, i + 1))
  {
    Template(Segment(a, 0), seq(|holes|, i requires 0 <= i < |holes| => Part(holes[i], Segment(a, i + 1))))
  }

  /** The Strategy Architect's prompt over the company row (argument 0);
      `ticketKey` is the property the ticket-size line reads. */
  function StrategyTemplate(ticketKey: string): Template {
    Prompt(StrategyArchitect, [Prop(0, "name"), Prop(0, "industry"), Prop(0, "arr")]
      + [Prop(0, "icp"), Prop(0, ticketKey), Prop(0, "channels")])
  }

  /** Position of the ticket-size hole in `StrategyTemplate`. */
  const TicketHole: nat := 4

  /** The prompt as the source writes it: the ticket size is read as `ticketSize`. */
  const StrategyAsWritten: Template := StrategyTemplate("ticketSize")

  /** The prompt reading the stored column `ticket_size`. */
  const StrategyPrompt: Template := StrategyTemplate("ticket_size")

  /** The Lead Qualifier's prompt over a lead object (argument 0) and the
      company's ICP text (argument 1). */
  const QualifierTemplate: Template :=
    Prompt(LeadQualifier, [Prop(0, "name"), Prop(0, "company"), Prop(0, "position"), Prop(0, "industry")]
      + [Prop(0, "companySize"), Prop(0, "budget"), Prop(0, "painPoints"), Whole(1)])

  /** The Outreach Creator's prompt over the channel (argument 0), the lead row
      (argument 1) and the strategy text (argument 2); `painKey` is the property
      the pain-points line reads. */
  function OutreachTemplate(painKey: string): Template {
    Prompt(OutreachCreator, [Whole(0), Prop(1, "name"), Prop(1, "company"), Prop(1, "position")]
      + [Prop(1, "industry"), Prop(1, painKey), Whole(2)])
  }

  /** Position of the pain-points hole in `OutreachTemplate`. */
  const PainHole: nat := 5

  const OutreachAsWritten: Template := OutreachTemplate("painPoints")
  const OutreachPrompt: Template := OutreachTemplate("pain_points")

  /** The Campaign Optimizer's prompt over the campaign row (argument 0) and the
      performance object (argument 1); `audienceKey` is the property the
      target-audience line reads. */
  function OptimizerTemplate(audienceKey: string): Template {
    Prompt(CampaignOptimizer, [Prop(0, "name"), Prop(0, "channel"), Prop(0, audienceKey), Prop(0, "content")]
      + [Prop(1, "impressions"), Prop(1, "ctr"), Prop(1, "conversionRate"), Prop(1, "cpa")])
  }

  /** Position of the target-audience hole in `OptimizerTemplate`. */
  const AudienceHole: nat := 2

  const OptimizerAsWritten: Template := OptimizerTemplate("targetAudience")
  const OptimizerPrompt: Template := OptimizerTemplate("target_audience")

  /** A property of an object as a template literal prints it. */
  function PropText(v: Value, k: string, fmt: NumberText): string
    requires v.Obj?
  {
    Interpolate(LastValue(v.fields, k), fmt)
  }

  /** What the strategy prompt prints from a company object, in order. */
  function StrategyInputs(ticketKey: string, a: Value, fmt: NumberText): seq<string>
    requires a.Obj?
  {
    [PropText(a, "name", fmt), PropText(a, "industry", fmt), PropText(a, "arr", fmt)]
    + [PropText(a, "icp", fmt), PropText(a, ticketKey, fmt), PropText(a, "channels", fmt)]
  }

  lemma StrategyReadings(ticketKey: string, a: Value, fmt: NumberText)
    requires a.Obj?
    ensures AllFit(StrategyTemplate(ticketKey).parts, [a])
    ensures Readings(StrategyTemplate(ticketKey), [a], fmt) == StrategyInputs(ticketKey, a, fmt)
  {
    var h1, h2 := [Prop(0, "name"), Prop(0, "industry"), Prop(0, "arr")], [Prop(0, "icp"), Prop(0, ticketKey), Prop(0, "channels")];
    assert AllFitHoles(h1, [a]) && AllFitHoles(h2, [a]);
    HoleTextsAppend(h1, h2, [a], fmt);
    PromptReadings(StrategyArchitect, h1 + h2, [a], fmt);
    assert HoleTexts(h1, [a], fmt) == [PropText(a, "name", fmt), PropText(a, "industry", fmt), PropText(a, "arr", fmt)];
    assert HoleTexts(h2, [a], fmt) == [PropText(a, "icp", fmt), PropText(a, ticketKey, fmt), PropText(a, "channels", fmt)];
  }

  /** The strategy prompt for a company object depends on exactly its name,
      industry, arr, icp, the property `ticketKey` and channels: objects that
      print these the same get the same prompt, and changing one of them alone
      changes the prompt exactly when it changes how that property prints. */
  lemma StrategyReads(ticketKey: string, a: Value, a': Value, fmt: NumberText)
    requires a.Obj? && a'.Obj?
    ensures AllFit(StrategyTemplate(ticketKey).parts, [a]) && AllFit(StrategyTemplate(ticketKey).parts, [a'])
    ensures ReadsExactly(Render(StrategyTemplate(ticketKey), [a], fmt), Render(StrategyTemplate(ticketKey), [a'], fmt),
                         StrategyInputs(ticketKey, a, fmt), StrategyInputs(ticketKey, a', fmt))
  {
    StrategyReadings(ticketKey, a, fmt);
    StrategyReadings(ticketKey, a', fmt);
    RenderReads(StrategyTemplate(ticketKey), [a], [a'], fmt);
  }

  /** What the qualifier prompt prints from a lead object and the ICP, in order. */
  function QualifierInputs(l: Value, icp: Value, fmt: NumberText): seq<string>
    requires l.Obj?
  {
    [PropText(l, "name", fmt), PropText(l, "company", fmt), PropText(l, "position", fmt), PropText(l, "industry", fmt)]
    + [PropText(l, "companySize", fmt), PropText(l, "budget", fmt), PropText(l, "painPoints", fmt), Interpolate(icp, fmt)]
  }

  lemma QualifierFirstHalf(l: Value, icp: Value, fmt: NumberText)
    requires l.Obj?
    ensures var h := [Prop(0, "name"), Prop(0, "company"), Prop(0, "position"), Prop(0, "industry")];
      && AllFitHoles(h, [l, icp])
      && HoleTexts(h, [l, icp], fmt) == [PropText(l, "name", fmt), PropText(l, "company", fmt),
           PropText(l, "position", fmt), PropText(l, "industry", fmt)]
  {
  }

  lemma QualifierSecondHalf(l: Value, icp: Value, fmt: NumberText)
    requires l.Obj?
    ensures var h := [Prop(0, "companySize"), Prop(0, "budget"), Prop(0, "painPoints"), Whole(1)];
      && AllFitHoles(h, [l, icp])
      && HoleTexts(h, [l, icp], fmt) == [PropText(l, "companySize", fmt), PropText(l, "budget", fmt),
           PropText(l, "painPoints", fmt), Interpolate(icp, fmt)]
  {
  }

  lemma QualifierReadings(l: Value, icp: Value, fmt: NumberText)
    requires l.Obj?
    ensures AllFit(QualifierTemplate.parts, [l, icp])
    ensures Readings(QualifierTemplate, [l, icp], fmt) == QualifierInputs(l, icp, fmt)
  {
    var h1 := [Prop(0, "name"), Prop(0, "company"), Prop(0, "position"), Prop(0, "industry")];
    var h2 := [Prop(0, "companySize"), Prop(0, "budget"), Prop(0, "painPoints"), Whole(1)];
    QualifierFirstHalf(l, icp, fmt);
    QualifierSecondHalf(l, icp, fmt);
    HoleTextsAppend(h1, h2, [l, icp], fmt);
    PromptReadings(LeadQualifier, h1 + h2, [l, icp], fmt);
  }

  /** The qualifier prompt depends on exactly seven properties of the lead
      object it is given, then the ICP. */
  lemma QualifierReads(l: Value, icp: Value, l': Value, icp': Value, fmt: NumberText)
    requires l.Obj? && l'.Obj?
    ensures AllFit(QualifierTemplate.parts, [l, icp]) && AllFit(QualifierTemplate.parts, [l', icp'])
    ensures ReadsExactly(Render(QualifierTemplate, [l, icp], fmt), Render(QualifierTemplate, [l', icp'], fmt),
                         QualifierInputs(l, icp, fmt), QualifierInputs(l', icp', fmt))
  {
    QualifierReadings(l, icp, fmt);
    QualifierReadings(l', icp', fmt);
    RenderReads(QualifierTemplate, [l, icp], [l', icp'], fmt);
  }

  /** What the outreach prompt prints from the channel, a lead object and the
      strategy, in order. */
  function OutreachInputs(painKey: string, channel: Value, l: Value, strategy: Value, fmt: NumberText): seq<string>
    requires l.Obj?
  {
    [Interpolate(channel, fmt), PropText(l, "name", fmt), PropText(l, "company", fmt), PropText(l, "position", fmt)]
    + [PropText(l, "industry", fmt), PropText(l, painKey, fmt), Interpolate(strategy, fmt)]
  }

  lemma OutreachFirstHalf(channel: Value, l: Value, strategy: Value, fmt: NumberText)
    requires l.Obj?
    ensures var h := [Whole(0), Prop(1, "name"), Prop(1, "company"), Prop(1, "position")];
      && AllFitHoles(h, [channel, l, strategy])
      && HoleTexts(h, [channel, l, strategy], fmt) == [Interpolate(channel, fmt), PropText(l, "name", fmt),
           PropText(l, "company", fmt), PropText(l, "position", fmt)]
  {
  }

  lemma OutreachSecondHalf(painKey: string, channel: Value, l: Value, strategy: Value, fmt: NumberText)
    requires l.Obj?
    ensures var h := [Prop(1, "industry"), Prop(1, painKey), Whole(2)];
      && AllFitHoles(h, [channel, l, strategy])
      && HoleTexts(h, [channel, l, strategy], fmt) == [PropText(l, "industry", fmt), PropText(l, painKey, fmt),
           Interpolate(strategy, fmt)]
  {
  }

  lemma OutreachReadings(painKey: string, channel: Value, l: Value, strategy: Value, fmt: NumberText)
    requires l.Obj?
    ensures AllFit(OutreachTemplate(painKey).parts, [channel, l, strategy])
    ensures Readings(OutreachTemplate(painKey), [channel, l, strategy], fmt) == OutreachInputs(painKey, channel, l, strategy, fmt)
  {
    var args := [channel, l, strategy];
    var h1 := [Whole(0), Prop(1, "name"), Prop(1, "company"), Prop(1, "position")];
    var h2 := [Prop(1, "industry"), Prop(1, painKey), Whole(2)];
    OutreachFirstHalf(channel, l, strategy, fmt);
    OutreachSecondHalf(painKey, channel, l, strategy, fmt);
    HoleTextsAppend(h1, h2, args, fmt);
    PromptReadings(OutreachCreator, h1 + h2, args, fmt);
  }

  /** The outreach prompt depends on exactly the channel, five properties of
      the lead object (the last one `painKey`) and the strategy text. */
  lemma OutreachReads(painKey: string, channel: Value, l: Value, strategy: Value,
                      channel': Value, l': Value, strategy': Value, fmt: NumberText)
    requires l.Obj? && l'.Obj?
    ensures AllFit(OutreachTemplate(painKey).parts, [channel, l, strategy])
    ensures AllFit(OutreachTemplate(painKey).parts, [channel', l', strategy'])
    ensures ReadsExactly(Render(OutreachTemplate(painKey), [channel, l, strategy], fmt),
                         Render(OutreachTemplate(painKey), [channel', l', strategy'], fmt),
                         OutreachInputs(painKey, channel, l, strategy, fmt),
                         OutreachInputs(painKey, channel', l', strategy', fmt))
  {
    OutreachReadings(painKey, channel, l, strategy, fmt);
    OutreachReadings(painKey, channel', l', strategy', fmt);
    RenderReads(OutreachTemplate(painKey), [channel, l, strategy], [channel', l', strategy'], fmt);
  }

  /** What the optimizer prompt prints from a campaign object and a
      performance object, in order. */
  function OptimizerInputs(audienceKey: string, c: Value, p: Value, fmt: NumberText): seq<string>
    requires c.Obj? && p.Obj?
  {
    [PropText(c, "name", fmt), PropText(c, "channel", fmt), PropText(c, audienceKey, fmt), PropText(c, "content", fmt)]
    + [PropText(p, "impressions", fmt), PropText(p, "ctr", fmt), PropText(p, "conversionRate", fmt), PropText(p, "cpa", fmt)]
  }

  lemma OptimizerFirstHalf(audienceKey: string, c: Value, p: Value, fmt: NumberText)
    requires c.Obj? && p.Obj?
    ensures var h := [Prop(0, "name"), Prop(0, "channel"), Prop(0, audienceKey), Prop(0, "content")];
      && AllFitHoles(h, [c, p])
      && HoleTexts(h, [c, p], fmt) == [PropText(c, "name", fmt), PropText(c, "channel", fmt),
           PropText(c, audienceKey, fmt), PropText(c, "content", fmt)]
  {
  }

  lemma OptimizerSecondHalf(c: Value, p: Value, fmt: NumberText)
    requires c.Obj? && p.Obj?
    ensures var h := [Prop(1, "impressions"), Prop(1, "ctr"), Prop(1, "conversionRate"), Prop(1, "cpa")];
      && AllFitHoles(h, [c, p])
      && HoleTexts(h, [c, p], fmt) == [PropText(p, "impressions", fmt), PropText(p, "ctr", fmt),
           PropText(p, "conversionRate", fmt), PropText(p, "cpa", fmt)]
  {
  }

  lemma OptimizerReadings(audienceKey: string, c: Value, p: Value, fmt: NumberText)
    requires c.Obj? && p.Obj?
    ensures AllFit(OptimizerTemplate(audienceKey).parts, [c, p])
    ensures Readings(OptimizerTemplate(audienceKey), [c, p], fmt) == OptimizerInputs(audienceKey, c, p, fmt)
  {
    var h1 := [Prop(0, "name"), Prop(0, "channel"), Prop(0, audienceKey), Prop(0, "content")];
    var h2 := [Prop(1, "impressions"), Prop(1, "ctr"), Prop(1, "conversionRate"), Prop(1, "cpa")];
    OptimizerFirstHalf(audienceKey, c, p, fmt);
    OptimizerSecondHalf(c, p, fmt);
    HoleTextsAppend(h1, h2, [c, p], fmt);
    PromptReadings(CampaignOptimizer, h1 + h2, [c, p], fmt);
  }

  /** The optimizer prompt depends on exactly four properties of the campaign
      object (the third one `audienceKey`), then four of the performance object. */
  lemma OptimizerReads(audienceKey: string, c: Value, p: Value, c': Value, p': Value, fmt: NumberText)
    requires c.Obj? && p.Obj? && c'.Obj? && p'.Obj?
    ensures AllFit(OptimizerTemplate(audienceKey).parts, [c, p]) && AllFit(OptimizerTemplate(audienceKey).parts, [c', p'])
    ensures ReadsExactly(Render(OptimizerTemplate(audienceKey), [c, p], fmt),
                         Render(OptimizerTemplate(audienceKey), [c', p'], fmt),
                         OptimizerInputs(audienceKey, c, p, fmt), OptimizerInputs(audienceKey, c', p', fmt))
  {
    OptimizerReadings(audienceKey, c, p, fmt);
    OptimizerReadings(audienceKey, c', p', fmt);
    RenderReads(OptimizerTemplate(audienceKey), [c, p], [c', p'], fmt);
  }

  // ---------------------------------------------------------------------
  // The prompts the routes send

  /** The strategy prompt for a stored company, its ticket-size line reading
      `ticketKey`. */
  function StrategyText(ticketKey: string, c: Company, fmt: NumberText): string {
    assert AllFit(StrategyTemplate(ticketKey).parts, [CompanyObject(c)]);
    Render(StrategyTemplate(ticketKey), [CompanyObject(c)], fmt)
  }

  /** The outreach prompt for a channel, a stored lead and a strategy's text,
      its pain-points line reading `painKey`. */
  function OutreachText(painKey: string, channel: string, l: Lead, strategy: string, fmt: NumberText): string {
    assert AllFit(OutreachTemplate(painKey).parts, [Str(channel), LeadObject(l), Str(strategy)]);
    Render(OutreachTemplate(painKey), [Str(channel), LeadObject(l), Str(strategy)], fmt)
  }

  /** The optimizer prompt for a stored campaign and its performance object,
      its target-audience line reading `audienceKey`. */
  function OptimizerText(audienceKey: string, c: Campaign, performance: Value, fmt: NumberText): string
    requires performance.Obj?
  {
    assert AllFit(OptimizerTemplate(audienceKey).parts, [CampaignObject(c), performance]);
    Render(OptimizerTemplate(audienceKey), [CampaignObject(c), performance], fmt)
  }

  /** As written, the ticket-size line of the strategy prompt reads a property
      the company row does not have, so it says "undefined" for every company. */
  lemma StrategyTicketAsWritten(c: Company, fmt: NumberText)
    ensures HoleText(StrategyAsWritten.parts[TicketHole].hole, [CompanyObject(c)], fmt) == "undefined"
  {
    assert StrategyAsWritten.parts[TicketHole].hole == Prop(0, "ticketSize");
  }

  /** Hence, as written, the stored ticket size never reaches the prompt: two
      companies that differ only in it get the same prompt. */
  lemma StrategyIgnoresTicketSize(c: Company, v: Value, fmt: NumberText)
    ensures StrategyText("ticketSize", c, fmt) == StrategyText("ticketSize", c.(ticketSize := v), fmt)
  {
    StrategyColumnChange("ticketSize", c, v, fmt);
    StrategyTextRenders("ticketSize", c, fmt);
    StrategyTextRenders("ticketSize", c.(ticketSize := v), fmt);
    TicketTexts(c, fmt);
    TicketTexts(c.(ticketSize := v), fmt);
  }

  /** Reading the stored column, the ticket-size line shows the company's ticket size. */
  lemma StrategyTicketCorrected(c: Company, fmt: NumberText)
    ensures HoleText(StrategyPrompt.parts[TicketHole].hole, [CompanyObject(c)], fmt) == Interpolate(c.ticketSize, fmt)
  {
    assert StrategyPrompt.parts[TicketHole].hole == Prop(0, "ticket_size");
    LastValueAt(CompanyObject(c).fields, 5, "ticket_size");
  }

  /** As written, the pain-points line of the outreach prompt says "undefined"
      for every stored lead. */
  lemma OutreachPainAsWritten(channel: string, l: Lead, strategy: string, fmt: NumberText)
    ensures HoleText(OutreachAsWritten.parts[PainHole].hole, [Str(channel), LeadObject(l), Str(strategy)], fmt) == "undefined"
  {
    assert OutreachAsWritten.parts[PainHole].hole == Prop(1, "painPoints");
  }

  /** Reading the stored column, the pain-points line shows the lead's pain
      points ("null" when the column is empty). */
  lemma OutreachPainCorrected(channel: string, l: Lead, strategy: string, fmt: NumberText)
    ensures HoleText(OutreachPrompt.parts[PainHole].hole, [Str(channel), LeadObject(l), Str(strategy)], fmt)
      == if l.painPoints.Some? then l.painPoints.value else "null"
  {
    assert OutreachPrompt.parts[PainHole].hole == Prop(1, "pain_points");
    LastValueAt(LeadObject(l).fields, 9, "pain_points");
  }

  /** As written, the target-audience line of the optimizer prompt says
      "undefined" for every stored campaign. */
  lemma OptimizerAudienceAsWritten(c: Campaign, performance: Value, fmt: NumberText)
    requires performance.Obj?
    ensures HoleText(OptimizerAsWritten.parts[AudienceHole].hole, [CampaignObject(c), performance], fmt) == "undefined"
  {
    assert OptimizerAsWritten.parts[AudienceHole].hole == Prop(0, "targetAudience");
  }

  /** Reading the stored column, the target-audience line shows the campaign's audience. */
  lemma OptimizerAudienceCorrected(c: Campaign, performance: Value, fmt: NumberText)
    requires performance.Obj?
    ensures HoleText(OptimizerPrompt.parts[AudienceHole].hole, [CampaignObject(c), performance], fmt)
      == if c.targetAudience.Some? then c.targetAudience.value else "null"
  {
    assert OptimizerPrompt.parts[AudienceHole].hole == Prop(0, "target_audience");
    LastValueAt(CampaignObject(c).fields, 5, "target_audience");
  }

  // ---------------------------------------------------------------------
  // As written against the stored column names

  /** `args` with field `i` of object argument `a` replaced by `f`. */
  function Updated(args: seq<Value>, a: nat, i: nat, f: Field): (r: seq<Value>)
    requires a < |args| && args[a].Obj? && i < |args[a].fields|
    ensures |r| == |args| && r[a].Obj? && forall b :: 0 <= b < |args| && b != a ==> r[b] == args[b]
  {
    args[a := Obj(args[a].fields[i := f])]
  }

  /** A hole that neither prints argument `a` whole nor reads its property `k`. */
  predicate Untouched(h: Hole, a: nat, k: string) {
    h != Prop(a, k) && h != Whole(a)
  }

  /** Replacing one field of an argument changes nothing a hole reads unless
      the hole reads that field. */
  lemma HoleTextUpdated(h: Hole, args: seq<Value>, a: nat, i: nat, f: Field, fmt: NumberText)
    requires Fits(h, args) && a < |args| && args[a].Obj? && i < |args[a].fields| && f.key == args[a].fields[i].key
    requires Untouched(h, a, f.key)
    ensures Fits(h, Updated(args, a, i, f)) && HoleText(h, args, fmt) == HoleText(h, Updated(args, a, i, f), fmt)
  {
    if h.Prop? && h.arg == a {
      LastValueUpdate(args[a].fields, i, f, h.key);
    }
  }

  /** When every hole but `n` leaves the replaced field alone, the prompt
      changes exactly when hole `n`'s text does. */
  lemma RenderUpdated(t: Template, args: seq<Value>, a: nat, i: nat, f: Field, n: nat, fmt: NumberText)
    requires AllFit(t.parts, args) && n < |t.parts|
    requires a < |args| && args[a].Obj? && i < |args[a].fields| && f.key == args[a].fields[i].key
    requires Fits(t.parts[n].hole, Updated(args, a, i, f))
    requires forall j :: 0 <= j < |t.parts| && j != n ==> Untouched(t.parts[j].hole, a, f.key)
    ensures AllFit(t.parts, Updated(args, a, i, f))
    ensures Render(t, args, fmt) == Render(t, Updated(args, a, i, f), fmt)
        <==> HoleText(t.parts[n].hole, args, fmt) == HoleText(t.parts[n].hole, Updated(args, a, i, f), fmt)
  {
    var args' := Updated(args, a, i, f);
    forall j | 0 <= j < |t.parts| && j != n
      ensures Fits(t.parts[j].hole, args') && HoleText(t.parts[j].hole, args, fmt) == HoleText(t.parts[j].hole, args', fmt)
    {
      HoleTextUpdated(t.parts[j].hole, args, a, i, f, fmt);
    }
    RenderReadsHole(t, t, args, args', n, fmt);
  }

  /** What each line prints from a stored row: the property the source names,
      which the row object does not have, or the stored column. */
  lemma TicketTexts(c: Company, fmt: NumberText)
    ensures PropText(CompanyObject(c), "ticketSize", fmt) == "undefined"
    ensures PropText(CompanyObject(c), "ticket_size", fmt) == Interpolate(c.ticketSize, fmt)
  {
    LastValueAt(CompanyObject(c).fields, 5, "ticket_size");
  }

  lemma PainTexts(l: Lead, fmt: NumberText)
    ensures PropText(LeadObject(l), "painPoints", fmt) == "undefined"
    ensures PropText(LeadObject(l), "pain_points", fmt) == if l.painPoints.Some? then l.painPoints.value else "null"
  {
    var f := LeadObject(l).fields;
    assert forall i :: 0 <= i < |f| ==> f[i].key != "painPoints";
    PainColumnText(l, fmt);
  }

  lemma PainColumnText(l: Lead, fmt: NumberText)
    ensures PropText(LeadObject(l), "pain_points", fmt) == if l.painPoints.Some? then l.painPoints.value else "null"
  {
    LastValueAt(LeadObject(l).fields, 9, "pain_points");
  }

  lemma AudienceTexts(c: Campaign, fmt: NumberText)
    ensures PropText(CampaignObject(c), "targetAudience", fmt) == "undefined"
    ensures PropText(CampaignObject(c), "target_audience", fmt)
         == if c.targetAudience.Some? then c.targetAudience.value else "null"
  {
    var f := CampaignObject(c).fields;
    assert forall i :: 0 <= i < |f| ==> f[i].key != "targetAudience";
    AudienceColumnText(c, fmt);
  }

  lemma AudienceColumnText(c: Campaign, fmt: NumberText)
    ensures PropText(CampaignObject(c), "target_audience", fmt)
         == if c.targetAudience.Some? then c.targetAudience.value else "null"
  {
    LastValueAt(CampaignObject(c).fields, 5, "target_audience");
  }

  /** The prompts the routes send are their templates rendered. */
  lemma StrategyTextRenders(k: string, c: Company, fmt: NumberText)
    ensures AllFit(StrategyTemplate(k).parts, [CompanyObject(c)])
    ensures StrategyText(k, c, fmt) == Render(StrategyTemplate(k), [CompanyObject(c)], fmt)
  {
    StrategyKeyChange(k, k, [CompanyObject(c)], fmt);
  }

  lemma OutreachTextRenders(k: string, channel: string, l: Lead, strategy: string, fmt: NumberText)
    ensures AllFit(OutreachTemplate(k).parts, [Str(channel), LeadObject(l), Str(strategy)])
    ensures OutreachText(k, channel, l, strategy, fmt) == Render(OutreachTemplate(k), [Str(channel), LeadObject(l), Str(strategy)], fmt)
  {
    OutreachKeyChange(k, k, [Str(channel), LeadObject(l), Str(strategy)], fmt);
  }

  lemma OptimizerTextRenders(k: string, c: Campaign, performance: Value, fmt: NumberText)
    requires performance.Obj?
    ensures AllFit(OptimizerTemplate(k).parts, [CampaignObject(c), performance])
    ensures OptimizerText(k, c, performance, fmt) == Render(OptimizerTemplate(k), [CampaignObject(c), performance], fmt)
  {
    OptimizerKeyChange(k, k, [CampaignObject(c), performance], fmt);
  }

  /** Two strategy prompts that read the ticket size under different keys
      differ exactly when the two reads print differently. */
  lemma StrategyKeyChange(k: string, k': string, args: seq<Value>, fmt: NumberText)
    requires |args| == 1 && args[0].Obj?
    ensures AllFit(StrategyTemplate(k).parts, args) && AllFit(StrategyTemplate(k').parts, args)
    ensures Render(StrategyTemplate(k), args, fmt) == Render(StrategyTemplate(k'), args, fmt)
        <==> PropText(args[0], k, fmt) == PropText(args[0], k', fmt)
  {
    var t, t' := StrategyTemplate(k), StrategyTemplate(k');
    assert forall j :: 0 <= j < |t.parts| && j != TicketHole ==> t.parts[j] == t'.parts[j];
    assert t.parts[TicketHole].hole == Prop(0, k) && t'.parts[TicketHole].hole == Prop(0, k');
    RenderReadsHole(t, t', args, args, TicketHole, fmt);
  }

  /** The same for the pain-points key of the outreach prompt. */
  lemma OutreachKeyChange(k: string, k': string, args: seq<Value>, fmt: NumberText)
    requires |args| == 3 && args[1].Obj?
    ensures AllFit(OutreachTemplate(k).parts, args) && AllFit(OutreachTemplate(k').parts, args)
    ensures Render(OutreachTemplate(k), args, fmt) == Render(OutreachTemplate(k'), args, fmt)
        <==> PropText(args[1], k, fmt) == PropText(args[1], k', fmt)
  {
    var t, t' := OutreachTemplate(k), OutreachTemplate(k');
    assert forall j :: 0 <= j < |t.parts| && j != PainHole ==> t.parts[j] == t'.parts[j];
    assert t.parts[PainHole].hole == Prop(1, k) && t'.parts[PainHole].hole == Prop(1, k');
    RenderReadsHole(t, t', args, args, PainHole, fmt);
  }

  /** The same for the target-audience key of the optimizer prompt. */
  lemma OptimizerKeyChange(k: string, k': string, args: seq<Value>, fmt: NumberText)
    requires |args| == 2 && args[0].Obj? && args[1].Obj?
    ensures AllFit(OptimizerTemplate(k).parts, args) && AllFit(OptimizerTemplate(k').parts, args)
    ensures Render(OptimizerTemplate(k), args, fmt) == Render(OptimizerTemplate(k'), args, fmt)
        <==> PropText(args[0], k, fmt) == PropText(args[0], k', fmt)
  {
    var t, t' := OptimizerTemplate(k), OptimizerTemplate(k');
    assert forall j :: 0 <= j < |t.parts| && j != AudienceHole ==> t.parts[j] == t'.parts[j];
    assert t.parts[AudienceHole].hole == Prop(0, k) && t'.parts[AudienceHole].hole == Prop(0, k');
    RenderReadsHole(t, t', args, args, AudienceHole, fmt);
  }

  /** The as-written strategy prompt is the corrected one exactly when the
      company's ticket size itself prints as "undefined". */
  lemma StrategyAsWrittenVsCorrected(c: Company, fmt: NumberText)
    ensures StrategyText("ticketSize", c, fmt) == StrategyText("ticket_size", c, fmt)
        <==> Interpolate(c.ticketSize, fmt) == "undefined"
  {
    StrategyKeyChange("ticketSize", "ticket_size", [CompanyObject(c)], fmt);
    StrategyTextRenders("ticketSize", c, fmt);
    StrategyTextRenders("ticket_size", c, fmt);
    TicketTexts(c, fmt);
  }

  /** A company with another ticket size is its object with the `ticket_size` field replaced. */
  lemma CompanyUpdated(c: Company, v: Value)
    ensures [CompanyObject(c.(ticketSize := v))] == Updated([CompanyObject(c)], 0, 5, Field("ticket_size", v))
  {
    assert CompanyObject(c.(ticketSize := v)).fields == CompanyObject(c).fields[5 := Field("ticket_size", v)];
  }

  /** Only the ticket-size hole of a strategy prompt may read `ticket_size`. */
  lemma StrategyHolesUntouched(ticketKey: string)
    ensures forall j :: 0 <= j < |StrategyTemplate(ticketKey).parts| && j != TicketHole ==>
      Untouched(StrategyTemplate(ticketKey).parts[j].hole, 0, "ticket_size")
  {
  }

  /** Whatever property the ticket-size line reads, changing the stored ticket
      size changes the rendered strategy prompt exactly when it changes that line. */
  lemma StrategyColumnChange(ticketKey: string, c: Company, v: Value, fmt: NumberText)
    ensures AllFit(StrategyTemplate(ticketKey).parts, [CompanyObject(c)])
    ensures AllFit(StrategyTemplate(ticketKey).parts, [CompanyObject(c.(ticketSize := v))])
    ensures Render(StrategyTemplate(ticketKey), [CompanyObject(c.(ticketSize := v))], fmt)
         == Render(StrategyTemplate(ticketKey), [CompanyObject(c)], fmt)
        <==> PropText(CompanyObject(c.(ticketSize := v)), ticketKey, fmt) == PropText(CompanyObject(c), ticketKey, fmt)
  {
    var t := StrategyTemplate(ticketKey);
    CompanyUpdated(c, v);
    StrategyHolesUntouched(ticketKey);
    assert AllFit(t.parts, [CompanyObject(c)]);
    assert t.parts[TicketHole].hole == Prop(0, ticketKey);
    RenderUpdated(t, [CompanyObject(c)], 0, 5, Field("ticket_size", v), TicketHole, fmt);
  }

  /** The corrected strategy prompt reads the ticket size: changing it alone
      changes the prompt exactly when its printed text changes. */
  lemma StrategyCorrectedReadsTicketSize(c: Company, v: Value, fmt: NumberText)
    ensures StrategyText("ticket_size", c.(ticketSize := v), fmt) == StrategyText("ticket_size", c, fmt)
        <==> Interpolate(v, fmt) == Interpolate(c.ticketSize, fmt)
  {
    StrategyColumnChange("ticket_size", c, v, fmt);
    StrategyTextRenders("ticket_size", c, fmt);
    StrategyTextRenders("ticket_size", c.(ticketSize := v), fmt);
    TicketTexts(c, fmt);
    TicketTexts(c.(ticketSize := v), fmt);
  }

  /** A lead with other pain points is its object with the `pain_points` field replaced. */
  lemma LeadUpdated(channel: string, l: Lead, strategy: string, v: Option<string>)
    ensures [Str(channel), LeadObject(l.(painPoints := v)), Str(strategy)]
         == Updated([Str(channel), LeadObject(l), Str(strategy)], 1, 9, Field("pain_points", Text(v)))
  {
    assert LeadObject(l.(painPoints := v)).fields == LeadObject(l).fields[9 := Field("pain_points", Text(v))];
  }

  /** Only the pain-points hole of an outreach prompt may read `pain_points`. */
  lemma OutreachHolesUntouched(painKey: string)
    ensures forall j :: 0 <= j < |OutreachTemplate(painKey).parts| && j != PainHole ==>
      Untouched(OutreachTemplate(painKey).parts[j].hole, 1, "pain_points")
  {
  }

  /** The as-written outreach prompt is the corrected one exactly when the
      lead's pain points are the text "undefined". */
  lemma OutreachAsWrittenVsCorrected(channel: string, l: Lead, strategy: string, fmt: NumberText)
    ensures OutreachText("painPoints", channel, l, strategy, fmt) == OutreachText("pain_points", channel, l, strategy, fmt)
        <==> l.painPoints == Some("undefined")
  {
    OutreachKeyChange("painPoints", "pain_points", [Str(channel), LeadObject(l), Str(strategy)], fmt);
    OutreachTextRenders("painPoints", channel, l, strategy, fmt);
    OutreachTextRenders("pain_points", channel, l, strategy, fmt);
    PainTexts(l, fmt);
  }

  /** Whatever property the pain-points line reads, changing the stored pain
      points changes the rendered outreach prompt exactly when it changes that line. */
  lemma OutreachColumnChange(painKey: string, channel: string, l: Lead, strategy: string, v: Option<string>,
                             fmt: NumberText)
    ensures AllFit(OutreachTemplate(painKey).parts, [Str(channel), LeadObject(l), Str(strategy)])
    ensures AllFit(OutreachTemplate(painKey).parts, [Str(channel), LeadObject(l.(painPoints := v)), Str(strategy)])
    ensures Render(OutreachTemplate(painKey), [Str(channel), LeadObject(l.(painPoints := v)), Str(strategy)], fmt)
         == Render(OutreachTemplate(painKey), [Str(channel), LeadObject(l), Str(strategy)], fmt)
        <==> PropText(LeadObject(l.(painPoints := v)), painKey, fmt) == PropText(LeadObject(l), painKey, fmt)
  {
    var t := OutreachTemplate(painKey);
    var args := [Str(channel), LeadObject(l), Str(strategy)];
    LeadUpdated(channel, l, strategy, v);
    OutreachHolesUntouched(painKey);
    assert AllFit(t.parts, args);
    assert t.parts[PainHole].hole == Prop(1, painKey);
    RenderUpdated(t, args, 1, 9, Field("pain_points", Text(v)), PainHole, fmt);
  }

  /** As written, the lead's pain points never reach the outreach prompt. */
  lemma OutreachIgnoresPainPoints(channel: string, l: Lead, strategy: string, v: Option<string>, fmt: NumberText)
    ensures OutreachText("painPoints", channel, l.(painPoints := v), strategy, fmt)
         == OutreachText("painPoints", channel, l, strategy, fmt)
  {
    OutreachColumnChange("painPoints", channel, l, strategy, v, fmt);
    OutreachTextRenders("painPoints", channel, l, strategy, fmt);
    OutreachTextRenders("painPoints", channel, l.(painPoints := v), strategy, fmt);
    PainTexts(l, fmt);
    PainTexts(l.(painPoints := v), fmt);
  }

  /** The corrected outreach prompt reads the pain points: changing them alone
      changes the prompt exactly when their printed text changes. */
  lemma OutreachCorrectedReadsPainPoints(channel: string, l: Lead, strategy: string, v: Option<string>, fmt: NumberText)
    ensures OutreachText("pain_points", channel, l.(painPoints := v), strategy, fmt)
         == OutreachText("pain_points", channel, l, strategy, fmt)
        <==> (if v.Some? then v.value else "null") == (if l.painPoints.Some? then l.painPoints.value else "null")
  {
    OutreachColumnChange("pain_points", channel, l, strategy, v, fmt);
    OutreachTextRenders("pain_points", channel, l, strategy, fmt);
    OutreachTextRenders("pain_points", channel, l.(painPoints := v), strategy, fmt);
    PainTexts(l, fmt);
    PainTexts(l.(painPoints := v), fmt);
  }

  /** A campaign with another target audience is its object with the
      `target_audience` field replaced. */
  lemma CampaignUpdated(c: Campaign, performance: Value, v: Option<string>)
    requires performance.Obj?
    ensures [CampaignObject(c.(targetAudience := v)), performance]
         == Updated([CampaignObject(c), performance], 0, 5, Field("target_audience", Text(v)))
  {
    assert CampaignObject(c.(targetAudience := v)).fields == CampaignObject(c).fields[5 := Field("target_audience", Text(v))];
  }

  /** Only the target-audience hole of an optimizer prompt may read `target_audience`. */
  lemma OptimizerHolesUntouched(audienceKey: string)
    ensures forall j :: 0 <= j < |OptimizerTemplate(audienceKey).parts| && j != AudienceHole ==>
      Untouched(OptimizerTemplate(audienceKey).parts[j].hole, 0, "target_audience")
  {
  }

  /** The as-written optimizer prompt is the corrected one exactly when the
      campaign's target audience is the text "undefined". */
  lemma OptimizerAsWrittenVsCorrected(c: Campaign, performance: Value, fmt: NumberText)
    requires performance.Obj?
    ensures OptimizerText("targetAudience", c, performance, fmt) == OptimizerText("target_audience", c, performance, fmt)
        <==> c.targetAudience == Some("undefined")
  {
    OptimizerKeyChange("targetAudience", "target_audience", [CampaignObject(c), performance], fmt);
    OptimizerTextRenders("targetAudience", c, performance, fmt);
    OptimizerTextRenders("target_audience", c, performance, fmt);
    AudienceTexts(c, fmt);
  }

  /** Whatever property the target-audience line reads, changing the stored
      audience changes the rendered optimizer prompt exactly when it changes that line. */
  lemma OptimizerColumnChange(audienceKey: string, c: Campaign, performance: Value, v: Option<string>, fmt: NumberText)
    requires performance.Obj?
    ensures AllFit(OptimizerTemplate(audienceKey).parts, [CampaignObject(c), performance])
    ensures AllFit(OptimizerTemplate(audienceKey).parts, [CampaignObject(c.(targetAudience := v)), performance])
    ensures Render(OptimizerTemplate(audienceKey), [CampaignObject(c.(targetAudience := v)), performance], fmt)
         == Render(OptimizerTemplate(audienceKey), [CampaignObject(c), performance], fmt)
        <==> PropText(CampaignObject(c.(targetAudience := v)), audienceKey, fmt) == PropText(CampaignObject(c), audienceKey, fmt)
  {
    var t := OptimizerTemplate(audienceKey);
    var args := [CampaignObject(c), performance];
    CampaignUpdated(c, performance, v);
    OptimizerHolesUntouched(audienceKey);
    assert AllFit(t.parts, args);
    assert t.parts[AudienceHole].hole == Prop(0, audienceKey);
    RenderUpdated(t, args, 0, 5, Field("target_audience", Text(v)), AudienceHole, fmt);
  }

  /** As written, the campaign's target audience never reaches the optimizer prompt. */
  lemma OptimizerIgnoresAudience(c: Campaign, performance: Value, v: Option<string>, fmt: NumberText)
    requires performance.Obj?
    ensures OptimizerText("targetAudience", c.(targetAudience := v), performance, fmt)
         == OptimizerText("targetAudience", c, performance, fmt)
  {
    OptimizerColumnChange("targetAudience", c, performance, v, fmt);
    OptimizerTextRenders("targetAudience", c, performance, fmt);
    OptimizerTextRenders("targetAudience", c.(targetAudience := v), performance, fmt);
    AudienceTexts(c, fmt);
    AudienceTexts(c.(targetAudience := v), fmt);
  }

  /** The corrected optimizer prompt reads the target audience: changing it
      alone changes the prompt exactly when its printed text changes. */
  lemma OptimizerCorrectedReadsAudience(c: Campaign, performance: Value, v: Option<string>, fmt: NumberText)
    requires performance.Obj?
    ensures OptimizerText("target_audience", c.(targetAudience := v), performance, fmt)
         == OptimizerText("target_audience", c, performance, fmt)
        <==> (if v.Some? then v.value else "null") == (if c.targetAudience.Some? then c.targetAudience.value else "null")
  {
    OptimizerColumnChange("target_audience", c, performance, v, fmt);
    OptimizerTextRenders("target_audience", c, performance, fmt);
    OptimizerTextRenders("target_audience", c.(targetAudience := v), performance, fmt);
    AudienceTexts(c, fmt);
    AudienceTexts(c.(targetAudience := v), fmt);
  }
}
