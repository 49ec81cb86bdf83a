/** The content router: generating outreach content for a lead as a draft
    campaign, reading, listing and updating campaigns, and the canned
    templates per channel. */
module ContentRoutes {
  import opened Js
  import opened Seqs
  import opened Db
  import opened Agents
  import opened Effects

  // ---------------------------------------------------------------------
  // POST /generate

  /** The request body of `POST /generate`. */
  datatype GenerateBody = GenerateBody(
    companyId: Option<string>, leadId: Option<string>, channel: Option<string>, userId: Option<string>)

  predicate GenerateComplete(b: GenerateBody) {
    Filled(b.companyId) && Filled(b.leadId) && Filled(b.channel)
  }

  /** The error code the database client reports when `.single()` found no row. */
  const NoRows: string := "PGRST116"

  /** `.eq('company_id', ...).eq('status', 'active')`. */
  function ActiveFor(companyId: string): Strategy -> bool {
    (s: Strategy) => s.companyId == Some(companyId) && s.status == "active"
  }

  /** `.order('created_at', { ascending: false }).limit(1)`: a row created
      last, the earliest in table order among equals. */
  function Latest(rows: seq<Strategy>): (r: Option<Strategy>)
    ensures r.None? <==> |rows| == 0
    ensures r.Some? ==> r.value in rows && forall x :: x in rows ==> x.createdAt <= r.value.createdAt
  {
    if |rows| == 0 then None
    else match Latest(rows[1..])
      case None => Some(rows[0])
      case Some(b) => if rows[0].createdAt >= b.createdAt then Some(rows[0]) else Some(b)
  }

  /** The campaign name: the channel with its first letter upper-cased, then
      " outreach to " and the lead's name. */
  function CampaignName(channel: string, leadName: string): string {
    Capitalize(channel) + " outreach to " + leadName
  }

  /** The draft campaign saved for the generated content. */
  function DraftCampaign(id: string, companyId: string, s: Strategy, l: Lead, channel: string, content: string, now: int): Campaign {
    Campaign(id, Some(companyId), Some(s.id), CampaignName(channel, l.name), channel, Some(l.name),
             Some(content), "draft", now, now)
  }

  /** The notification announcing generated content, linking to its campaign. */
  function ContentNote(userId: Option<string>, channel: string, l: Lead, campaignId: string): Call {
    Notify(userId, "Content Generated", "New " + channel + " content has been generated for " + l.name,
           "/campaigns/" + campaignId)
  }

  /** The last steps once the content is written: the campaign insert, then
      the best-effort notification. */
  function SaveDraft(st: Store, companyId: string, s: Strategy, l: Lead, channel: string, userId: Option<string>,
                     asked: seq<Call>, content: string, ins: Insert, delivered: bool, now: int): (o: Outcome<Campaign>)
    ensures ins.InsertFailed? ==> o == Outcome(Fail(500, ins.err.message), st, asked, false)
    ensures ins.Inserted? ==>
      var c := DraftCampaign(ins.id, companyId, s, l, channel, content, now);
      o == Outcome(Ok(201, Some("Content generated successfully"), c), st.(campaigns := st.campaigns + [c]),
                   asked + [ContentNote(userId, channel, l, ins.id)], !delivered)
  {
    match ins
    case InsertFailed(e) => Outcome(Fail(500, e.message), st, asked, false)
    case Inserted(id) =>
      var c := DraftCampaign(id, companyId, s, l, channel, content, now);
      Outcome(Ok(201, Some("Content generated successfully"), c), st.(campaigns := st.campaigns + [c]),
              asked + [ContentNote(userId, channel, l, id)], !delivered)
  }

  /** From the strategy read on: a fault other than "no rows" is a 500, no
      active strategy a 404; otherwise the Outreach Creator is asked with the
      strategy's text, and a failed completion ends in the route's catch. */
  function Outreach(st: Store, companyId: string, l: Lead, channel: string, userId: Option<string>,
                    strategyFault: Option<DbError>, agent: AgentReply, ins: Insert, delivered: bool, now: int): (o: Outcome<Campaign>)
    ensures strategyFault.Some? && strategyFault.value.code != NoRows ==> o == Refuse(st, 500, strategyFault.value.message)
    ensures strategyFault.Some? && strategyFault.value.code == NoRows ==>
      o == Refuse(st, 404, "No active strategy found for this company")
    ensures strategyFault.None? && Filter(st.strategies, ActiveFor(companyId)) == [] ==>
      o == Refuse(st, 404, "No active strategy found for this company")
    ensures strategyFault.None? && Filter(st.strategies, ActiveFor(companyId)) != [] ==>
      var s := Latest(Filter(st.strategies, ActiveFor(companyId))).value;
      var asked := [Completion(Effects.Outreach(channel, l, s.content))];
      && s in Filter(st.strategies, ActiveFor(companyId))
      && (agent.Raised? ==> o == Outcome(Fail(500, "Server error generating content"), st, asked, false))
      && (agent.Replied? ==> o == SaveDraft(st, companyId, s, l, channel, userId, asked, Trim(agent.text), ins, delivered, now))
  {
    match strategyFault
    case Some(e) =>
      if e.code != NoRows then Refuse(st, 500, e.message)
      else Refuse(st, 404, "No active strategy found for this company")
    case None =>
      match Latest(Filter(st.strategies, ActiveFor(companyId)))
      case None => Refuse(st, 404, "No active strategy found for this company")
      case Some(s) =>
        var asked := [Completion(Effects.Outreach(channel, l, s.content))];
        match agent
        case Raised(_) => Outcome(Fail(500, "Server error generating content"), st, asked, false)
        case Replied(_) => SaveDraft(st, companyId, s, l, channel, userId, asked, Complete(agent).text, ins, delivered, now)
  }

  /** `POST /generate`. */
  function Generate(st: Store, b: GenerateBody, leadFault: Option<DbError>, strategyFault: Option<DbError>,
                    agent: AgentReply, ins: Insert, delivered: bool, now: int): (o: Outcome<Campaign>)
    ensures !GenerateComplete(b) ==> o == Refuse(st, 400, "Missing required parameters")
    ensures GenerateComplete(b) && leadFault.Some? ==> o == Refuse(st, 500, leadFault.value.message)
    ensures GenerateComplete(b) && leadFault.None? && Filter(st.leads, LeadIdIs(b.leadId.value)) == [] ==>
      o == Refuse(st, 404, "Lead not found")
    ensures GenerateComplete(b) && leadFault.None? && Filter(st.leads, LeadIdIs(b.leadId.value)) != [] ==>
      var l := Filter(st.leads, LeadIdIs(b.leadId.value))[0];
      && l in st.leads && l.id == b.leadId.value
      && o == Outreach(st, b.companyId.value, l, b.channel.value, b.userId, strategyFault, agent, ins, delivered, now)
  {
    if !GenerateComplete(b) then Refuse(st, 400, "Missing required parameters")
    else match leadFault
      case Some(e) => Refuse(st, 500, e.message)
      case None =>
        var found := Filter(st.leads, LeadIdIs(b.leadId.value));
        if |found| == 0 then Refuse(st, 404, "Lead not found")
        else
          FilterMembers(st.leads, LeadIdIs(b.leadId.value));
          assert found[0] in found;
          Outreach(st, b.companyId.value, found[0], b.channel.value, b.userId, strategyFault, agent, ins, delivered, now)
  }

  /** A successful generation stores one draft campaign for the company, tied
      to the company's most recent active strategy, aimed at the lead, named
      after the channel and the lead, and holding the trimmed content. */
  lemma GenerateSavesDraft(st: Store, companyId: string, leadId: string, channel: string, userId: Option<string>,
                           text: string, id: string, delivered: bool, now: int)
    requires companyId != "" && leadId != "" && channel != ""
    requires Filter(st.leads, LeadIdIs(leadId)) != []
    requires Filter(st.strategies, ActiveFor(companyId)) != []
    ensures var o := Generate(st, GenerateBody(Some(companyId), Some(leadId), Some(channel), userId),
                              None, None, Replied(text), Inserted(id), delivered, now);
      && o.reply.Ok? && o.reply.status == 201
      && var c := o.reply.data;
      && o.store == st.(campaigns := st.campaigns + [c])
      && c.id == id && c.companyId == Some(companyId) && c.status == "draft" && c.channel == channel
      && c.content == Some(Trim(text))
      && (exists l :: l in st.leads && l.id == leadId && c.targetAudience == Some(l.name)
                      && c.name == Capitalize(channel) + " outreach to " + l.name)
      && (exists s :: s in st.strategies && s.companyId == Some(companyId) && s.status == "active"
                      && c.strategyId == Some(s.id)
                      && forall x :: x in st.strategies && x.companyId == Some(companyId) && x.status == "active"
                                     ==> x.createdAt <= s.createdAt)
      && o.warned == !delivered
  {
    var b := GenerateBody(Some(companyId), Some(leadId), Some(channel), userId);
    var l := Filter(st.leads, LeadIdIs(leadId))[0];
    var active := Filter(st.strategies, ActiveFor(companyId));
    var s := Latest(active).value;
    var asked := [Completion(Effects.Outreach(channel, l, s.content))];
    FilterMembers(st.strategies, ActiveFor(companyId));
    assert Generate(st, b, None, None, Replied(text), Inserted(id), delivered, now)
        == SaveDraft(st, companyId, s, l, channel, userId, asked, Trim(text), Inserted(id), delivered, now);
  }

  /** From the strategy read on, the route answers 201 exactly when an active
      strategy is found, the completion succeeds and the insert does; any
      other answer leaves the store as it was. */
  lemma OutreachSucceedsExactly(st: Store, companyId: string, l: Lead, channel: string, userId: Option<string>,
                                strategyFault: Option<DbError>, agent: AgentReply, ins: Insert, delivered: bool, now: int)
    ensures var o := Outreach(st, companyId, l, channel, userId, strategyFault, agent, ins, delivered, now);
      && (o.reply.Ok? <==> strategyFault.None? && Filter(st.strategies, ActiveFor(companyId)) != []
                           && agent.Replied? && ins.Inserted?)
      && (o.reply.Fail? ==> o.store == st && !o.warned)
  {
  }

  /** The route answers 201 exactly when the body is complete, the lead and an
      active strategy exist, the completion succeeds and the insert does; any
      other answer leaves the store as it was. */
  lemma GenerateSucceedsExactly(st: Store, b: GenerateBody, leadFault: Option<DbError>, strategyFault: Option<DbError>,
                                agent: AgentReply, ins: Insert, delivered: bool, now: int)
    ensures var o := Generate(st, b, leadFault, strategyFault, agent, ins, delivered, now);
      && (o.reply.Ok? <==> GenerateComplete(b) && leadFault.None? && Filter(st.leads, LeadIdIs(b.leadId.value)) != []
                           && strategyFault.None? && Filter(st.strategies, ActiveFor(b.companyId.value)) != []
                           && agent.Replied? && ins.Inserted?)
      && (o.reply.Fail? ==> o.store == st && !o.warned)
  {
    if GenerateComplete(b) && leadFault.None? && Filter(st.leads, LeadIdIs(b.leadId.value)) != [] {
      var l := Filter(st.leads, LeadIdIs(b.leadId.value))[0];
      OutreachSucceedsExactly(st, b.companyId.value, l, b.channel.value, b.userId, strategyFault, agent, ins, delivered, now);
    }
  }

  // ---------------------------------------------------------------------
  // GET /campaign/:id and GET /company/:company_id

  function GetCampaign(st: Store, id: string, fault: Option<DbError>): (r: Reply<Campaign>)
    ensures fault.Some? ==> r == Fail(500, fault.value.message)
    ensures fault.None? && Filter(st.campaigns, CampaignIdIs(id)) == [] ==> r == Fail(404, "Campaign not found")
    ensures fault.None? && Filter(st.campaigns, CampaignIdIs(id)) != [] ==> r == Ok(200, None, Filter(st.campaigns, CampaignIdIs(id))[0])
    ensures r.Ok? ==> r.status == 200 && r.data in st.campaigns && r.data.id == id
  {
    match fault
    case Some(e) => Fail(500, e.message)
    case None =>
      var found := Filter(st.campaigns, CampaignIdIs(id));
      if |found| == 0 then Fail(404, "Campaign not found")
      else
        FilterMembers(st.campaigns, CampaignIdIs(id));
        assert found[0] in found;
        Ok(200, None, found[0])
  }

  function CampaignMatches(companyId: string, channel: Option<string>): Campaign -> bool {
    (c: Campaign) => c.companyId == Some(companyId) && (!Filled(channel) || c.channel == channel.value)
  }

  /** The company's campaigns, narrowed to one channel when one is given. */
  function ListCampaigns(st: Store, companyId: string, channel: Option<string>, fault: Option<DbError>): (r: Reply<seq<Campaign>>)
    ensures fault.Some? ==> r == Fail(500, fault.value.message)
    ensures fault.None? ==> r.Ok? && r.status == 200
    ensures r.Ok? ==> r.data == Filter(st.campaigns, CampaignMatches(companyId, channel))
  {
    match fault
    case Some(e) => Fail(500, e.message)
    case None => Ok(200, None, Filter(st.campaigns, CampaignMatches(companyId, channel)))
  }

  /** A campaign is listed exactly when it is the company's and, if a channel
      was given, on that channel. */
  lemma ListCampaignsMembers(st: Store, companyId: string, channel: Option<string>)
    ensures var r := ListCampaigns(st, companyId, channel, None);
      forall c :: c in r.data <==>
        c in st.campaigns && c.companyId == Some(companyId) && (Filled(channel) ==> c.channel == channel.value)
  {
    FilterMembers(st.campaigns, CampaignMatches(companyId, channel));
  }

  // ---------------------------------------------------------------------
  // PUT /campaign/:id/status and PUT /campaign/:id/content

  const CampaignStatuses: set<string> := {"draft", "active", "paused", "completed"}

  function SetCampaignStatus(s: string, now: int): Campaign -> Campaign {
    (c: Campaign) => c.(status := s, updatedAt := now)
  }

  /** `PUT /campaign/:id/status`: only the four campaign states are accepted. */
  function UpdateCampaignStatus(st: Store, id: string, status: Option<string>, now: int, fault: Option<DbError>): (o: Outcome<Option<Campaign>>)
    ensures status.None? || status.value !in CampaignStatuses ==> o == Refuse(st, 400, "Invalid status value")
    ensures status.Some? && status.value in CampaignStatuses && fault.Some? ==> o == Refuse(st, 500, fault.value.message)
    ensures status.Some? && status.value in CampaignStatuses && fault.None? ==>
      var campaigns := Replace(st.campaigns, CampaignIdIs(id), SetCampaignStatus(status.value, now));
      o == Outcome(Ok(200, Some("Campaign status updated successfully"), First(Filter(campaigns, CampaignIdIs(id)))),
                   st.(campaigns := campaigns), [], false)
  {
    if status.None? || status.value !in CampaignStatuses then Refuse(st, 400, "Invalid status value")
    else match fault
      case Some(e) => Refuse(st, 500, e.message)
      case None =>
        var campaigns := Replace(st.campaigns, CampaignIdIs(id), SetCampaignStatus(status.value, now));
        Outcome(Ok(200, Some("Campaign status updated successfully"), First(Filter(campaigns, CampaignIdIs(id)))),
                st.(campaigns := campaigns), [], false)
  }

  /** The content update: new content, and a new name only when one is given. */
  function SetContent(content: string, name: Option<string>, now: int): Campaign -> Campaign {
    (c: Campaign) => c.(content := Some(content), name := if Filled(name) then name.value else c.name, updatedAt := now)
  }

  /** `PUT /campaign/:id/content`. */
  function UpdateContent(st: Store, id: string, content: Option<string>, name: Option<string>, now: int,
                         fault: Option<DbError>): (o: Outcome<Option<Campaign>>)
    ensures !Filled(content) ==> o == Refuse(st, 400, "Content is required")
    ensures Filled(content) && fault.Some? ==> o == Refuse(st, 500, fault.value.message)
    ensures Filled(content) && fault.None? ==>
      var campaigns := Replace(st.campaigns, CampaignIdIs(id), SetContent(content.value, name, now));
      o == Outcome(Ok(200, Some("Campaign content updated successfully"), First(Filter(campaigns, CampaignIdIs(id)))),
                   st.(campaigns := campaigns), [], false)
  {
    if !Filled(content) then Refuse(st, 400, "Content is required")
    else match fault
      case Some(e) => Refuse(st, 500, e.message)
      case None =>
        var campaigns := Replace(st.campaigns, CampaignIdIs(id), SetContent(content.value, name, now));
        Outcome(Ok(200, Some("Campaign content updated successfully"), First(Filter(campaigns, CampaignIdIs(id)))),
                st.(campaigns := campaigns), [], false)
  }

  /** A content update rewrites the content of the campaigns with the id and
      their name only when a non-empty one is given; their channel, status and
      strategy stay, and every other campaign is untouched. */
  lemma UpdateContentKeepsRest(st: Store, id: string, content: string, name: Option<string>, now: int, i: nat)
    requires content != "" && i < |st.campaigns|
    ensures var o := UpdateContent(st, id, Some(content), name, now, None);
      var before := st.campaigns[i];
      && o.store.(campaigns := st.campaigns) == st
      && |o.store.campaigns| == |st.campaigns|
      && var after := o.store.campaigns[i];
      && (before.id == id ==>
            && after.content == Some(content)
            && (after.name == if Filled(name) then name.value else before.name)
            && after.channel == before.channel && after.status == before.status
            && after.strategyId == before.strategyId && after.companyId == before.companyId)
      && (before.id != id ==> after == before)
  {
  }

  /** A status update changes only the status and `updated_at` of the
      campaigns with the id; applying it twice stores what applying it once
      does. */
  lemma UpdateCampaignStatusIdempotent(st: Store, id: string, s: string, now: int)
    requires s in CampaignStatuses
    ensures var once := UpdateCampaignStatus(st, id, Some(s), now, None);
      && UpdateCampaignStatus(once.store, id, Some(s), now, None).store == once.store
      && forall i :: 0 <= i < |st.campaigns| ==>
           once.store.campaigns[i] == if st.campaigns[i].id == id then st.campaigns[i].(status := s, updatedAt := now)
                                      else st.campaigns[i]
  {
    var f := SetCampaignStatus(s, now);
    var c1 := Replace(st.campaigns, CampaignIdIs(id), f);
    assert Replace(c1, CampaignIdIs(id), f) == c1;
  }

  // ---------------------------------------------------------------------
  // GET /templates/:channel

  /** One canned template, by id and name; its `template` text is
      `TemplateText(id)`, rendered into the reply by `TemplateObject`. */
  datatype ContentTemplate = ContentTemplate(id: string, name: string)

  /** The text of a canned template, by its id. */
  function TemplateText(id: string): string {
    match id
    case "email-1" =>
      "Subject: Solve [Pain Point] with [Solution]\n\nHi {{lead.name}},\n\n"
      + "I noticed that {{lead.company}} might be experiencing [specific pain point based on research].\n\n"
      + "At [Your Company], we've helped companies like {{lead.company}} achieve [specific result] by [brief solution description].\n\n"
      + "Would you be open to a quick 15-minute call to discuss how we might be able to help {{lead.company}} with [pain point]?\n\n"
      + "Best regards,\n[Your Name]"
    case "email-2" =>
      "Subject: [Specific Value] for {{lead.company}}\n\nHi {{lead.name}},\n\n"
      + "I'm reaching out because we've helped [similar companies] achieve [specific metric improvement] through our [product/service].\n\n"
      + "Given your role at {{lead.company}}, I thought you might be interested in how we could help you:\n\n"
      + "1. [Benefit 1]\n2. [Benefit 2]\n3. [Benefit 3]\n\n"
      + "I'd love to share some specific ideas for {{lead.company}}. Would you be available for a brief call next week?\n\n"
      + "Best regards,\n[Your Name]"
    case "linkedin-1" =>
      "Hi {{lead.name}},\n\n"
      + "I came across your profile and was impressed by your work at {{lead.company}}. I'd love to connect and learn more about your experience in [industry/role].\n\n"
      + "[Brief personalized note based on their profile]\n\nLooking forward to connecting!"
    case "linkedin-2" =>
      "Hi {{lead.name}},\n\nThanks for connecting! I noticed that {{lead.company}} is [observation from research].\n\n"
      + "At [Your Company], we specialize in helping companies like yours with [value proposition].\n\n"
      + "Would you be interested in a quick conversation about how we might be able to help {{lead.company}} with [specific challenge]?\n\n"
      + "Best regards,\n[Your Name]"
    case "sms-1" =>
      "Hi {{lead.name}}, this is [Your Name] from [Your Company]. We're hosting a webinar on [topic] that I thought "
      + "might interest you given your work at {{lead.company}}. Would you like me to send you the details?"
    case "sms-2" =>
      "Hi {{lead.name}}, just following up on our conversation about [topic]. I have some insights specific to "
      + "{{lead.company}} that I'd love to share. When would be a good time to connect?"
    case _ => ""
  }

  /** The object sent for one template. */
  function TemplateObject(t: ContentTemplate): Value {
    Obj([Field("id", Str(t.id)), Field("name", Str(t.name)), Field("template", Str(TemplateText(t.id)))])
  }

  /** The own properties of the `templates` object: two templates per channel. */
  function OwnTemplates(channel: string): Option<seq<ContentTemplate>> {
    match channel
    case "email" => Some([ContentTemplate("email-1", "Problem-Solution Email"), ContentTemplate("email-2", "Value Proposition Email")])
    case "linkedin" => Some([ContentTemplate("linkedin-1", "Connection Request"), ContentTemplate("linkedin-2", "Follow-up Message")])
    case "sms" => Some([ContentTemplate("sms-1", "Event Invitation"), ContentTemplate("sms-2", "Quick Follow-up")])
    case _ => None
  }

  /** The properties every object literal inherits from `Object.prototype`;
      each holds a function, or the prototype itself for `__proto__`, so each
      is truthy. */
  const InheritedKeys: set<string> := {
    "constructor", "hasOwnProperty", "isPrototypeOf", "propertyIsEnumerable", "toLocaleString",
    "toString", "valueOf", "__proto__", "__defineGetter__", "__defineSetter__",
    "__lookupGetter__", "__lookupSetter__"}

  /** What `templates[channel]` yields: a channel's templates, an inherited
      member, or `undefined`. `res.json` drops a function-valued member, so the
      reply has no data; for `__proto__` it serialises the prototype itself, an
      object without own enumerable properties, so the data is `{}`. */
  datatype Lookup = Listed(templates: seq<ContentTemplate>) | Inherited(key: string)

  /** `GET /templates/:channel` as written: `if (templates[channel])` also
      accepts the names of inherited members. */
  function TemplatesAsWritten(channel: string): (r: Reply<Lookup>)
    ensures r.Ok? ==> r.status == 200
  {
    match OwnTemplates(channel)
    case Some(ts) => Ok(200, None, Listed(ts))
    case None =>
      if channel in InheritedKeys then Ok(200, None, Inherited(channel))
      else Fail(404, "No templates found for this channel")
  }

  /** `GET /templates/:channel` reading own properties only. */
  function Templates(channel: string): (r: Reply<seq<ContentTemplate>>)
    ensures r.Ok? <==> OwnTemplates(channel).Some?
    ensures r.Ok? ==> r.status == 200 && r.data == OwnTemplates(channel).value
    ensures r.Fail? ==> r == Fail(404, "No templates found for this channel")
  {
    match OwnTemplates(channel)
    case Some(ts) => Ok(200, None, ts)
    case None => Fail(404, "No templates found for this channel")
  }

  /** As written, asking for the templates of channel "constructor" (or any
      other inherited name) answers 200 with no templates instead of 404. */
  lemma TemplatesInheritedAsWritten(channel: string)
    requires channel in InheritedKeys
    ensures TemplatesAsWritten(channel) == Ok(200, None, Inherited(channel))
    ensures Templates(channel) == Fail(404, "No templates found for this channel")
  {
    assert OwnTemplates(channel).None?;
  }

  /** On every channel that is not an inherited name the two agree. */
  lemma TemplatesAgreeElsewhere(channel: string)
    requires channel !in InheritedKeys
    ensures TemplatesAsWritten(channel).Ok? <==> Templates(channel).Ok?
    ensures Templates(channel).Ok? ==> TemplatesAsWritten(channel) == Ok(200, None, Listed(Templates(channel).data))
  {
  }

  /** Each channel with templates offers two, with ids `<channel>-1` and
      `<channel>-2`. */
  lemma TemplateIds(channel: string)
    requires OwnTemplates(channel).Some?
    ensures var ts := OwnTemplates(channel).value;
      |ts| == 2 && ts[0].id == channel + "-1" && ts[1].id == channel + "-2"
  {
  }
}
