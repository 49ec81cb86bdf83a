/** The content page: the campaign list with its badges and channel filter,
    the detail view's buttons, and the generation form. */
module ContentView {
  import opened Js
  import opened Seqs
  import opened Db
  import opened View
  import opened Effects
  import ContentRoutes

  /** `getStatusBadge` of the content page. */
  function StatusBadge(status: string): (b: Badge)
    ensures b.text == Capitalize(status)
  {
    var cls := match status
      case "draft" => "bg-secondary"
      case "active" => "bg-success"
      case "paused" => "bg-warning"
      case "completed" => "bg-info"
      case _ => "bg-secondary";
    Badge(cls, Capitalize(status))
  }

  /** The four campaign states have four different classes; a status outside
      them looks like a draft. */
  lemma StatusBadgesDistinguish(s1: string, s2: string)
    ensures s1 in ContentRoutes.CampaignStatuses && s2 in ContentRoutes.CampaignStatuses && s1 != s2
            ==> StatusBadge(s1).cls != StatusBadge(s2).cls
    ensures s1 !in ContentRoutes.CampaignStatuses ==> StatusBadge(s1).cls == StatusBadge("draft").cls
  {
  }

  /** `getChannelBadge`. */
  function ChannelBadge(channel: string): (b: Badge)
    ensures b.text == Capitalize(channel)
  {
    var cls := match channel
      case "email" => "channel-email"
      case "linkedin" => "channel-linkedin"
      case "sms" => "channel-sms"
      case "ads" => "channel-ads"
      case _ => "";
    Badge(cls, Capitalize(channel))
  }

  const BadgedChannels: set<string> := {"email", "linkedin", "sms", "ads"}

  /** A styled channel badge is `channel-<channel>`; every channel with
      canned templates has one, and "ads" has one without templates. */
  lemma ChannelBadgeClass(channel: string)
    ensures ChannelBadge(channel).cls == if channel in BadgedChannels then "channel-" + channel else ""
    ensures ContentRoutes.OwnTemplates(channel).Some? ==> channel in BadgedChannels
    ensures ContentRoutes.OwnTemplates("ads").None?
  {
  }

  /** `filterCampaigns`: an empty channel shows every campaign. */
  function FilterCampaigns(campaigns: seq<Campaign>, channel: string): (r: seq<Campaign>)
    ensures channel == "" ==> r == campaigns
    ensures forall c :: c in r <==> c in campaigns && (channel == "" || c.channel == channel)
  {
    FilterMembers(campaigns, (c: Campaign) => c.channel == channel);
    if channel != "" then Filter(campaigns, (c: Campaign) => c.channel == channel) else campaigns
  }

  /** Filtering the company's campaigns in the browser gives what the server
      returns for the same channel, in the same order. */
  lemma ClientFilterMatchesServer(st: Store, companyId: string, channel: string)
    ensures FilterCampaigns(ContentRoutes.ListCampaigns(st, companyId, None, None).data, channel)
         == ContentRoutes.ListCampaigns(st, companyId, Some(channel), None).data
  {
    var all := ContentRoutes.CampaignMatches(companyId, None);
    var same := ContentRoutes.CampaignMatches(companyId, Some(channel));
    if channel != "" {
      FilterFilter(st.campaigns, all, (c: Campaign) => c.channel == channel, same);
    } else {
      FilterSame(st.campaigns, all, same);
    }
  }

  // ---------------------------------------------------------------------
  // detail view

  datatype Button = Activate | Edit

  /** The footer buttons of `displayCampaignDetails`. */
  function DetailButtons(c: Campaign): (bs: seq<Button>)
    ensures Edit in bs
    ensures Activate in bs <==> c.status == "draft"
  {
    (if c.status == "draft" then [Activate] else []) + [Edit]
  }

  /** Activating sends "active", which the server accepts; the row it returns
      no longer offers the button. */
  lemma ActivateAccepted(st: Store, c: Campaign, now: int)
    requires c in st.campaigns && Activate in DetailButtons(c)
    ensures var o := ContentRoutes.UpdateCampaignStatus(st, c.id, Some("active"), now, None);
      && o.reply.Ok? && o.reply.data.Some?
      && Activate !in DetailButtons(o.reply.data.value)
  {
    var f := ContentRoutes.SetCampaignStatus("active", now);
    var updated := Replace(st.campaigns, CampaignIdIs(c.id), f);
    var k :| 0 <= k < |st.campaigns| && st.campaigns[k] == c;
    assert updated[k] in updated;
    FilterMembers(updated, CampaignIdIs(c.id));
    var rows := Filter(updated, CampaignIdIs(c.id));
    assert updated[k] in rows;
    assert rows[0] in updated;
    var j :| 0 <= j < |updated| && updated[j] == rows[0];
    assert rows[0].status == "active";
  }

  // ---------------------------------------------------------------------
  // generation form

  /** `handleContentGeneration`: no request without both a lead and a
      channel; otherwise the body names the page's company and user. */
  function GenerationRequest(companyId: Option<string>, leadId: string, channel: string, userId: Option<string>)
    : (r: Option<ContentRoutes.GenerateBody>)
    ensures r.None? <==> leadId == "" || channel == ""
    ensures r.Some? ==> r.value.leadId == Some(leadId) && r.value.channel == Some(channel)
                        && r.value.companyId == companyId && r.value.userId == userId
  {
    if leadId == "" || channel == "" then None
    else Some(ContentRoutes.GenerateBody(companyId, Some(leadId), Some(channel), userId))
  }

  /** A request the form sends is never answered 400 when the page knows its
      company; without a company it always is. */
  lemma FormPassesValidation(companyId: Option<string>, leadId: string, channel: string, userId: Option<string>,
                             st: Store, leadFault: Option<DbError>, strategyFault: Option<DbError>,
                             agent: AgentReply, ins: Insert, delivered: bool, now: int)
    requires GenerationRequest(companyId, leadId, channel, userId).Some?
    ensures var o := ContentRoutes.Generate(st, GenerationRequest(companyId, leadId, channel, userId).value,
                                            leadFault, strategyFault, agent, ins, delivered, now);
      (o.reply.Fail? && o.reply.status == 400) <==> !Filled(companyId)
  {
    var b := GenerationRequest(companyId, leadId, channel, userId).value;
    if Filled(companyId) && leadFault.None? && Filter(st.leads, LeadIdIs(leadId)) != [] {
      var l := Filter(st.leads, LeadIdIs(leadId))[0];
      assert ContentRoutes.Generate(st, b, leadFault, strategyFault, agent, ins, delivered, now)
          == ContentRoutes.Outreach(st, companyId.value, l, channel, userId, strategyFault, agent, ins, delivered, now);
    }
  }

  /** A freshly generated campaign is a draft, so its detail view offers
      Activate. */
  lemma GeneratedCampaignCanBeActivated(st: Store, b: ContentRoutes.GenerateBody, agent: AgentReply, ins: Insert,
                                        delivered: bool, now: int)
    ensures var o := ContentRoutes.Generate(st, b, None, None, agent, ins, delivered, now);
      o.reply.Ok? ==> Activate in DetailButtons(o.reply.data)
  {
    var o := ContentRoutes.Generate(st, b, None, None, agent, ins, delivered, now);
    if o.reply.Ok? {
      ContentRoutes.GenerateSucceedsExactly(st, b, None, None, agent, ins, delivered, now);
      var l := Filter(st.leads, LeadIdIs(b.leadId.value))[0];
      var s := ContentRoutes.Latest(Filter(st.strategies, ContentRoutes.ActiveFor(b.companyId.value))).value;
      var asked := [Completion(Effects.Outreach(b.channel.value, l, s.content))];
      assert o == ContentRoutes.SaveDraft(st, b.companyId.value, s, l, b.channel.value, b.userId, asked,
                                          Trim(agent.text), ins, delivered, now);
    }
  }
}
