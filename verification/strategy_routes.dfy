/** The strategy router: generating a go-to-market strategy for a company as
    a draft, reading and listing strategies, and updating their status or
    content. */
module StrategyRoutes {
  import opened Js
  import opened Seqs
  import opened Db
  import opened Agents
  import opened Effects

  // ---------------------------------------------------------------------
  // POST /generate

  /** The strategy title: the company name as a template literal renders it. */
  function StrategyTitle(c: Company, fmt: NumberText): string {
    "Go-To-Market Strategy for " + Interpolate(c.name, fmt)
  }

  /** The draft strategy saved for the generated content. */
  function DraftStrategy(id: string, companyId: Option<string>, c: Company, content: string, now: int, fmt: NumberText): Strategy {
    Strategy(id, companyId, StrategyTitle(c, fmt), content, "draft", now, now)
  }

  /** The last steps once the strategy is written: the insert, then the
      best-effort approval flow, whose failure only warns. */
  function SaveStrategy(st: Store, companyId: Option<string>, userId: Option<string>, c: Company, asked: seq<Call>,
                        content: string, ins: Insert, delivered: bool, now: int, fmt: NumberText): (o: Outcome<Strategy>)
    ensures ins.InsertFailed? ==> o == Outcome(Fail(500, ins.err.message), st, asked, false)
    ensures ins.Inserted? ==>
      var s := DraftStrategy(ins.id, companyId, c, content, now, fmt);
      o == Outcome(Ok(201, Some("Strategy generated successfully"), s), st.(strategies := st.strategies + [s]),
                   asked + [ApprovalFlow(s, userId)], !delivered)
  {
    match ins
    case InsertFailed(e) => Outcome(Fail(500, e.message), st, asked, false)
    case Inserted(id) =>
      var s := DraftStrategy(id, companyId, c, content, now, fmt);
      Outcome(Ok(201, Some("Strategy generated successfully"), s), st.(strategies := st.strategies + [s]),
              asked + [ApprovalFlow(s, userId)], !delivered)
  }

  /** The company row `.eq('id', company_id)` selects; an absent id selects none. */
  function CompanyRows(st: Store, companyId: Option<string>): seq<Company> {
    if companyId.Some? then Filter(st.companies, CompanyIdIs(companyId.value)) else []
  }

  /** `POST /generate`: the company is read, the Strategy Architect asked
      about it, and a failed completion ends in the route's catch. */
  function Generate(st: Store, companyId: Option<string>, userId: Option<string>, fault: Option<DbError>,
                    agent: AgentReply, ins: Insert, delivered: bool, now: int, fmt: NumberText): (o: Outcome<Strategy>)
    ensures fault.Some? ==> o == Refuse(st, 500, fault.value.message)
    ensures fault.None? && CompanyRows(st, companyId) == [] ==> o == Refuse(st, 404, "Company not found")
    ensures fault.None? && CompanyRows(st, companyId) != [] ==>
      var c := CompanyRows(st, companyId)[0];
      var asked := [Completion(Architect(c))];
      && c in st.companies && Some(c.id) == companyId
      && (agent.Raised? ==> o == Outcome(Fail(500, "Server error generating strategy"), st, asked, false))
      && (agent.Replied? ==> o == SaveStrategy(st, companyId, userId, c, asked, Trim(agent.text), ins, delivered, now, fmt))
  {
    match fault
    case Some(e) => Refuse(st, 500, e.message)
    case None =>
      var found := CompanyRows(st, companyId);
      if |found| == 0 then Refuse(st, 404, "Company not found")
      else
        FilterMembers(st.companies, CompanyIdIs(companyId.value));
        assert found[0] in found;
        var asked := [Completion(Architect(found[0]))];
        match agent
        case Raised(_) => Outcome(Fail(500, "Server error generating strategy"), st, asked, false)
        case Replied(_) => SaveStrategy(st, companyId, userId, found[0], asked, Complete(agent).text, ins, delivered, now, fmt)
  }

  /** The route answers 201 exactly when the company is found, the completion
      succeeds and the insert does; any other answer leaves the store as it
      was and warns of nothing. */
  lemma GenerateSucceedsExactly(st: Store, companyId: Option<string>, userId: Option<string>, fault: Option<DbError>,
                                agent: AgentReply, ins: Insert, delivered: bool, now: int, fmt: NumberText)
    ensures var o := Generate(st, companyId, userId, fault, agent, ins, delivered, now, fmt);
      && (o.reply.Ok? <==> fault.None? && CompanyRows(st, companyId) != [] && agent.Replied? && ins.Inserted?)
      && (o.reply.Fail? ==> o.store == st && !o.warned)
  {
  }

  /** A successful generation stores exactly one strategy: a draft for the
      company, titled after it, holding the trimmed completion, which a read
      by its id then returns; the approval flow is attempted for it. */
  lemma GenerateThenGet(st: Store, companyId: string, userId: Option<string>, text: string, id: string,
                        delivered: bool, now: int, fmt: NumberText)
    requires Filter(st.companies, CompanyIdIs(companyId)) != []
    requires forall s :: s in st.strategies ==> s.id != id
    ensures var o := Generate(st, Some(companyId), userId, None, Replied(text), Inserted(id), delivered, now, fmt);
      && o.reply.Ok? && o.reply.status == 201
      && var s := o.reply.data;
      && o.store == st.(strategies := st.strategies + [s])
      && s.id == id && s.companyId == Some(companyId) && s.status == "draft" && s.content == Trim(text)
      && (exists c :: c in st.companies && c.id == companyId && s.title == "Go-To-Market Strategy for " + Interpolate(c.name, fmt))
      && ApprovalFlow(s, userId) in o.calls
      && GetStrategy(o.store, id, None) == Ok(200, None, s)
  {
    var c := Filter(st.companies, CompanyIdIs(companyId))[0];
    var s := DraftStrategy(id, Some(companyId), c, Trim(text), now, fmt);
    var o := SaveStrategy(st, Some(companyId), userId, c, [Completion(Architect(c))], Trim(text), Inserted(id), delivered, now, fmt);
    assert Generate(st, Some(companyId), userId, None, Replied(text), Inserted(id), delivered, now, fmt) == o;
    assert o.calls[1] == ApprovalFlow(s, userId);
    assert forall i :: 0 <= i < |st.strategies| ==> st.strategies[i] in st.strategies;
    FilterKeepsNone(st.strategies, StrategyIdIs(id));
    FilterAppend(st.strategies, [s], StrategyIdIs(id));
    FilterOne(s, StrategyIdIs(id));
  }

  /** Whether the approval flow was delivered changes neither the reply, the
      store nor the calls attempted, only whether a warning is logged. */
  lemma ApprovalFlowBestEffort(st: Store, companyId: Option<string>, userId: Option<string>, fault: Option<DbError>,
                               agent: AgentReply, ins: Insert, now: int, fmt: NumberText)
    ensures var a := Generate(st, companyId, userId, fault, agent, ins, true, now, fmt);
      var b := Generate(st, companyId, userId, fault, agent, ins, false, now, fmt);
      a.reply == b.reply && a.store == b.store && a.calls == b.calls && !a.warned
      && (b.warned <==> a.reply.Ok?)
  {
  }

  // ---------------------------------------------------------------------
  // GET /:id and GET /company/:company_id

  function GetStrategy(st: Store, id: string, fault: Option<DbError>): (r: Reply<Strategy>)
    ensures fault.Some? ==> r == Fail(500, fault.value.message)
    ensures fault.None? && Filter(st.strategies, StrategyIdIs(id)) == [] ==> r == Fail(404, "Strategy not found")
    ensures fault.None? && Filter(st.strategies, StrategyIdIs(id)) != [] ==> r == Ok(200, None, Filter(st.strategies, StrategyIdIs(id))[0])
    ensures r.Ok? ==> r.status == 200 && r.data in st.strategies && r.data.id == id
  {
    match fault
    case Some(e) => Fail(500, e.message)
    case None =>
      var found := Filter(st.strategies, StrategyIdIs(id));
      if |found| == 0 then Fail(404, "Strategy not found")
      else
        FilterMembers(st.strategies, StrategyIdIs(id));
        assert found[0] in found;
        Ok(200, None, found[0])
  }

  function StrategyOf(companyId: string): Strategy -> bool {
    (s: Strategy) => s.companyId == Some(companyId)
  }

  /** The company's strategies (in table order; the newest-first ordering is
      not modelled). */
  function ListStrategies(st: Store, companyId: string, fault: Option<DbError>): (r: Reply<seq<Strategy>>)
    ensures fault.Some? ==> r == Fail(500, fault.value.message)
    ensures fault.None? ==> r.Ok? && r.status == 200
    ensures r.Ok? ==> forall s :: s in r.data <==> s in st.strategies && s.companyId == Some(companyId)
  {
    match fault
    case Some(e) => Fail(500, e.message)
    case None =>
      FilterMembers(st.strategies, StrategyOf(companyId));
      Ok(200, None, Filter(st.strategies, StrategyOf(companyId)))
  }

  // ---------------------------------------------------------------------
  // PUT /:id/status and PUT /:id/content

  const StrategyStatuses: set<string> := {"draft", "active", "archived"}

  function SetStrategyStatus(s: string, now: int): Strategy -> Strategy {
    (x: Strategy) => x.(status := s, updatedAt := now)
  }

  /** `PUT /:id/status`: only the three strategy states are accepted. */
  function UpdateStatus(st: Store, id: string, status: Option<string>, now: int, fault: Option<DbError>): (o: Outcome<Option<Strategy>>)
    ensures status.None? || status.value !in StrategyStatuses ==> o == Refuse(st, 400, "Invalid status value")
    ensures status.Some? && status.value in StrategyStatuses && fault.Some? ==> o == Refuse(st, 500, fault.value.message)
    ensures status.Some? && status.value in StrategyStatuses && fault.None? ==>
      var strategies := Replace(st.strategies, StrategyIdIs(id), SetStrategyStatus(status.value, now));
      o == Outcome(Ok(200, Some("Strategy status updated successfully"), First(Filter(strategies, StrategyIdIs(id)))),
                   st.(strategies := strategies), [], false)
  {
    if status.None? || status.value !in StrategyStatuses then Refuse(st, 400, "Invalid status value")
    else match fault
      case Some(e) => Refuse(st, 500, e.message)
      case None =>
        var strategies := Replace(st.strategies, StrategyIdIs(id), SetStrategyStatus(status.value, now));
        Outcome(Ok(200, Some("Strategy status updated successfully"), First(Filter(strategies, StrategyIdIs(id)))),
                st.(strategies := strategies), [], false)
  }

  /** Activating a strategy does not retire the company's other strategies:
      every strategy with another id keeps its status, so several can be
      active at once. */
  lemma UpdateStatusTouchesOnlyTarget(st: Store, id: string, s: string, now: int, i: nat)
    requires s in StrategyStatuses && i < |st.strategies|
    ensures var o := UpdateStatus(st, id, Some(s), now, None);
      && o.store.(strategies := st.strategies) == st
      && |o.store.strategies| == |st.strategies|
      && (st.strategies[i].id != id ==> o.store.strategies[i] == st.strategies[i])
      && (st.strategies[i].id == id ==> o.store.strategies[i] == st.strategies[i].(status := s, updatedAt := now))
  {
  }

  /** The content update: new content, and a new title only when one is given. */
  function SetContent(content: string, title: Option<string>, now: int): Strategy -> Strategy {
    (x: Strategy) => x.(content := content, title := if Filled(title) then title.value else x.title, updatedAt := now)
  }

  /** `PUT /:id/content`. */
  function UpdateContent(st: Store, id: string, content: Option<string>, title: Option<string>, now: int,
                         fault: Option<DbError>): (o: Outcome<Option<Strategy>>)
    ensures !Filled(content) ==> o == Refuse(st, 400, "Content is required")
    ensures Filled(content) && fault.Some? ==> o == Refuse(st, 500, fault.value.message)
    ensures Filled(content) && fault.None? ==>
      var strategies := Replace(st.strategies, StrategyIdIs(id), SetContent(content.value, title, now));
      o == Outcome(Ok(200, Some("Strategy content updated successfully"), First(Filter(strategies, StrategyIdIs(id)))),
                   st.(strategies := strategies), [], false)
  {
    if !Filled(content) then Refuse(st, 400, "Content is required")
    else match fault
      case Some(e) => Refuse(st, 500, e.message)
      case None =>
        var strategies := Replace(st.strategies, StrategyIdIs(id), SetContent(content.value, title, now));
        Outcome(Ok(200, Some("Strategy content updated successfully"), First(Filter(strategies, StrategyIdIs(id)))),
                st.(strategies := strategies), [], false)
  }

  /** Editing the content never changes a strategy's status: an active
      strategy stays active and a draft stays a draft; the title changes only
      when a non-empty one is given, and the reply carries the edited row. */
  lemma UpdateContentKeepsStatus(st: Store, id: string, content: string, title: Option<string>, now: int)
    requires content != ""
    requires exists s :: s in st.strategies && s.id == id
    ensures var o := UpdateContent(st, id, Some(content), title, now, None);
      && o.reply.Ok? && o.reply.data.Some?
      && var s := o.reply.data.value;
      && s.id == id && s.content == content
      && (exists before :: before in st.strategies && before.id == id && s.status == before.status
            && s.companyId == before.companyId
            && s.title == (if Filled(title) then title.value else before.title))
  {
    var f := SetContent(content, title, now);
    var rows := Replace(st.strategies, StrategyIdIs(id), f);
    var k :| 0 <= k < |st.strategies| && st.strategies[k].id == id;
    assert rows[k] == f(st.strategies[k]);
    assert rows[k] in rows;
    FilterMembers(rows, StrategyIdIs(id));
    var s := Filter(rows, StrategyIdIs(id))[0];
    assert s in rows;
    var j :| 0 <= j < |rows| && rows[j] == s;
    assert s == f(st.strategies[j]);
  }
}
