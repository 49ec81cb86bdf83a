/** The actions router: listing and reading actions, creating one, moving it
    through its approval states (an approval triggers the workflow webhook for
    its type), and assigning it to a user. */
module ActionRoutes {
  import opened Js
  import opened Seqs
  import opened Db
  import opened Effects

  // ---------------------------------------------------------------------
  // GET /company/:company_id

  /** The conjunction of `.eq('company_id', ...)` and the optional
      `.eq('status', ...)` and `.eq('type', ...)`; an absent or empty query
      parameter adds no condition. */
  function ActionMatches(companyId: string, status: Option<string>, kind: Option<string>): Action -> bool {
    (a: Action) =>
      a.companyId == Some(companyId)
      && (!Filled(status) || a.status == status.value)
      && (!Filled(kind) || a.kind == kind.value)
  }

  /** The company's actions, narrowed by the optional filters. */
  function ListActions(st: Store, companyId: string, status: Option<string>, kind: Option<string>,
                       fault: Option<DbError>): (r: Reply<seq<Action>>)
    ensures fault.Some? ==> r == Fail(500, fault.value.message)
    ensures fault.None? ==> r.Ok? && r.status == 200
    ensures r.Ok? ==> r.data == Filter(st.actions, ActionMatches(companyId, status, kind))
  {
    match fault
    case Some(e) => Fail(500, e.message)
    case None => Ok(200, None, Filter(st.actions, ActionMatches(companyId, status, kind)))
  }

  /** An action is listed exactly when it belongs to the company and passes
      every filter that was given. */
  lemma ListActionsMembers(st: Store, companyId: string, status: Option<string>, kind: Option<string>)
    ensures var r := ListActions(st, companyId, status, kind, None);
      forall a :: a in r.data <==>
        && a in st.actions && a.companyId == Some(companyId)
        && (Filled(status) ==> a.status == status.value)
        && (Filled(kind) ==> a.kind == kind.value)
  {
    FilterMembers(st.actions, ActionMatches(companyId, status, kind));
  }

  /** Without filters the list is every action of the company, in table order. */
  lemma ListActionsUnfiltered(st: Store, companyId: string)
    ensures ListActions(st, companyId, None, None, None).data
         == Filter(st.actions, (a: Action) => a.companyId == Some(companyId))
  {
    FilterSame(st.actions, ActionMatches(companyId, None, None), (a: Action) => a.companyId == Some(companyId));
  }

  // ---------------------------------------------------------------------
  // GET /:id

  /** The action with the id; `.single()` reports anything but exactly one row
      through `fault`. */
  function GetAction(st: Store, id: string, fault: Option<DbError>): (r: Reply<Action>)
    ensures fault.Some? ==> r == Fail(500, fault.value.message)
    ensures fault.None? && Filter(st.actions, ActionIdIs(id)) == [] ==> r == Fail(404, "Action not found")
    ensures fault.None? && Filter(st.actions, ActionIdIs(id)) != [] ==> r == Ok(200, None, Filter(st.actions, ActionIdIs(id))[0])
    ensures r.Ok? ==> r.status == 200 && r.data in st.actions && r.data.id == id
  {
    match fault
    case Some(e) => Fail(500, e.message)
    case None =>
      var found := Filter(st.actions, ActionIdIs(id));
      if |found| == 0 then Fail(404, "Action not found")
      else
        FilterMembers(st.actions, ActionIdIs(id));
        assert found[0] in found;
        Ok(200, None, found[0])
  }

  // ---------------------------------------------------------------------
  // POST /

  /** The request body of `POST /`. */
  datatype NewAction = NewAction(
    companyId: Option<string>, campaignId: Option<string>, kind: Option<string>,
    content: Option<string>, assignedTo: Option<string>, dueDate: Option<string>)

  /** Company, type and content must all be present and non-empty. */
  predicate Complete(b: NewAction) {
    Filled(b.companyId) && Filled(b.kind) && Filled(b.content)
  }

  /** The row inserted for a valid body: always pending, with an empty due date
      stored as null. */
  function NewActionRow(id: string, b: NewAction, now: int): Action
    requires Complete(b)
  {
    Action(id, b.companyId, b.campaignId, b.kind.value, b.content.value, "pending",
           b.assignedTo, if Filled(b.dueDate) then b.dueDate else None, now, now)
  }

  /** `POST /`: validate, then insert one pending action. */
  function CreateAction(st: Store, b: NewAction, ins: Insert, now: int): (o: Outcome<Action>)
    ensures !Complete(b) ==> o == Refuse(st, 400, "Missing required parameters")
    ensures Complete(b) && ins.InsertFailed? ==> o == Refuse(st, 500, ins.err.message)
    ensures o.reply.Ok? <==> Complete(b) && ins.Inserted?
    ensures o.reply.Ok? ==>
      && o.reply.status == 201
      && o.store == st.(actions := st.actions + [o.reply.data])
      && o.reply.data.id == ins.id && o.reply.data.status == "pending"
      && o.reply.data.companyId == b.companyId && o.reply.data.campaignId == b.campaignId
      && Some(o.reply.data.kind) == b.kind && Some(o.reply.data.content) == b.content
      && o.reply.data.assignedTo == b.assignedTo
      && (o.reply.data.dueDate.Some? <==> Filled(b.dueDate))
      && (Filled(b.dueDate) ==> o.reply.data.dueDate == b.dueDate)
    ensures o.calls == [] && !o.warned
  {
    if !Complete(b) then Refuse(st, 400, "Missing required parameters")
    else match ins
      case InsertFailed(e) => Refuse(st, 500, e.message)
      case Inserted(id) =>
        var a := NewActionRow(id, b, now);
        Outcome(Ok(201, Some("Action created successfully"), a), st.(actions := st.actions + [a]), [], false)
  }

  /** Creating and then reading back: with an id the table did not hold yet,
      `GET /:id` returns the action just created. */
  lemma CreateThenGet(st: Store, b: NewAction, id: string, now: int)
    requires Complete(b)
    requires forall a :: a in st.actions ==> a.id != id
    ensures var o := CreateAction(st, b, Inserted(id), now);
      o.reply.Ok? && GetAction(o.store, id, None) == Ok(200, None, o.reply.data)
  {
    var a := NewActionRow(id, b, now);
    assert forall i :: 0 <= i < |st.actions| ==> st.actions[i] in st.actions;
    FilterKeepsNone(st.actions, ActionIdIs(id));
    FilterAppend(st.actions, [a], ActionIdIs(id));
    FilterOne(a, ActionIdIs(id));
  }

  // ---------------------------------------------------------------------
  // PUT /:id/status

  const ValidStatuses: set<string> := {"pending", "approved", "rejected", "completed"}

  /** `validStatuses.includes(status)`: an absent status is not included. */
  predicate ValidStatus(status: Option<string>) {
    status.Some? && status.value in ValidStatuses
  }

  /** The `.update({ status, updated_at })` applied to each matching row. */
  function SetStatus(s: string, now: int): Action -> Action {
    (a: Action) => a.(status := s, updatedAt := now)
  }

  /** The webhook path of `triggerWorkflow`, chosen by the action's type. */
  function WebhookPath(kind: string): string {
    match kind
    case "email" => "/webhook/email-outreach"
    case "linkedin" => "/webhook/linkedin-outreach"
    case "sms" => "/webhook/sms-outreach"
    case "meeting" => "/webhook/schedule-meeting"
    case "optimization" => "/webhook/apply-optimization"
    case _ => "/webhook/generic-action"
  }

  const WorkflowKinds: set<string> := {"email", "linkedin", "sms", "meeting", "optimization"}

  /** Each of the five workflow types has its own webhook, and every other type
      shares the generic one. */
  lemma WebhookPathsDistinct(k1: string, k2: string)
    ensures k1 in WorkflowKinds && k2 in WorkflowKinds && k1 != k2 ==> WebhookPath(k1) != WebhookPath(k2)
    ensures k1 in WorkflowKinds ==> WebhookPath(k1) != "/webhook/generic-action"
    ensures k1 !in WorkflowKinds ==> WebhookPath(k1) == "/webhook/generic-action"
  {
  }

  /** The rows `.update(...).eq('id', id).select()` returns: the updated rows
      with that id, in table order. */
  function Updated(actions: seq<Action>, id: string, f: Action -> Action): seq<Action> {
    Filter(Replace(actions, ActionIdIs(id), f), ActionIdIs(id))
  }

  /** The approval step: `triggerWorkflow(data[0])` for an approved status,
      inside a try whose failure is only a warning. With no updated row,
      reading `action.type` of `undefined` throws before any call is made. */
  function Trigger(s: string, rows: seq<Action>, delivered: bool): (r: (seq<Call>, bool))
    ensures s != "approved" ==> r == ([], false)
    ensures s == "approved" && |rows| == 0 ==> r == ([], true)
    ensures s == "approved" && |rows| > 0 ==> r == ([Webhook(WebhookPath(rows[0].kind), rows[0])], !delivered)
  {
    if s != "approved" then ([], false)
    else if |rows| == 0 then ([], true)
    else ([Webhook(WebhookPath(rows[0].kind), rows[0])], !delivered)
  }

  /** `PUT /:id/status`. */
  function UpdateStatus(st: Store, id: string, status: Option<string>, now: int,
                        fault: Option<DbError>, delivered: bool): (o: Outcome<Option<Action>>)
    ensures !ValidStatus(status) ==> o == Refuse(st, 400, "Invalid status value")
    ensures ValidStatus(status) && fault.Some? ==> o == Refuse(st, 500, fault.value.message)
    ensures ValidStatus(status) && fault.None? ==>
      var actions := Replace(st.actions, ActionIdIs(id), SetStatus(status.value, now));
      var rows := Updated(st.actions, id, SetStatus(status.value, now));
      && o.reply == Ok(200, Some("Action status updated successfully"), First(rows))
      && o.store == st.(actions := actions)
      && (o.calls, o.warned) == Trigger(status.value, rows, delivered)
  {
    if !ValidStatus(status) then Refuse(st, 400, "Invalid status value")
    else match fault
      case Some(e) => Refuse(st, 500, e.message)
      case None =>
        var f := SetStatus(status.value, now);
        var rows := Updated(st.actions, id, f);
        var t := Trigger(status.value, rows, delivered);
        Outcome(Ok(200, Some("Action status updated successfully"), First(rows)),
                st.(actions := Replace(st.actions, ActionIdIs(id), f)), t.0, t.1)
  }

  /** A status update touches only the status and `updated_at` of the rows
      with that id: every other row and every other table stays as it was. */
  lemma UpdateStatusTouchesOnlyTarget(st: Store, id: string, s: string, now: int, delivered: bool, i: nat)
    requires s in ValidStatuses
    requires i < |st.actions|
    ensures var o := UpdateStatus(st, id, Some(s), now, None, delivered);
      && o.store.(actions := st.actions) == st
      && |o.store.actions| == |st.actions|
      && (st.actions[i].id != id ==> o.store.actions[i] == st.actions[i])
      && (st.actions[i].id == id ==> o.store.actions[i] == st.actions[i].(status := s, updatedAt := now))
  {
  }

  /** Setting the same status twice at the same time stores what setting it
      once does. */
  lemma UpdateStatusIdempotent(st: Store, id: string, s: string, now: int, d1: bool, d2: bool)
    requires s in ValidStatuses
    ensures var once := UpdateStatus(st, id, Some(s), now, None, d1);
      UpdateStatus(once.store, id, Some(s), now, None, d2).store == once.store
  {
    var f := SetStatus(s, now);
    var a1 := Replace(st.actions, ActionIdIs(id), f);
    var a2 := Replace(a1, ActionIdIs(id), f);
    assert a2 == a1;
  }

  /** The workflow webhook is called exactly when the new status is 'approved'
      and a row with the id was updated; it receives that updated row. */
  lemma WebhookOnlyOnApproval(st: Store, id: string, s: string, now: int, delivered: bool)
    requires s in ValidStatuses
    ensures var o := UpdateStatus(st, id, Some(s), now, None, delivered);
      var rows := Updated(st.actions, id, SetStatus(s, now));
      && (|o.calls| > 0 <==> s == "approved" && rows != [])
      && (|o.calls| > 0 ==> o.calls == [Webhook(WebhookPath(rows[0].kind), rows[0])] && rows[0].status == "approved")
  {
    var rows := Updated(st.actions, id, SetStatus(s, now));
    if rows != [] {
      assert ActionIdIs(id)(rows[0]);
      FilterMembers(Replace(st.actions, ActionIdIs(id), SetStatus(s, now)), ActionIdIs(id));
      assert rows[0] in rows;
    }
  }

  /** A failed webhook is only a warning: the reply, the store and the calls
      are the same whether or not it was delivered. */
  lemma UpdateStatusWebhookBestEffort(st: Store, id: string, status: Option<string>, now: int, fault: Option<DbError>)
    ensures var a := UpdateStatus(st, id, status, now, fault, true);
      var b := UpdateStatus(st, id, status, now, fault, false);
      a.reply == b.reply && a.store == b.store && a.calls == b.calls
  {
  }

  // ---------------------------------------------------------------------
  // PUT /:id/assign

  function SetAssignee(who: string, now: int): Action -> Action {
    (a: Action) => a.(assignedTo := Some(who), updatedAt := now)
  }

  /** The best-effort notification of the assignee; with no updated row,
      reading `data[0].content` throws inside the try before the call. */
  function AssignNote(who: string, rows: seq<Action>, delivered: bool): (r: (seq<Call>, bool))
    ensures |rows| == 0 ==> r == ([], true)
    ensures |rows| > 0 ==> r == ([Notify(Some(who), "Action Assigned",
                                   "You have been assigned a new action: " + rows[0].content,
                                   "/actions/" + rows[0].id)], !delivered)
  {
    if |rows| == 0 then ([], true)
    else ([Notify(Some(who), "Action Assigned", "You have been assigned a new action: " + rows[0].content,
                  "/actions/" + rows[0].id)], !delivered)
  }

  /** `PUT /:id/assign`. */
  function Assign(st: Store, id: string, assignedTo: Option<string>, now: int,
                  fault: Option<DbError>, delivered: bool): (o: Outcome<Option<Action>>)
    ensures !Filled(assignedTo) ==> o == Refuse(st, 400, "Assigned to is required")
    ensures Filled(assignedTo) && fault.Some? ==> o == Refuse(st, 500, fault.value.message)
    ensures Filled(assignedTo) && fault.None? ==>
      var rows := Updated(st.actions, id, SetAssignee(assignedTo.value, now));
      && o.reply == Ok(200, Some("Action assigned successfully"), First(rows))
      && o.store == st.(actions := Replace(st.actions, ActionIdIs(id), SetAssignee(assignedTo.value, now)))
      && (o.calls, o.warned) == AssignNote(assignedTo.value, rows, delivered)
  {
    if !Filled(assignedTo) then Refuse(st, 400, "Assigned to is required")
    else match fault
      case Some(e) => Refuse(st, 500, e.message)
      case None =>
        var f := SetAssignee(assignedTo.value, now);
        var rows := Updated(st.actions, id, f);
        var n := AssignNote(assignedTo.value, rows, delivered);
        Outcome(Ok(200, Some("Action assigned successfully"), First(rows)),
                st.(actions := Replace(st.actions, ActionIdIs(id), f)), n.0, n.1)
  }

  /** After an assignment every row with the id names the assignee, and no
      other row changes. */
  lemma AssignSetsAssignee(st: Store, id: string, who: string, now: int, delivered: bool, i: nat)
    requires who != "" && i < |st.actions|
    ensures var o := Assign(st, id, Some(who), now, None, delivered);
      && o.store.(actions := st.actions) == st
      && |o.store.actions| == |st.actions|
      && (st.actions[i].id == id ==> o.store.actions[i].assignedTo == Some(who)
                                     && o.store.actions[i].status == st.actions[i].status)
      && (st.actions[i].id != id ==> o.store.actions[i] == st.actions[i])
  {
  }

  /** A failed notification is only a warning. */
  lemma AssignNotificationBestEffort(st: Store, id: string, assignedTo: Option<string>, now: int, fault: Option<DbError>)
    ensures var a := Assign(st, id, assignedTo, now, fault, true);
      var b := Assign(st, id, assignedTo, now, fault, false);
      a.reply == b.reply && a.store == b.store && a.calls == b.calls
  {
  }
}
