/** The actions page: the list with its badges, previews and filters, and the
    buttons of the detail view, each of which sends a status update or opens
    the assignment dialog. */
module ActionsView {
  import opened Js
  import opened Seqs
  import opened Db
  import opened View
  import opened Effects
  import ActionRoutes

  /** `getStatusBadge` of the actions page. */
  function StatusBadge(status: string): (b: Badge)
    ensures b.text == Capitalize(status)
  {
    var cls := match status
      case "pending" => "bg-warning text-dark"
      case "approved" => "bg-success"
      case "rejected" => "bg-danger"
      case "completed" => "bg-info"
      case _ => "bg-secondary";
    Badge(cls, Capitalize(status))
  }

  /** The four states the backend accepts each have their own class, none of
      them the grey fallback every other status gets. */
  lemma StatusBadgesDistinguish(s1: string, s2: string)
    ensures s1 in ActionRoutes.ValidStatuses && s2 in ActionRoutes.ValidStatuses && s1 != s2
            ==> StatusBadge(s1).cls != StatusBadge(s2).cls
    ensures s1 in ActionRoutes.ValidStatuses <==> StatusBadge(s1).cls != "bg-secondary"
  {
  }

  /** `getTypeBadge`. */
  function TypeBadge(kind: string): (b: Badge)
    ensures b.text == Capitalize(kind)
  {
    var cls := match kind
      case "email" => "type-email"
      case "linkedin" => "type-linkedin"
      case "sms" => "type-sms"
      case "meeting" => "type-meeting"
      case "optimization" => "type-optimization"
      case _ => "";
    Badge(cls, Capitalize(kind))
  }

  /** The types with a styled badge are exactly the types with a workflow of
      their own: `type-<type>` for those, no class for the rest. */
  lemma TypeBadgeFollowsWorkflows(kind: string)
    ensures TypeBadge(kind).cls == if kind in ActionRoutes.WorkflowKinds then "type-" + kind else ""
    ensures kind in ActionRoutes.WorkflowKinds <==> ActionRoutes.WebhookPath(kind) != "/webhook/generic-action"
  {
  }

  // ---------------------------------------------------------------------
  // list preview

  const PreviewLength: nat := 50

  /** `content.substring(0, 50)` followed by "..." when the content is longer. */
  function Preview(content: string): (r: string)
    ensures |r| == if |content| > PreviewLength then PreviewLength + 3 else |content|
    ensures r[..if |content| > PreviewLength then PreviewLength else |content|]
         == content[..if |content| > PreviewLength then PreviewLength else |content|]
    ensures |content| > PreviewLength ==> r[PreviewLength..] == "..."
  {
    if |content| > PreviewLength then content[..PreviewLength] + "..." else content
  }

  /** A preview previews as itself: the first 50 characters are kept and the
      ellipsis is the cut. */
  lemma PreviewIdempotent(content: string)
    ensures Preview(Preview(content)) == Preview(content)
  {
    if |content| > PreviewLength {
      var p := Preview(content);
      assert p[..PreviewLength] == content[..PreviewLength];
    }
  }

  /** Two contents that share their first 50 characters and both run longer
      have the same preview. */
  lemma PreviewSeesFifty(a: string, b: string)
    requires |a| > PreviewLength && |b| > PreviewLength && a[..PreviewLength] == b[..PreviewLength]
    ensures Preview(a) == Preview(b)
  {
  }

  // ---------------------------------------------------------------------
  // filters

  /** What `filterActions` keeps: an empty filter value is no filter. */
  function Shown(status: string, kind: string): Action -> bool {
    (a: Action) => (status == "" || a.status == status) && (kind == "" || a.kind == kind)
  }

  function ByStatus(actions: seq<Action>, status: string): seq<Action> {
    if status != "" then Filter(actions, (a: Action) => a.status == status) else actions
  }

  function ByKind(actions: seq<Action>, kind: string): seq<Action> {
    if kind != "" then Filter(actions, (a: Action) => a.kind == kind) else actions
  }

  /** The two filters in a row keep exactly what both tests together keep. */
  lemma TwoFiltersAsOne(actions: seq<Action>, status: string, kind: string)
    ensures ByKind(ByStatus(actions, status), kind) == Filter(actions, Shown(status, kind))
  {
    if status != "" && kind != "" {
      FilterFilter(actions, (a: Action) => a.status == status, (a: Action) => a.kind == kind, Shown(status, kind));
    } else if status != "" {
      FilterSame(actions, (a: Action) => a.status == status, Shown(status, kind));
    } else if kind != "" {
      FilterSame(actions, (a: Action) => a.kind == kind, Shown(status, kind));
    } else {
      FilterKeepsAll(actions, Shown(status, kind));
    }
  }

  /** `filterActions`: the status filter, then the type filter; what is shown
      keeps the list's order. */
  function FilterActions(actions: seq<Action>, status: string, kind: string): (r: seq<Action>)
    ensures r == Filter(actions, Shown(status, kind))
    ensures status == "" && kind == "" ==> r == actions
  {
    TwoFiltersAsOne(actions, status, kind);
    ByKind(ByStatus(actions, status), kind)
  }

  /** Filtering the company's full list in the browser gives the list the
      server returns for the same filters. */
  lemma ClientFilterMatchesServer(st: Store, companyId: string, status: string, kind: string)
    ensures FilterActions(ActionRoutes.ListActions(st, companyId, None, None, None).data, status, kind)
         == ActionRoutes.ListActions(st, companyId, Some(status), Some(kind), None).data
  {
    FilterFilter(st.actions, ActionRoutes.ActionMatches(companyId, None, None), Shown(status, kind),
                 ActionRoutes.ActionMatches(companyId, Some(status), Some(kind)));
  }

  // ---------------------------------------------------------------------
  // detail view

  datatype Button = Reject | Approve | MarkCompleted | AssignTo

  /** The footer buttons of `displayActionDetails`, in page order. */
  function DetailButtons(a: Action): (bs: seq<Button>)
    ensures Reject in bs <==> a.status == "pending"
    ensures Approve in bs <==> a.status == "pending"
    ensures MarkCompleted in bs <==> a.status == "approved"
    ensures AssignTo in bs <==> !Filled(a.assignedTo)
  {
    (if a.status == "pending" then [Reject, Approve] else [])
    + (if a.status == "approved" && a.status != "completed" then [MarkCompleted] else [])
    + (if !Filled(a.assignedTo) then [AssignTo] else [])
  }

  /** The status a button asks for; the assign button opens a dialog instead.
      A status button never asks for 'pending', and always for a status the
      server accepts. */
  function Sends(b: Button): (r: Option<string>)
    ensures r.None? <==> b == AssignTo
    ensures r.Some? ==> r.value in ActionRoutes.ValidStatuses && r.value != "pending"
  {
    match b
    case Reject => Some("rejected")
    case Approve => Some("approved")
    case MarkCompleted => Some("completed")
    case AssignTo => None
  }

  /** Different status buttons ask for different statuses. */
  lemma SendsDistinct(b: Button, c: Button)
    requires Sends(b).Some? && b != c
    ensures Sends(b) != Sends(c)
  {
  }

  /** Every status button sends a status the server accepts, so pressing one
      is never answered with 400. */
  lemma ButtonsSendValidStatuses(st: Store, a: Action, b: Button, now: int, delivered: bool)
    requires b in DetailButtons(a) && Sends(b).Some?
    ensures ActionRoutes.UpdateStatus(st, a.id, Sends(b), now, None, delivered).reply.Ok?
  {
  }

  /** Approving a pending action moves it on: the row the server returns
      offers Mark Completed and no longer offers Approve or Reject. */
  lemma ApproveThenComplete(st: Store, a: Action, now: int, delivered: bool)
    requires a in st.actions && a.status == "pending"
    ensures var o := ActionRoutes.UpdateStatus(st, a.id, Some("approved"), now, None, delivered);
      && o.reply.Ok? && o.reply.data.Some?
      && MarkCompleted in DetailButtons(o.reply.data.value)
      && Approve !in DetailButtons(o.reply.data.value) && Reject !in DetailButtons(o.reply.data.value)
  {
    var f := ActionRoutes.SetStatus("approved", now);
    var updated := Replace(st.actions, ActionIdIs(a.id), f);
    var k :| 0 <= k < |st.actions| && st.actions[k] == a;
    assert updated[k] in updated;
    FilterMembers(updated, ActionIdIs(a.id));
    var rows := Filter(updated, ActionIdIs(a.id));
    assert updated[k] in rows;
    assert rows[0] in updated;
    var j :| 0 <= j < |updated| && updated[j] == rows[0];
    assert rows[0].status == "approved";
  }
}
