/** The action-plan page, app/action-plan/page.tsx: selecting evidence events
    and creating an action plan from the form. */
module ActionPlan {
  import opened Wrappers
  import opened Seqs

  const OrgId := "ORG_1"
  const LineId := "LINE_1"
  const OpenStatus := "Open"
  const IncompleteAlert := "Complete all fields"
  const FailedAlert := "Failed to create action"

  function Not(id: string): string -> bool {
    (e: string) => e != id
  }

  /** The updater of `toggleEvent`: drop every occurrence of `id` when it is
      selected, otherwise append it. */
  function Toggle(prev: seq<string>, id: string): seq<string> {
    if id in prev then Filter(prev, Not(id)) else prev + [id]
  }

  /** Toggling flips the membership of `id` and of nothing else. */
  lemma ToggleFlips(prev: seq<string>, id: string)
    ensures id in Toggle(prev, id) <==> id !in prev
    ensures forall x :: x != id ==> (x in Toggle(prev, id) <==> x in prev)
  {
  }

  /** Apart from `id`, the selection is the same list in the same order. */
  lemma ToggleKeepsOthers(prev: seq<string>, id: string)
    ensures Filter(Toggle(prev, id), Not(id)) == Filter(prev, Not(id))
  {
    var p := Not(id);
    if id in prev {
      FilterAll(Filter(prev, p), p);
    } else {
      FilterAppend(prev, [id], p);
      assert [id][1..] == [];
    }
  }

  /** A selected id is removed everywhere; an unselected one goes to the end. */
  lemma ToggleRemovesOrAppends(prev: seq<string>, id: string)
    ensures id in prev ==> |Toggle(prev, id)| < |prev|
    ensures id !in prev ==> Toggle(prev, id) == prev + [id]
  {
    if id in prev {
      var p := Not(id);
      var i :| 0 <= i < |prev| && prev[i] == id;
      assert prev == prev[..i] + [id] + prev[i + 1..];
      FilterAppend(prev[..i] + [id], prev[i + 1..], p);
      FilterAppend(prev[..i], [id], p);
      assert [id][1..] == [];
    }
  }

  /** A selection without duplicates keeps none. */
  lemma ToggleKeepsNoDuplicates(prev: seq<string>, id: string)
    requires NoDuplicates(prev)
    ensures NoDuplicates(Toggle(prev, id))
  {
    if id in prev {
      FilterKeepsNoDuplicates(prev, Not(id));
    }
  }

  /** Selecting an unselected id and deselecting it again restores the selection. */
  lemma ToggleTwice(prev: seq<string>, id: string)
    requires id !in prev
    ensures Toggle(Toggle(prev, id), id) == prev
  {
    var p := Not(id);
    FilterAppend(prev, [id], p);
    FilterAll(prev, p);
    assert [id][1..] == [];
  }

  /** The JSON body POSTed to /api/actions. */
  datatype ActionRequest = ActionRequest(
    orgId: string,
    lineId: string,
    action: string,
    rootCause: string,
    owner: string,
    dueDate: string,
    status: string,
    evidenceEventIds: seq<string>)

  /** The form state of the page that `createActionPlan` reads and resets. */
  class ActionPlanForm {
    var selectedEventIds: seq<string>
    var action: string
    var rootCause: string
    var owner: string
    var dueDate: string
    var showDrawer: bool

    constructor ()
      ensures selectedEventIds == [] && action == "" && rootCause == "" && owner == "" && dueDate == ""
      ensures !showDrawer
    {
      selectedEventIds := [];
      action := "";
      rootCause := "";
      owner := "";
      dueDate := "";
      showDrawer := false;
    }

    /** Every one of the four text fields is filled in. */
    predicate Complete()
      reads this
    {
      action != "" && rootCause != "" && owner != "" && dueDate != ""
    }

    /** The request the form would send now. */
    function Request(): (r: ActionRequest)
      reads this
      ensures r.status == OpenStatus && r.evidenceEventIds == selectedEventIds
      ensures r.orgId == OrgId && r.lineId == LineId
      ensures r.action == action && r.rootCause == rootCause && r.owner == owner && r.dueDate == dueDate
    {
      ActionRequest(OrgId, LineId, action, rootCause, owner, dueDate, OpenStatus, selectedEventIds)
    }

    /** `toggleEvent(id)` */
    method ToggleEvent(id: string)
      modifies this
      ensures selectedEventIds == Toggle(old(selectedEventIds), id)
      ensures action == old(action) && rootCause == old(rootCause) && owner == old(owner)
      ensures dueDate == old(dueDate) && showDrawer == old(showDrawer)
    {
      selectedEventIds := Toggle(selectedEventIds, id);
    }

    /** `createActionPlan`. `serverOk` is `res.ok` of the POST. Returns the
        request sent, if any, and the alert shown, if any. */
    method CreateActionPlan(serverOk: bool) returns (sent: Option<ActionRequest>, alert: Option<string>)
      modifies this
      ensures sent.Some? <==> old(Complete())
      ensures sent.Some? ==> sent.value == old(Request())
      ensures !old(Complete()) ==> alert == Some(IncompleteAlert)
      ensures old(Complete()) && !serverOk ==> alert == Some(FailedAlert)
      ensures old(Complete()) && serverOk ==> alert == None
      ensures old(Complete()) && serverOk ==>
        && selectedEventIds == [] && action == "" && rootCause == "" && owner == "" && dueDate == ""
        && !showDrawer
      ensures !(old(Complete()) && serverOk) ==>
        && selectedEventIds == old(selectedEventIds) && action == old(action) && rootCause == old(rootCause)
        && owner == old(owner) && dueDate == old(dueDate) && showDrawer == old(showDrawer)
    {
      if action == "" || rootCause == "" || owner == "" || dueDate == "" {
        return None, Some(IncompleteAlert);
      }
      sent := Some(Request());
      if !serverOk {
        return sent, Some(FailedAlert);
      }
      showDrawer := false;
      selectedEventIds := [];
      action := "";
      rootCause := "";
      owner := "";
      dueDate := "";
      alert := None;
    }
  }

  /** After a successful creation the form is incomplete again, so a second
      click sends nothing until the fields are filled in anew. */
  method CreateTwice(form: ActionPlanForm) returns (first: Option<ActionRequest>, second: Option<ActionRequest>)
    requires form.Complete()
    modifies form
    ensures first.Some? && first.value.evidenceEventIds == old(form.selectedEventIds)
    ensures second.None?
  {
    var alert;
    first, alert := form.CreateActionPlan(true);
    second, alert := form.CreateActionPlan(true);
  }
}
