/**
 * The partner's approval panel: the list of leave applications fetched for
 * the partner, one expandable card each, and Approve/Reject on pending ones.
 */
module PartnerPanelPage {
  import opened Wrappers
  import opened Api

  /** The fields of a fetched application that the panel's decisions read. */
  datatype LeaveRecord = LeaveRecord(leaveId: string, employeeName: string, status: string)

  /** The body of the status-change request. */
  datatype StatusChange = StatusChange(leaveId: string, status: string)

  datatype ActionKind = Reject | Approve

  /** A button on an expanded card: what it sends and whether it is disabled. */
  datatype Action = Action(kind: ActionKind, request: StatusChange, disabled: bool)

  datatype BadgeColour = Green | Red | Yellow

  const FailureFallback := "Failed to update leave status"

  /** The status badge: green for Approved, red for Rejected, yellow for anything else. */
  function Badge(status: string): (b: BadgeColour)
    ensures b == Green <==> status == "Approved"
    ensures b == Red <==> status == "Rejected"
    ensures b == Yellow <==> status != "Approved" && status != "Rejected"
  {
    if status == "Approved" then Green
    else if status == "Rejected" then Red
    else Yellow
  }

  /** The card for `leaveId` is open. */
  predicate IsExpanded(expandedCard: Option<string>, leaveId: string) {
    expandedCard == Some(leaveId)
  }

  /**
   * At most one card is open at a time. The open card is a single optional
   * id, as `useState<string | null>` holds it, so the property is carried by
   * the type of `expandedCard` and needs no proof beyond `Option` equality.
   */
  lemma AtMostOneExpanded(expandedCard: Option<string>, a: string, b: string)
    requires IsExpanded(expandedCard, a) && IsExpanded(expandedCard, b)
    ensures a == b
  {
  }

  /** toggleExpand: the card closes if it was open; otherwise it becomes the only open card. */
  function Toggled(expandedCard: Option<string>, leaveId: string): (e: Option<string>)
    ensures IsExpanded(expandedCard, leaveId) ==> e == None
    ensures !IsExpanded(expandedCard, leaveId) ==> IsExpanded(e, leaveId)
    ensures forall id :: id != leaveId ==> !IsExpanded(e, id)
  {
    if expandedCard == Some(leaveId) then None else Some(leaveId)
  }

  /** Toggling a card twice restores the state when no other card was open before. */
  lemma ToggleTwice(expandedCard: Option<string>, leaveId: string)
    requires expandedCard == None || expandedCard == Some(leaveId)
    ensures Toggled(Toggled(expandedCard, leaveId), leaveId) == expandedCard
  {
  }

  /** With another card open, toggling twice leaves every card closed. */
  lemma ToggleTwiceClosesOther(other: string, leaveId: string)
    requires other != leaveId
    ensures Toggled(Toggled(Some(other), leaveId), leaveId) == None
  {
  }

  /**
   * The buttons a card shows: Reject then Approve, only on the open card of a
   * record whose status is exactly `Pending`, each sending that record's own
   * id, both disabled while a status change is in flight.
   */
  function CardActions(leave: LeaveRecord, expandedCard: Option<string>, changeInFlight: bool): (acts: seq<Action>)
    ensures acts != [] <==> IsExpanded(expandedCard, leave.leaveId) && leave.status == "Pending"
    ensures forall a :: a in acts ==>
      && a.request.leaveId == leave.leaveId
      && a.request.status in {"Approved", "Rejected"}
      && (a.request.status == "Approved" <==> a.kind == Approve)
      && a.disabled == changeInFlight
    ensures acts != [] ==> |acts| == 2 && acts[0].kind == Reject && acts[1].kind == Approve
  {
    if expandedCard == Some(leave.leaveId) && leave.status == "Pending" then
      [ Action(Reject, StatusChange(leave.leaveId, "Rejected"), changeInFlight),
        Action(Approve, StatusChange(leave.leaveId, "Approved"), changeInFlight) ]
    else
      []
  }

  /** What the panel does once a status change settles. */
  datatype Settled = Refetch | ShowError(text: string)

  /**
   * The panel's state: the open card and whether a status change is in
   * flight (`statusMutation.isPending`). The list itself is the fetched query
   * data, which the panel never edits.
   */
  class PartnerPanel {
    var expandedCard: Option<string>
    var statusPending: bool
    var leaves: seq<LeaveRecord>

    constructor (fetched: seq<LeaveRecord>)
      ensures expandedCard == None && !statusPending && leaves == fetched
    {
      expandedCard := None;
      statusPending := false;
      leaves := fetched;
    }

    /** toggleExpand(leaveId). */
    method ToggleExpand(leaveId: string)
      modifies this`expandedCard
      ensures expandedCard == Toggled(old(expandedCard), leaveId)
    {
      expandedCard := if expandedCard == Some(leaveId) then None else Some(leaveId);
    }

    /** Every status change the panel's enabled buttons can send, over the whole list, as it is now. */
    function Requests(): (reqs: set<StatusChange>)
      reads this
      ensures statusPending ==> reqs == {}
      ensures forall r :: r in reqs ==>
        r.status in {"Approved", "Rejected"} &&
        exists i :: 0 <= i < |leaves| && leaves[i].leaveId == r.leaveId && leaves[i].status == "Pending"
    {
      set i, a | 0 <= i < |leaves| && a in CardActions(leaves[i], expandedCard, statusPending) && !a.disabled :: a.request
    }

    /**
     * A click on one of the buttons of a listed record's card: the request is
     * sent, and the change put in flight, only when the card shows that
     * button enabled; what is sent is one of the panel's current requests.
     */
    method Press(leave: LeaveRecord, kind: ActionKind) returns (sent: Option<StatusChange>)
      requires leave in leaves
      modifies this`statusPending
      ensures sent.Some? <==> !old(statusPending) && CardActions(leave, expandedCard, false) != []
      ensures sent.Some? ==> sent.value == StatusChange(leave.leaveId, if kind == Approve then "Approved" else "Rejected")
      ensures sent.Some? ==> sent.value in old(Requests())
      ensures statusPending == (old(statusPending) || sent.Some?)
    {
      var acts := CardActions(leave, expandedCard, statusPending);
      if acts != [] && !statusPending {
        var a := if kind == Reject then acts[0] else acts[1];
        var i :| 0 <= i < |leaves| && leaves[i] == leave;
        assert a in CardActions(leaves[i], expandedCard, statusPending) && !a.disabled;
        sent := Some(a.request);
        statusPending := true;
      } else {
        sent := None;
      }
    }

    /**
     * The status mutation settles: it is no longer in flight; success asks for
     * a re-fetch, failure shows the server's message or the fixed fallback;
     * neither edits the list or the open card.
     */
    method OnStatusSettled(response: Response<string>) returns (next: Settled)
      modifies this`statusPending
      ensures !statusPending
      ensures response.Ok? ==> next == Refetch
      ensures response.Err? ==> next == ShowError(ErrorText(response.message, FailureFallback))
    {
      statusPending := false;
      match response
      case Ok(_) => next := Refetch;
      case Err(message) => next := ShowError(ErrorText(message, FailureFallback));
    }
  }
}
