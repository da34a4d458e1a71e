/**
 * The status badge and, for the request's owner, the menu that changes the
 * status. The component keeps no status of its own: it always shows the
 * `request.status` it is given.
 */
module RequestStatus {
  import opened Wrappers
  import opened Requests

  /** The row update sent to the store. */
  datatype StatusWrite = StatusWrite(id: string, status: string, updatedAt: string)

  /** The owner's menu: all four statuses, the current one disabled. */
  function StatusMenu(current: string, isLoading: bool): (items: seq<MenuItem>)
    ensures |items| == 4
    ensures forall i :: 0 <= i < 4 ==> items[i].value == Statuses[i]
    ensures forall i :: 0 <= i < 4 ==> (items[i].enabled <==> !isLoading && items[i].value != current)
  {
    Menu(Statuses, current, isLoading)
  }

  /** There is no transition rule: from any status, every other status can be picked. */
  lemma AnyStatusChangeOffered(from: string, to: string)
    requires IsStatus(from) && IsStatus(to) && from != to
    ensures exists i :: 0 <= i < 4 && StatusMenu(from, false)[i] == MenuItem(to, true)
  {
    MenuEnables(Statuses, from, false, to);
    var i :| 0 <= i < |Statuses| && Menu(Statuses, from, false)[i] == MenuItem(to, true);
    assert StatusMenu(from, false)[i] == MenuItem(to, true);
  }

  class StatusControl {
    const request: HelpRequest
    const currentUserId: string
    var isLoading: bool

    constructor (request: HelpRequest, currentUserId: string)
      ensures this.request == request && this.currentUserId == currentUserId && !isLoading
    {
      this.request := request;
      this.currentUserId := currentUserId;
      isLoading := false;
    }

    predicate IsOwner() {
      currentUserId == request.userId
    }

    /**
     * `handleStatusChange` as written: after a successful write it calls
     * `onStatusChange()` with no argument, so `notified` says only whether the
     * callback ran.
     */
    method HandleStatusChangeAsWritten(newStatus: string, writeSucceeds: bool, now: string)
      returns (write: Option<StatusWrite>, notified: bool)
      modifies this`isLoading
      ensures !IsOwner() ==> write == None && !notified && isLoading == old(isLoading)
      ensures IsOwner() ==> write == Some(StatusWrite(request.id, newStatus, now)) && !isLoading
      ensures notified <==> IsOwner() && writeSucceeds
    {
      notified := false;
      if !IsOwner() {
        write := None;
        return;
      }
      isLoading := true;
      write := Some(StatusWrite(request.id, newStatus, now));
      if writeSucceeds {
        notified := true;
      }
      isLoading := false;
    }

    /**
     * `handleStatusChange` with the callback given the updated record, as the
     * card's handler expects: the request with only `status` and `updated_at`
     * replaced, the latter equal to the one written.
     */
    method HandleStatusChange(newStatus: string, writeSucceeds: bool, now: string)
      returns (write: Option<StatusWrite>, notified: Option<HelpRequest>)
      modifies this`isLoading
      ensures !IsOwner() ==> write == None && notified == None && isLoading == old(isLoading)
      ensures IsOwner() ==> write == Some(StatusWrite(request.id, newStatus, now)) && !isLoading
      ensures notified.Some? <==> IsOwner() && writeSucceeds
      ensures notified.Some? ==> notified.value == request.(status := newStatus, updatedAt := now)
    {
      notified := None;
      if !IsOwner() {
        write := None;
        return;
      }
      isLoading := true;
      var updatedAt := now;
      write := Some(StatusWrite(request.id, newStatus, updatedAt));
      if writeSucceeds {
        notified := Some(request.(status := newStatus, updatedAt := updatedAt));
      }
      isLoading := false;
    }

    /** The menu an owner sees, built from the `request.status` prop; a non-owner sees only the badge. */
    function OwnerMenu(): (items: Option<seq<MenuItem>>)
      reads this
      ensures items.Some? <==> IsOwner()
      ensures items.Some? ==> items.value == StatusMenu(request.status, isLoading)
    {
      if IsOwner() then Some(StatusMenu(request.status, isLoading)) else None
    }
  }
}
