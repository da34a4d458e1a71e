/**
 * The urgency badge and, for the request's owner, the menu that changes the
 * urgency: an owner check, one remote write, and a local commit only when
 * the write succeeded.
 */
module UrgencyLevel {
  import opened Wrappers
  import opened Requests

  /** The row update sent to the store. */
  datatype UrgencyWrite = UrgencyWrite(id: string, urgencyLevel: string, updatedAt: string)

  const GreenClass := "bg-green-100 text-green-800"
  const YellowClass := "bg-yellow-100 text-yellow-800"
  const RedClass := "bg-red-100 text-red-800"
  const GrayClass := "bg-gray-100 text-gray-800"

  function LowerChar(c: char): char {
    if 'A' <= c <= 'Z' then (c as int + 32) as char else c
  }

  /** `toLowerCase` on ASCII letters. */
  function ToLower(s: string): (t: string)
    ensures |t| == |s|
    ensures forall i :: 0 <= i < |s| ==> t[i] == LowerChar(s[i])
  {
    seq(|s|, i requires 0 <= i < |s| => LowerChar(s[i]))
  }

  /** `getUrgencyColor`: the colour of the lower-cased key, gray for anything else. */
  function UrgencyColor(urgency: string): (c: string)
    ensures ToLower(urgency) == "low" ==> c == GreenClass
    ensures ToLower(urgency) == "medium" ==> c == YellowClass
    ensures ToLower(urgency) == "high" ==> c == RedClass
    ensures c == GrayClass <==> !IsUrgency(ToLower(urgency))
  {
    var key := ToLower(urgency);
    if key == "low" then GreenClass
    else if key == "medium" then YellowClass
    else if key == "high" then RedClass
    else GrayClass
  }

  /** Case does not matter to the colour: "HIGH", "High" and "high" look the same. */
  lemma ColorIgnoresCase(u: string)
    ensures UrgencyColor(u) == UrgencyColor(ToLower(u))
  {
    var t := ToLower(u);
    assert ToLower(t) == t by {
      forall i | 0 <= i < |t| ensures LowerChar(t[i]) == t[i] {
      }
    }
  }

  /** The owner's menu: exactly low, medium and high, the current one disabled. */
  function UrgencyMenu(currentUrgency: string, isLoading: bool): (items: seq<MenuItem>)
    ensures |items| == 3 && items[0].value == "low" && items[1].value == "medium" && items[2].value == "high"
    ensures forall i :: 0 <= i < 3 ==> (items[i].enabled <==> !isLoading && items[i].value != currentUrgency)
  {
    Menu(Urgencies, currentUrgency, isLoading)
  }

  class UrgencyControl {
    const request: HelpRequest
    const currentUserId: string
    var currentUrgency: string
    var isLoading: bool

    constructor (request: HelpRequest, currentUserId: string)
      ensures this.request == request && this.currentUserId == currentUserId
      ensures currentUrgency == request.urgencyLevel && !isLoading
    {
      this.request := request;
      this.currentUserId := currentUserId;
      currentUrgency := request.urgencyLevel;
      isLoading := false;
    }

    predicate IsOwner() {
      currentUserId == request.userId
    }

    /**
     * `handleUrgencyChange`. `writeSucceeds` is the store's answer and `now`
     * the clock reading; `notified` is the record passed to `onUrgencyChange`.
     * The argument is not checked against the legal urgencies.
     */
    method HandleUrgencyChange(newUrgency: string, writeSucceeds: bool, now: string)
      returns (write: Option<UrgencyWrite>, notified: Option<HelpRequest>, ghost loadingAtWrite: bool)
      modifies this`currentUrgency, this`isLoading
      ensures !IsOwner() ==> write == None && notified == None
      ensures !IsOwner() ==> currentUrgency == old(currentUrgency) && isLoading == old(isLoading)
      ensures IsOwner() ==> write == Some(UrgencyWrite(request.id, newUrgency, now)) && loadingAtWrite && !isLoading
      ensures IsOwner() && writeSucceeds ==>
        && currentUrgency == newUrgency
        && notified == Some(request.(urgencyLevel := newUrgency, updatedAt := now))
      ensures IsOwner() && !writeSucceeds ==> currentUrgency == old(currentUrgency) && notified == None
      ensures notified.Some? ==> write.Some? && notified.value.updatedAt == write.value.updatedAt
    {
      notified := None;
      loadingAtWrite := false;
      if !IsOwner() {
        write := None;
        return;
      }
      isLoading := true;
      var updatedAt := now;
      write := Some(UrgencyWrite(request.id, newUrgency, updatedAt));
      loadingAtWrite := isLoading;
      if writeSucceeds {
        currentUrgency := newUrgency;
        notified := Some(request.(urgencyLevel := newUrgency, updatedAt := updatedAt));
      }
      isLoading := false;
    }

    /** The menu an owner sees; a non-owner sees only the badge. */
    function OwnerMenu(): (items: Option<seq<MenuItem>>)
      reads this
      ensures items.Some? <==> IsOwner()
      ensures items.Some? ==> items.value == UrgencyMenu(currentUrgency, isLoading)
    {
      if IsOwner() then Some(UrgencyMenu(currentUrgency, isLoading)) else None
    }
  }
}
