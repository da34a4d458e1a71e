/**
 * One request card: what it shows to whom, where its buttons lead, the local
 * copy of the request it keeps, and how a status change travels from the
 * status control through the card to the feed.
 */
module RequestCard {
  import opened Wrappers
  import opened Requests
  import HelpFeed

  /** `formatLocation`: the location text, unless it is empty, null or hidden. */
  function FormatLocation(request: HelpRequest): (shown: Option<string>)
    ensures shown.Some? <==> Present(request.location) && !request.locationHidden
    ensures shown.Some? ==> shown == request.location
  {
    if !Present(request.location) || request.locationHidden then None else request.location
  }

  /** `currentUserId === request.user_id`; an absent viewer owns nothing. */
  predicate IsOwner(currentUserId: Option<string>, request: HelpRequest)
    ensures currentUserId.None? ==> !IsOwner(currentUserId, request)
  {
    currentUserId == Some(request.userId)
  }

  /** Where "I Can Help" navigates. */
  function OfferHelpTarget(currentUserId: Option<string>, id: string): string {
    if !Present(currentUserId) then "/login" else "/requests/" + id
  }

  /** A viewer who is not signed in is sent to the login page, and only such a viewer. */
  lemma OfferHelpTargets(currentUserId: Option<string>, id: string)
    ensures OfferHelpTarget(currentUserId, id) == "/login" <==> !Present(currentUserId)
    ensures Present(currentUserId) ==> OfferHelpTarget(currentUserId, id) == "/requests/" + id
  {
    if Present(currentUserId) {
      assert OfferHelpTarget(currentUserId, id)[1] == 'r';
    }
  }

  /** What a card renders. `urgencyViewer` is the user id handed to the urgency control. */
  datatype CardFace = CardFace(
    title: string,
    description: string,
    category: string,
    location: Option<string>,
    urgencyViewer: string,
    statusControl: bool,
    offerHelp: bool,
    offerHelpEnabled: bool,
    edit: bool)

  /** The card's markup, reduced to what it shows and which controls it offers. */
  function RenderCard(request: HelpRequest, currentUserId: Option<string>, isLoading: bool): (f: CardFace)
    ensures request.locationHidden ==> f.location == None
    ensures f.location.Some? ==> f.location == request.location && f.location.value != ""
    ensures f.statusControl <==> Present(currentUserId)
    ensures !Present(currentUserId) ==> f.urgencyViewer == ""
    ensures Present(currentUserId) ==> f.urgencyViewer == currentUserId.value
    ensures f.offerHelp <==> !IsOwner(currentUserId, request) && request.status == "open"
    ensures f.edit <==> IsOwner(currentUserId, request)
    ensures !(f.offerHelp && f.edit)
  {
    var owner := IsOwner(currentUserId, request);
    CardFace(
      title := request.title,
      description := request.description,
      category := request.category,
      location := FormatLocation(request),
      urgencyViewer := if Present(currentUserId) then currentUserId.value else "",
      statusControl := Present(currentUserId),
      offerHelp := !owner && request.status == "open",
      offerHelpEnabled := !isLoading,
      edit := owner)
  }

  class Card {
    const currentUserId: Option<string>
    var request: HelpRequest
    var isLoading: bool

    /** The local copy is taken from the prop once, when the card is created. */
    constructor (initialRequest: HelpRequest, currentUserId: Option<string>)
      ensures request == initialRequest && this.currentUserId == currentUserId && !isLoading
    {
      request := initialRequest;
      this.currentUserId := currentUserId;
      isLoading := false;
    }

    /** `handleOfferHelp`: returns the navigation target; loading ends false when it was set. */
    method OfferHelp() returns (target: string)
      modifies this`isLoading
      ensures target == OfferHelpTarget(currentUserId, request.id)
      ensures isLoading == if Present(currentUserId) then false else old(isLoading)
    {
      if !Present(currentUserId) {
        return "/login";
      }
      isLoading := true;
      target := "/requests/" + request.id;
      isLoading := false;
    }

    /** `handleStatusChange`: keep the new record and pass it on to the feed. */
    method HandleStatusChange(updated: HelpRequest) returns (forwarded: HelpRequest)
      modifies this`request
      ensures request == updated && forwarded == updated
    {
      request := updated;
      forwarded := updated;
    }

    /** `handleUrgencyChange`: keep the new record; the feed is not told. */
    method HandleUrgencyChange(updated: HelpRequest)
      modifies this`request
      ensures request == updated
    {
      request := updated;
    }

    function Face(): (f: CardFace)
      reads this
      ensures request.locationHidden ==> f.location == None
      ensures f.edit <==> IsOwner(currentUserId, request)
    {
      RenderCard(request, currentUserId, isLoading)
    }
  }

  // ---------------------------------------------------------------------------
  // A status change, from the status control to the feed

  /** What the feed's `handleRequestUpdate` does with the argument it receives. */
  datatype FeedCall = FeedUpdated(list: seq<HelpRequest>) | FeedThrew

  /**
   * `handleRequestUpdate(arg)` where `arg` may be `undefined` (`None`):
   * reading `id` off `undefined` throws a TypeError.
   */
  function ForwardToFeed(prev: seq<HelpRequest>, arg: Option<HelpRequest>): FeedCall {
    match arg
    case None => FeedThrew
    case Some(r) => FeedUpdated(HelpFeed.LocallyUpdatedList(prev, r))
  }

  /**
   * The card's local request and the feed's outcome after the status control
   * invokes the card's handler with `arg`. A throw from the feed propagates
   * back into the status control's `try`, which then reports a failed update.
   */
  datatype StatusChain = StatusChain(cardRequest: Option<HelpRequest>, feed: FeedCall, failureReported: bool)

  function CardThenFeed(prev: seq<HelpRequest>, arg: Option<HelpRequest>): StatusChain {
    var feed := ForwardToFeed(prev, arg);
    StatusChain(arg, feed, feed.FeedThrew?)
  }

  /**
   * As written, the status control calls `onStatusChange()` with no argument:
   * the card replaces its request with `undefined`, the feed's handler throws,
   * and the user is told the update failed although the store was written.
   */
  lemma StatusChainAsWrittenFails(prev: seq<HelpRequest>)
    ensures CardThenFeed(prev, None) == StatusChain(None, FeedThrew, true)
  {
  }

  /**
   * When the status control passes the updated record, the card shows it and
   * every feed entry with that id takes the new status and timestamp; the rest
   * of the feed is untouched.
   */
  lemma StatusChainReachesFeed(prev: seq<HelpRequest>, request: HelpRequest, newStatus: string, now: string)
    requires IsStatus(newStatus) && IsUrgency(request.urgencyLevel)
    ensures var updated := request.(status := newStatus, updatedAt := now);
      var c := CardThenFeed(prev, Some(updated));
      && c.cardRequest == Some(updated)
      && !c.failureReported
      && c.feed.FeedUpdated?
      && |c.feed.list| == |prev|
      && (forall i :: 0 <= i < |prev| && prev[i].id == request.id ==> c.feed.list[i] == updated)
      && (forall i :: 0 <= i < |prev| && prev[i].id != request.id ==> c.feed.list[i] == prev[i])
  {
    var updated := request.(status := newStatus, updatedAt := now);
    HelpFeed.LocalUpdateAcceptance(prev, updated);
  }
}
