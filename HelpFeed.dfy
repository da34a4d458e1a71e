/**
 * The live feed of help requests: the structural validator for untyped
 * realtime payloads, the list updaters applied on INSERT, UPDATE and DELETE
 * events and on a card's local update, the status filter, and the feed
 * component whose state those updaters change.
 */
module HelpFeed {
  import opened Wrappers
  import opened Json
  import opened Requests

  /** The keys the validator reads, and so the only keys a converted record keeps. */
  const RecordKeys: set<string> := {
    "id", "user_id", "title", "description", "category", "urgency_level",
    "location", "geo_location", "location_hidden", "status", "created_at", "updated_at"
  }

  predicate NullOrString(v: Value) {
    v.Null? || v.Str?
  }

  /** `isValidRequestData`: every field present with the type the feed expects. */
  predicate IsValidRequestData(obj: Fields)
    ensures IsValidRequestData(obj) ==> RecordKeys <= obj.Keys
  {
    && Get(obj, "id").Str?
    && Get(obj, "user_id").Str?
    && Get(obj, "title").Str?
    && Get(obj, "description").Str?
    && Get(obj, "category").Str?
    && IsUrgency(Stringify(Get(obj, "urgency_level")))
    && NullOrString(Get(obj, "location"))
    && NullOrString(Get(obj, "geo_location"))
    && Get(obj, "location_hidden").Bool?
    && IsStatus(Stringify(Get(obj, "status")))
    && Get(obj, "created_at").Str?
    && Get(obj, "updated_at").Str?
  }

  /** A `string | null` field read as an optional string. */
  function NullableString(v: Value): Option<string> {
    if v.Str? then Some(v.s) else None
  }

  /** `validateAndConvertRequest`: `None` exactly when the validator rejects. */
  function ValidateAndConvert(obj: Fields): (r: Option<HelpRequest>)
    ensures r.Some? <==> IsValidRequestData(obj)
  {
    if !IsValidRequestData(obj) then None
    else Some(HelpRequest(
      id := Get(obj, "id").s,
      userId := Get(obj, "user_id").s,
      title := Get(obj, "title").s,
      description := Get(obj, "description").s,
      category := Get(obj, "category").s,
      urgencyLevel := Stringify(Get(obj, "urgency_level")),
      location := NullableString(Get(obj, "location")),
      geoLocation := NullableString(Get(obj, "geo_location")),
      locationHidden := Get(obj, "location_hidden").b,
      status := Stringify(Get(obj, "status")),
      createdAt := Get(obj, "created_at").s,
      updatedAt := Get(obj, "updated_at").s))
  }

  function NullableValue(s: Option<string>): Value {
    match s
    case Some(x) => Str(x)
    case None => Null
  }

  /** A typed request seen as the untyped record `isValidRequestData` inspects. */
  function ToPayload(r: HelpRequest): Fields {
    map[
      "id" := Str(r.id),
      "user_id" := Str(r.userId),
      "title" := Str(r.title),
      "description" := Str(r.description),
      "category" := Str(r.category),
      "urgency_level" := Str(r.urgencyLevel),
      "location" := NullableValue(r.location),
      "geo_location" := NullableValue(r.geoLocation),
      "location_hidden" := Bool(r.locationHidden),
      "status" := Str(r.status),
      "created_at" := Str(r.createdAt),
      "updated_at" := Str(r.updatedAt)]
  }

  /**
   * The validator in terms of the payload's shape: the string fields are strings
   * (empty ones included), and each enumerated field is one of its words,
   * possibly wrapped in one-element arrays, since only `String(x)` is compared.
   */
  lemma ValidatorAcceptsExactly(obj: Fields)
    ensures IsValidRequestData(obj) <==>
      && Get(obj, "id").Str? && Get(obj, "user_id").Str? && Get(obj, "title").Str?
      && Get(obj, "description").Str? && Get(obj, "category").Str?
      && Get(obj, "created_at").Str? && Get(obj, "updated_at").Str?
      && Unwrap(Get(obj, "urgency_level")).Str? && IsUrgency(Unwrap(Get(obj, "urgency_level")).s)
      && Unwrap(Get(obj, "status")).Str? && IsStatus(Unwrap(Get(obj, "status")).s)
      && NullOrString(Get(obj, "location")) && NullOrString(Get(obj, "geo_location"))
      && Get(obj, "location_hidden").Bool?
  {
    EnumCoercion(Get(obj, "urgency_level"), Urgencies);
    EnumCoercion(Get(obj, "status"), Statuses);
  }

  /** `String(v)` lands in a list of enumeration words exactly when `v` unwraps to one of them. */
  lemma EnumCoercion(v: Value, words: seq<string>)
    requires forall w :: w in words ==> PlainWord(w)
    ensures Stringify(v) in words <==> Unwrap(v).Str? && Unwrap(v).s in words
    ensures Stringify(v) in words ==> Stringify(v) == Unwrap(v).s
  {
    if Stringify(v) in words {
      StringifyPlainWord(v, Stringify(v));
    }
    if Unwrap(v).Str? && Unwrap(v).s in words {
      StringifyPlainWord(v, Unwrap(v).s);
    }
  }

  /**
   * On acceptance the converted record holds each checked field unchanged, and
   * the enumerated fields as the words they unwrap to.
   */
  lemma ConvertCopiesFields(obj: Fields)
    requires IsValidRequestData(obj)
    ensures var r := ValidateAndConvert(obj).value;
      && Str(r.id) == Get(obj, "id") && Str(r.userId) == Get(obj, "user_id")
      && Str(r.title) == Get(obj, "title") && Str(r.description) == Get(obj, "description")
      && Str(r.category) == Get(obj, "category")
      && Str(r.createdAt) == Get(obj, "created_at") && Str(r.updatedAt) == Get(obj, "updated_at")
      && NullableValue(r.location) == Get(obj, "location")
      && NullableValue(r.geoLocation) == Get(obj, "geo_location")
      && Bool(r.locationHidden) == Get(obj, "location_hidden")
      && Str(r.urgencyLevel) == Unwrap(Get(obj, "urgency_level"))
      && Str(r.status) == Unwrap(Get(obj, "status"))
      && IsUrgency(r.urgencyLevel) && IsStatus(r.status)
  {
    EnumCoercion(Get(obj, "urgency_level"), Urgencies);
    EnumCoercion(Get(obj, "status"), Statuses);
  }

  /** A typed request passes the validator exactly when its two enumerated fields are legal, and then converts back to itself. */
  lemma PayloadRoundTrip(r: HelpRequest)
    ensures IsValidRequestData(ToPayload(r)) <==> IsUrgency(r.urgencyLevel) && IsStatus(r.status)
    ensures IsUrgency(r.urgencyLevel) && IsStatus(r.status) ==> ValidateAndConvert(ToPayload(r)) == Some(r)
  {
    var p := ToPayload(r);
    assert Get(p, "urgency_level") == Str(r.urgencyLevel);
    assert Get(p, "status") == Str(r.status);
    assert NullableString(NullableValue(r.location)) == r.location;
    assert NullableString(NullableValue(r.geoLocation)) == r.geoLocation;
  }

  /** Converting is idempotent: a converted record, sent again, converts to itself. */
  lemma ConvertIdempotent(obj: Fields)
    requires IsValidRequestData(obj)
    ensures ValidateAndConvert(ToPayload(ValidateAndConvert(obj).value)) == ValidateAndConvert(obj)
  {
    ConvertCopiesFields(obj);
    PayloadRoundTrip(ValidateAndConvert(obj).value);
  }

  /** Keys the validator does not read have no effect on the outcome: they are dropped. */
  lemma ExtraKeysIgnored(obj: Fields, k: string, v: Value)
    requires k !in RecordKeys
    ensures ValidateAndConvert(obj[k := v]) == ValidateAndConvert(obj)
  {
    var obj' := obj[k := v];
    forall key | key in RecordKeys ensures Get(obj', key) == Get(obj, key) {
    }
    assert IsValidRequestData(obj') == IsValidRequestData(obj);
  }

  /** A payload without `urgency_level` is rejected, since `String(undefined)` is "undefined". */
  lemma MissingUrgencyRejected(obj: Fields)
    requires "urgency_level" !in obj
    ensures ValidateAndConvert(obj) == None
  {
    assert Stringify(Get(obj, "urgency_level")) == "undefined";
  }

  /** Absent `location` is rejected: only `null` or a string is accepted. */
  lemma MissingLocationRejected(obj: Fields)
    requires "location" !in obj || "geo_location" !in obj
    ensures ValidateAndConvert(obj) == None
  {
  }

  // ---------------------------------------------------------------------------
  // List updaters (the functions handed to `setRequests`)

  /** `prev.map(request => request.id === r.id ? r : request)`. */
  function ReplaceById(s: seq<HelpRequest>, r: HelpRequest): (t: seq<HelpRequest>)
    ensures |t| == |s|
  {
    seq(|s|, i requires 0 <= i < |s| => if s[i].id == r.id then r else s[i])
  }

  /** `s.filter(keep)`. */
  function Filter(s: seq<HelpRequest>, keep: HelpRequest -> bool): (t: seq<HelpRequest>)
    ensures |t| <= |s|
    ensures forall x :: x in t <==> x in s && keep(x)
  {
    if s == [] then []
    else if keep(s[0]) then [s[0]] + Filter(s[1..], keep)
    else Filter(s[1..], keep)
  }

  /** The DELETE handler's predicate: `request.id !== id`. */
  function OtherId(id: string): HelpRequest -> bool {
    (x: HelpRequest) => x.id != id
  }

  /** The status filter's predicate: `request.status === status`. */
  function WithStatus(status: string): HelpRequest -> bool {
    (x: HelpRequest) => x.status == status
  }

  function RemoveById(s: seq<HelpRequest>, id: string): seq<HelpRequest> {
    Filter(s, OtherId(id))
  }

  predicate HasId(s: seq<HelpRequest>, id: string) {
    exists i :: 0 <= i < |s| && s[i].id == id
  }

  /** The INSERT handler's update: prepend a valid record, otherwise keep the list. */
  function InsertedList(prev: seq<HelpRequest>, payload: Fields): (l: seq<HelpRequest>)
    ensures |l| == if IsValidRequestData(payload) then |prev| + 1 else |prev|
    ensures forall x :: x in l <==> x in prev || Some(x) == ValidateAndConvert(payload)
  {
    match ValidateAndConvert(payload)
    case Some(r) => [r] + prev
    case None => prev
  }

  /** The UPDATE handler's update: replace by id when valid, otherwise keep the list. */
  function UpdatedList(prev: seq<HelpRequest>, payload: Fields): (l: seq<HelpRequest>)
    ensures |l| == |prev|
    ensures forall i :: 0 <= i < |l| ==>
      l[i] == prev[i] || (Some(l[i]) == ValidateAndConvert(payload) && l[i].id == prev[i].id)
  {
    match ValidateAndConvert(payload)
    case Some(r) => ReplaceById(prev, r)
    case None => prev
  }

  /** The id a DELETE event's old record carries, when it is a string. */
  function DeletedId(oldRecord: Value): (id: Option<string>)
    ensures id.Some? <==> oldRecord.Obj? && Get(oldRecord.fields, "id").Str?
    ensures id.Some? ==> oldRecord.Obj? && id.value == Get(oldRecord.fields, "id").s
  {
    if Truthy(oldRecord) && oldRecord.Obj? && Get(oldRecord.fields, "id").Str? then Some(Get(oldRecord.fields, "id").s) else None
  }

  /** The DELETE handler's update: drop every record with that id. */
  function DeletedList(prev: seq<HelpRequest>, oldRecord: Value): (l: seq<HelpRequest>)
    ensures |l| <= |prev|
    ensures forall x :: x in l <==> x in prev && (DeletedId(oldRecord).None? || x.id != DeletedId(oldRecord).value)
  {
    match DeletedId(oldRecord)
    case Some(id) => RemoveById(prev, id)
    case None => prev
  }

  /** `handleRequestUpdate`'s update: replace by id when the record is valid. */
  function LocallyUpdatedList(prev: seq<HelpRequest>, updated: HelpRequest): (l: seq<HelpRequest>)
    ensures |l| == |prev|
    ensures forall i :: 0 <= i < |l| ==> l[i] == prev[i] || (l[i] == updated && prev[i].id == updated.id)
  {
    if IsValidRequestData(ToPayload(updated)) then ReplaceById(prev, updated) else prev
  }

  /** The filter choices of the feed's select. */
  predicate IsFilter(f: string) {
    f == "all" || IsStatus(f)
  }

  /** `filteredRequests`. */
  function Filtered(requests: seq<HelpRequest>, selected: string): (view: seq<HelpRequest>)
    ensures selected == "all" ==> view == requests
    ensures selected != "all" ==> forall x :: x in view <==> x in requests && x.status == selected
  {
    if selected == "all" then requests else Filter(requests, WithStatus(selected))
  }

  // ---------------------------------------------------------------------------
  // Properties of the updaters

  /** An insert prepends a valid record and grows the list by one; an invalid one changes nothing. */
  lemma InsertPrepends(prev: seq<HelpRequest>, payload: Fields)
    ensures IsValidRequestData(payload) ==>
      && |InsertedList(prev, payload)| == |prev| + 1
      && InsertedList(prev, payload)[0] == ValidateAndConvert(payload).value
      && InsertedList(prev, payload)[1..] == prev
    ensures !IsValidRequestData(payload) ==> InsertedList(prev, payload) == prev
  {
    if IsValidRequestData(payload) {
      assert InsertedList(prev, payload) == [ValidateAndConvert(payload).value] + prev;
    }
  }

  /** Inserting a record whose id is already listed keeps both: there is no de-duplication. */
  lemma InsertKeepsDuplicates(prev: seq<HelpRequest>, payload: Fields, k: int)
    requires IsValidRequestData(payload)
    requires 0 <= k < |prev| && prev[k].id == ValidateAndConvert(payload).value.id
    ensures var t := InsertedList(prev, payload); t[0].id == t[k + 1].id && !UniqueIds(t)
  {
    var t := InsertedList(prev, payload);
    assert t == [ValidateAndConvert(payload).value] + prev;
    assert t[k + 1] == prev[k];
  }

  /** Replacing by id: positions and length kept, matching records become `r`, others untouched. */
  lemma ReplaceByIdAt(s: seq<HelpRequest>, r: HelpRequest, i: int)
    requires 0 <= i < |s|
    ensures ReplaceById(s, r)[i].id == s[i].id
    ensures s[i].id == r.id ==> ReplaceById(s, r)[i] == r
    ensures s[i].id != r.id ==> ReplaceById(s, r)[i] == s[i]
  {
  }

  /** Replacing an id that is not listed leaves the list as it is. */
  lemma ReplaceAbsentIsNoop(s: seq<HelpRequest>, r: HelpRequest)
    requires !HasId(s, r.id)
    ensures ReplaceById(s, r) == s
  {
    var t := ReplaceById(s, r);
    forall i | 0 <= i < |s| ensures t[i] == s[i] {
      assert s[i].id != r.id;
    }
  }

  /** Replacing the same record twice is the same as replacing it once. */
  lemma ReplaceIdempotent(s: seq<HelpRequest>, r: HelpRequest)
    ensures ReplaceById(ReplaceById(s, r), r) == ReplaceById(s, r)
  {
    var t := ReplaceById(s, r);
    var u := ReplaceById(t, r);
    forall i | 0 <= i < |s| ensures u[i] == t[i] {
      assert t[i].id == s[i].id;
    }
  }

  /** An UPDATE event applied twice gives the list applying it once gives. */
  lemma UpdateEventIdempotent(prev: seq<HelpRequest>, payload: Fields)
    ensures UpdatedList(UpdatedList(prev, payload), payload) == UpdatedList(prev, payload)
  {
    if IsValidRequestData(payload) {
      ReplaceIdempotent(prev, ValidateAndConvert(payload).value);
    }
  }

  /** The local update, applied twice, gives the list applying it once gives. */
  lemma LocalUpdateIdempotent(prev: seq<HelpRequest>, updated: HelpRequest)
    ensures LocallyUpdatedList(LocallyUpdatedList(prev, updated), updated) == LocallyUpdatedList(prev, updated)
  {
    ReplaceIdempotent(prev, updated);
  }

  /**
   * The local update and the realtime echo of the same row agree: once the
   * store has sent back the record the card already applied, the list is the
   * one the local update produced.
   */
  lemma EchoAfterLocalUpdate(prev: seq<HelpRequest>, updated: HelpRequest)
    ensures UpdatedList(LocallyUpdatedList(prev, updated), ToPayload(updated)) == LocallyUpdatedList(prev, updated)
  {
    PayloadRoundTrip(updated);
    ReplaceIdempotent(prev, updated);
  }

  /** `handleRequestUpdate` accepts a typed record exactly when its urgency and status are legal. */
  lemma LocalUpdateAcceptance(prev: seq<HelpRequest>, updated: HelpRequest)
    ensures LocallyUpdatedList(prev, updated) ==
      if IsUrgency(updated.urgencyLevel) && IsStatus(updated.status) then ReplaceById(prev, updated) else prev
  {
    PayloadRoundTrip(updated);
  }

  /** Filtering counts: every kept record keeps its multiplicity, every other one disappears. */
  lemma {:induction false} FilterMultiset(s: seq<HelpRequest>, keep: HelpRequest -> bool, x: HelpRequest)
    ensures multiset(Filter(s, keep))[x] == if keep(x) then multiset(s)[x] else 0
    decreases |s|
  {
    if s != [] {
      FilterMultiset(s[1..], keep, x);
      assert s == [s[0]] + s[1..];
    }
  }

  /** Filtering keeps relative order: it distributes over concatenation. */
  lemma {:induction false} FilterConcat(a: seq<HelpRequest>, b: seq<HelpRequest>, keep: HelpRequest -> bool)
    ensures Filter(a + b, keep) == Filter(a, keep) + Filter(b, keep)
    decreases |a|
  {
    if a == [] {
      assert a + b == b;
    } else {
      assert (a + b)[1..] == a[1..] + b;
      FilterConcat(a[1..], b, keep);
    }
  }

  /** A filter that keeps everything returns the list itself. */
  lemma {:induction false} FilterKeepsAll(s: seq<HelpRequest>, keep: HelpRequest -> bool)
    requires forall x :: x in s ==> keep(x)
    ensures Filter(s, keep) == s
    decreases |s|
  {
    if s != [] {
      FilterKeepsAll(s[1..], keep);
    }
  }

  /** Deleting an id that is not listed is a no-op. */
  lemma DeleteAbsentIsNoop(s: seq<HelpRequest>, id: string)
    requires !HasId(s, id)
    ensures RemoveById(s, id) == s
  {
    forall x | x in s ensures x.id != id {
    }
    FilterKeepsAll(s, OtherId(id));
  }

  /** A DELETE removes every record with the id and nothing else, keeping order; without a string id it is a no-op. */
  lemma DeleteEvent(prev: seq<HelpRequest>, oldRecord: Value)
    ensures DeletedId(oldRecord).None? ==> DeletedList(prev, oldRecord) == prev
    ensures DeletedId(oldRecord).Some? ==>
      && !HasId(DeletedList(prev, oldRecord), DeletedId(oldRecord).value)
      && forall x :: x in prev && x.id != DeletedId(oldRecord).value ==> multiset(DeletedList(prev, oldRecord))[x] == multiset(prev)[x]
  {
    if DeletedId(oldRecord).Some? {
      var id := DeletedId(oldRecord).value;
      var t := DeletedList(prev, oldRecord);
      forall x | x in prev && x.id != id ensures multiset(t)[x] == multiset(prev)[x] {
        FilterMultiset(prev, OtherId(id), x);
      }
      forall i | 0 <= i < |t| ensures t[i].id != id {
        assert t[i] in t;
      }
    }
  }

  /** The filtered view keeps the stored order: filtering a concatenation concatenates the views. */
  lemma FilteredKeepsOrder(a: seq<HelpRequest>, b: seq<HelpRequest>, selected: string)
    ensures Filtered(a + b, selected) == Filtered(a, selected) + Filtered(b, selected)
  {
    if selected != "all" {
      FilterConcat(a, b, WithStatus(selected));
    }
  }

  /** Every listed id occurs once. */
  predicate UniqueIds(s: seq<HelpRequest>) {
    forall i, j :: 0 <= i < j < |s| ==> s[i].id != s[j].id
  }

  /** Replacing by id and removing by id never create a duplicate id; inserting a fresh id does not either. */
  lemma UniqueIdsPreserved(s: seq<HelpRequest>, r: HelpRequest, id: string)
    requires UniqueIds(s)
    ensures UniqueIds(ReplaceById(s, r))
    ensures UniqueIds(RemoveById(s, id))
    ensures !HasId(s, r.id) ==> UniqueIds([r] + s)
  {
    var t := ReplaceById(s, r);
    forall i, j | 0 <= i < j < |t| ensures t[i].id != t[j].id {
      assert t[i].id == s[i].id && t[j].id == s[j].id;
    }
    RemovePreservesUnique(s, id);
    if !HasId(s, r.id) {
      var u := [r] + s;
      forall i, j | 0 <= i < j < |u| ensures u[i].id != u[j].id {
        if i == 0 { assert u[j] == s[j - 1]; } else { assert u[i] == s[i - 1] && u[j] == s[j - 1]; }
      }
    }
  }

  lemma {:induction false} RemovePreservesUnique(s: seq<HelpRequest>, id: string)
    requires UniqueIds(s)
    ensures UniqueIds(RemoveById(s, id))
    decreases |s|
  {
    if s != [] {
      RemovePreservesUnique(s[1..], id);
      var rest := RemoveById(s[1..], id);
      if s[0].id != id {
        var t := [s[0]] + rest;
        assert RemoveById(s, id) == t;
        forall j | 0 < j < |t| ensures t[0].id != t[j].id {
          assert t[j] in rest;
          assert t[j] in s[1..];
          var k :| 0 <= k < |s[1..]| && s[1..][k] == t[j];
          assert s[k + 1] == t[j];
        }
      }
    }
  }

  /** A one-record feed receiving an update for that record holds just the new record. */
  lemma UpdateSingleton(a: HelpRequest, payload: Fields)
    requires IsValidRequestData(payload) && ValidateAndConvert(payload).value.id == a.id
    ensures UpdatedList([a], payload) == [ValidateAndConvert(payload).value]
  {
  }

  // ---------------------------------------------------------------------------
  // The feed component

  /** What the feed renders. */
  datatype FeedView =
    | ErrorPanel(message: string)
    | NoRequests(offerViewAll: bool)
    | Cards(shown: seq<HelpRequest>)

  const InvalidInsertMessage := "Received invalid request data"

  class Feed {
    var requests: seq<HelpRequest>
    var selectedStatus: string
    var error: Option<string>

    /** The selected filter is always one the select offers. */
    ghost predicate Valid()
      reads this
    {
      IsFilter(selectedStatus)
    }

    constructor (initialRequests: seq<HelpRequest>)
      ensures Valid()
      ensures requests == initialRequests && selectedStatus == "all" && error == None
    {
      requests := initialRequests;
      selectedStatus := "all";
      error := None;
    }

    /** A new `initialRequests` prop replaces the list wholesale. */
    method ReceiveInitialRequests(initialRequests: seq<HelpRequest>)
      modifies this`requests
      ensures requests == initialRequests
    {
      requests := initialRequests;
    }

    /** INSERT event: prepend a valid record; otherwise set the feed-level error. */
    method OnInsert(payload: Fields)
      modifies this`requests, this`error
      ensures requests == InsertedList(old(requests), payload)
      ensures error == if IsValidRequestData(payload) then old(error) else Some(InvalidInsertMessage)
    {
      var validated := ValidateAndConvert(payload);
      if validated.None? {
        error := Some(InvalidInsertMessage);
        return;
      }
      requests := [validated.value] + requests;
    }

    /** UPDATE event: replace by id when valid; an invalid record is only logged. */
    method OnUpdate(payload: Fields)
      modifies this`requests
      ensures requests == UpdatedList(old(requests), payload)
    {
      var validated := ValidateAndConvert(payload);
      if validated.None? {
        return;
      }
      requests := ReplaceById(requests, validated.value);
    }

    /** DELETE event: drop every record with the old record's id, when it is a string. */
    method OnDelete(oldRecord: Value)
      modifies this`requests
      ensures requests == DeletedList(old(requests), oldRecord)
    {
      var id := DeletedId(oldRecord);
      if id.Some? {
        requests := RemoveById(requests, id.value);
      }
    }

    /** The status select: only "all" and the four statuses are taken; anything else is refused. */
    method HandleStatusChange(newStatus: string) returns (refused: bool)
      requires Valid()
      modifies this`selectedStatus
      ensures Valid()
      ensures refused <==> !IsFilter(newStatus)
      ensures selectedStatus == if refused then old(selectedStatus) else newStatus
    {
      if newStatus == "all" || newStatus in Statuses {
        selectedStatus := newStatus;
        refused := false;
      } else {
        refused := true;
      }
    }

    /** The "View all requests" button. */
    method ViewAll()
      modifies this`selectedStatus
      ensures Valid() && selectedStatus == "all"
    {
      selectedStatus := "all";
    }

    /** `handleRequestUpdate`, the callback the cards report their local updates to. */
    method HandleRequestUpdate(updated: HelpRequest) returns (refused: bool)
      modifies this`requests
      ensures refused <==> !(IsUrgency(updated.urgencyLevel) && IsStatus(updated.status))
      ensures requests == LocallyUpdatedList(old(requests), updated)
    {
      PayloadRoundTrip(updated);
      if !IsValidRequestData(ToPayload(updated)) {
        return true;
      }
      requests := ReplaceById(requests, updated);
      refused := false;
    }

    /** The list the feed shows: the stored list narrowed to the selected status. */
    function FilteredRequests(): (view: seq<HelpRequest>)
      reads this
      ensures |view| <= |requests|
      ensures forall x :: x in view <==> x in requests && (selectedStatus == "all" || x.status == selectedStatus)
      ensures selectedStatus == "all" ==> view == requests
    {
      Filtered(requests, selectedStatus)
    }

    /** Once an error is set the feed shows only the error; otherwise the filtered cards. */
    function Render(): (v: FeedView)
      reads this
      ensures Present(error) <==> v.ErrorPanel?
      ensures v.Cards? ==> v.shown == FilteredRequests() && v.shown != []
      ensures v.NoRequests? ==> FilteredRequests() == [] && (v.offerViewAll <==> selectedStatus != "all")
    {
      if error.Some? && error.value != "" then ErrorPanel(error.value)
      else if FilteredRequests() == [] then NoRequests(selectedStatus != "all")
      else Cards(FilteredRequests())
    }
  }
}
