/**
 * Editing an owner's help request: a mount-time access check, then a submit
 * that geocodes only a changed or never-geocoded visible location, checks the
 * urgency and the stored status, and writes one update keyed by the request's id.
 */
module RequestEditForm {
  import opened Wrappers
  import opened Requests

  /** The columns the update writes; `id`, `user_id` and `created_at` are not among them. */
  datatype EditPayload = EditPayload(
    title: string,
    description: string,
    category: string,
    urgencyLevel: string,
    location: string,
    locationHidden: bool,
    status: string,
    geoLocation: Option<string>,
    updatedAt: string)

  datatype EditOutcome =
    | GeocodeFailed
    | InvalidUrgency
    | InvalidStatus
    | Updated(id: string, payload: EditPayload, succeeded: bool)

  /** JavaScript truthiness of `initialRequest.geo_location`. */
  predicate HasGeoLocation(request: HelpRequest) {
    Present(request.geoLocation)
  }

  /** Whether a submit looks the address up: visible, non-empty, and changed or never geocoded. */
  predicate NeedsGeocode(form: RequestForm, initial: HelpRequest)
    ensures LocationHidden(form) || form.location == "" ==> !NeedsGeocode(form, initial)
    ensures initial.location == Some(form.location) && HasGeoLocation(initial) ==> !NeedsGeocode(form, initial)
    ensures form.location != "" && !LocationHidden(form) && !HasGeoLocation(initial) ==> NeedsGeocode(form, initial)
  {
    && form.location != ""
    && !LocationHidden(form)
    && (Some(form.location) != initial.location || !HasGeoLocation(initial))
  }

  class RequestEditForm {
    const initialRequest: HelpRequest
    var isSubmitting: bool
    var geoError: Option<string>

    constructor (initialRequest: HelpRequest)
      ensures this.initialRequest == initialRequest && !isSubmitting && geoError == None
    {
      this.initialRequest := initialRequest;
      isSubmitting := false;
      geoError := None;
    }

    /** The mount-time access check: anyone but the owner is sent to the dashboard. */
    method CheckAccess(user: Option<string>) returns (redirect: Option<string>)
      ensures redirect.Some? <==> user != Some(initialRequest.userId)
      ensures redirect.Some? ==> redirect.value == "/dashboard"
    {
      if user.None? || user.value != initialRequest.userId {
        redirect := Some("/dashboard");
      } else {
        redirect := None;
      }
    }

    /**
     * `handleSubmit`. `geocode` answers address lookups, `updateSucceeds` is the
     * store's answer and `now` the clock reading. It does not check ownership again.
     */
    method HandleSubmit(form: RequestForm, geocode: string -> Option<Coord>, updateSucceeds: bool, now: string)
      returns (lookups: seq<string>, outcome: EditOutcome, redirect: Option<string>)
      modifies this`isSubmitting, this`geoError
      ensures lookups == if NeedsGeocode(form, initialRequest) then [form.location] else []
      ensures outcome.GeocodeFailed? <==> lookups != [] && geocode(form.location).None?
      ensures geoError == if outcome.GeocodeFailed? then Some(GeoErrorMessage) else None
      ensures outcome.InvalidUrgency? <==> !outcome.GeocodeFailed? && !IsUrgency(form.urgencyLevel)
      ensures outcome.InvalidStatus? <==>
        !outcome.GeocodeFailed? && IsUrgency(form.urgencyLevel) && !IsStatus(initialRequest.status)
      ensures outcome.Updated? ==> outcome.id == initialRequest.id && outcome.succeeded == updateSucceeds
      ensures outcome.Updated? ==> outcome.payload == EditPayload(
        form.title, form.description, form.category, form.urgencyLevel,
        form.location, LocationHidden(form), initialRequest.status,
        if lookups != [] then Some(PointText(geocode(form.location).value))
        else if Some(form.location) == initialRequest.location then initialRequest.geoLocation
        else None,
        now)
      ensures redirect == if outcome.Updated? && outcome.succeeded then Some("/dashboard") else None
      ensures !isSubmitting
    {
      isSubmitting := true;
      geoError := None;
      redirect := None;
      lookups := [];

      var location := form.location;
      var locationHidden := form.locationHiddenField == Some("true");

      var geoLocation: Option<Coord> := None;
      if location != "" && !locationHidden {
        if Some(location) != initialRequest.location || !HasGeoLocation(initialRequest) {
          lookups := lookups + [location];
          geoLocation := geocode(location);
          if geoLocation.None? && !locationHidden {
            geoError := Some(GeoErrorMessage);
            isSubmitting := false;
            return lookups, GeocodeFailed, None;
          }
        }
      }

      var urgencyLevel := form.urgencyLevel;
      if urgencyLevel !in Urgencies {
        isSubmitting := false;
        return lookups, InvalidUrgency, None;
      }

      var status := initialRequest.status;
      if status !in Statuses {
        isSubmitting := false;
        return lookups, InvalidStatus, None;
      }

      var payload := EditPayload(
        title := form.title,
        description := form.description,
        category := form.category,
        urgencyLevel := urgencyLevel,
        location := location,
        locationHidden := locationHidden,
        status := status,
        geoLocation :=
          if geoLocation.Some? then Some(PointText(geoLocation.value))
          else if Some(location) == initialRequest.location then initialRequest.geoLocation
          else None,
        updatedAt := now);
      outcome := Updated(initialRequest.id, payload, updateSucceeds);
      if updateSucceeds {
        redirect := Some("/dashboard");
      }
      isSubmitting := false;
    }
  }
}
