/**
 * Submitting a new help request: geocode a visible location, check the
 * urgency, then insert one record owned by the submitting user with status
 * "open".
 */
module NewRequestForm {
  import opened Wrappers
  import opened Requests

  /** The row inserted into the store. */
  datatype NewRecord = NewRecord(
    userId: string,
    title: string,
    description: string,
    category: string,
    urgencyLevel: string,
    location: string,
    locationHidden: bool,
    status: string,
    geoLocation: Option<string>)

  datatype SubmitOutcome =
    | GeocodeFailed
    | InvalidUrgency
    | Inserted(record: NewRecord, succeeded: bool)

  class NewRequestForm {
    const userId: string
    var isSubmitting: bool
    var geoError: Option<string>

    constructor (userId: string)
      ensures this.userId == userId && !isSubmitting && geoError == None
    {
      this.userId := userId;
      isSubmitting := false;
      geoError := None;
    }

    /**
     * `handleSubmit`. `geocode` answers address lookups and `insertSucceeds`
     * is the store's answer; `lookups` lists the addresses looked up, and
     * `redirect` is where the page goes afterwards.
     */
    method HandleSubmit(form: RequestForm, geocode: string -> Option<Coord>, insertSucceeds: bool)
      returns (lookups: seq<string>, outcome: SubmitOutcome, redirect: Option<string>)
      modifies this`isSubmitting, this`geoError
      ensures lookups == if form.location != "" && !LocationHidden(form) then [form.location] else []
      ensures outcome.GeocodeFailed? <==> lookups != [] && geocode(form.location).None?
      ensures geoError == if outcome.GeocodeFailed? then Some(GeoErrorMessage) else None
      ensures outcome.InvalidUrgency? <==> !outcome.GeocodeFailed? && !IsUrgency(form.urgencyLevel)
      ensures outcome.Inserted? ==> outcome.record == NewRecord(
        userId, form.title, form.description, form.category, form.urgencyLevel,
        form.location, LocationHidden(form), "open",
        if lookups != [] then Some(PointText(geocode(form.location).value)) else None)
      ensures outcome.Inserted? ==> outcome.succeeded == insertSucceeds
      ensures redirect == if outcome.Inserted? && outcome.succeeded then Some("/dashboard") else None
      ensures !isSubmitting
    {
      isSubmitting := true;
      geoError := None;
      redirect := None;
      lookups := [];

      var location := form.location;
      var locationHidden := form.locationHiddenField == Some("true");

      var geoLocation: Option<Coord> := None;
      if location != "" && !locationHidden {
        lookups := lookups + [location];
        geoLocation := geocode(location);
        if geoLocation.None? && !locationHidden {
          geoError := Some(GeoErrorMessage);
          isSubmitting := false;
          return lookups, GeocodeFailed, None;
        }
      }

      var urgencyLevel := form.urgencyLevel;
      if urgencyLevel !in Urgencies {
        isSubmitting := false;
        return lookups, InvalidUrgency, None;
      }

      var record := NewRecord(
        userId := userId,
        title := form.title,
        description := form.description,
        category := form.category,
        urgencyLevel := urgencyLevel,
        location := location,
        locationHidden := locationHidden,
        status := "open",
        geoLocation := if geoLocation.Some? then Some(PointText(geoLocation.value)) else None);
      outcome := Inserted(record, insertSucceeds);
      if insertSucceeds {
        redirect := Some("/dashboard");
      }
      isSubmitting := false;
    }
  }
}
