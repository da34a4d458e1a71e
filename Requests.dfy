/** The help-request entity and the enumerations it is checked against. */
module Requests {
  import opened Wrappers
  import Json

  /**
   * A help request as the feed validator builds it. `urgencyLevel` and `status`
   * are plain strings, because nothing at run time stops other code from
   * storing any string there; `IsUrgency` and `IsStatus` say which are legal.
   * `location` and `geoLocation` are `None` when they are `null`.
   */
  datatype HelpRequest = HelpRequest(
    id: string,
    userId: string,
    title: string,
    description: string,
    category: string,
    urgencyLevel: string,
    location: Option<string>,
    geoLocation: Option<string>,
    locationHidden: bool,
    status: string,
    createdAt: string,
    updatedAt: string)

  const Urgencies: seq<string> := ["low", "medium", "high"]
  const Statuses: seq<string> := ["open", "in_progress", "completed", "cancelled"]

  predicate IsUrgency(s: string) {
    s in Urgencies
  }

  predicate IsStatus(s: string) {
    s in Statuses
  }

  /** A geocoder hit; latitude and longitude are kept as the text they print as. */
  datatype Coord = Coord(lat: string, lon: string)

  /** The well-known-text point stored in `geo_location`: longitude first. */
  function PointText(c: Coord): string {
    "POINT(" + c.lon + " " + c.lat + ")"
  }

  /** JavaScript truthiness of a nullable string. */
  predicate Present(s: Option<string>) {
    s.Some? && s.value != ""
  }

  /** One entry of an owner's drop-down menu. */
  datatype MenuItem = MenuItem(value: string, enabled: bool)

  /**
   * The owner's menu over `values`: every value is offered in order, and an
   * entry is enabled unless a write is in flight or it is the current value.
   */
  function Menu(values: seq<string>, current: string, isLoading: bool): (items: seq<MenuItem>)
    ensures |items| == |values|
    ensures forall i :: 0 <= i < |items| ==> items[i].value == values[i]
    ensures forall i :: 0 <= i < |items| ==> items[i].enabled == (!isLoading && values[i] != current)
  {
    seq(|values|, i requires 0 <= i < |values| => MenuItem(values[i], !isLoading && values[i] != current))
  }

  /** A value can be picked from the menu exactly when it is offered, differs from the current one and no write is in flight. */
  lemma MenuEnables(values: seq<string>, current: string, isLoading: bool, v: string)
    ensures (exists i :: 0 <= i < |values| && Menu(values, current, isLoading)[i] == MenuItem(v, true))
      <==> v in values && v != current && !isLoading
  {
    var items := Menu(values, current, isLoading);
    if v in values && v != current && !isLoading {
      var i :| 0 <= i < |values| && values[i] == v;
      assert items[i] == MenuItem(v, true);
    }
  }

  /**
   * The fields a request form submits. `locationHiddenField` is the checkbox's
   * value, absent (`None`) when it is not ticked.
   */
  datatype RequestForm = RequestForm(
    title: string,
    description: string,
    category: string,
    urgencyLevel: string,
    location: string,
    locationHiddenField: Option<string>)

  /** `formData.get("location_hidden") === "true"`. */
  predicate LocationHidden(form: RequestForm) {
    form.locationHiddenField == Some("true")
  }

  const GeoErrorMessage := "Could not find coordinates for the provided location. Please check the address."
}
