/** The location button: one geolocation request at a time, its two
    callbacks, and what it hands to the form through `onLocationChange`. */
module Geolocation {
  import opened Types

  /** The options of a position request. */
  datatype PositionOptions = PositionOptions(enableHighAccuracy: bool, timeoutMs: nat, maximumAgeMs: nat)

  /** Every request asks for a fresh, high-accuracy fix within ten seconds. */
  const REQUEST_OPTIONS := PositionOptions(true, 10000, 0)

  /** The coordinates of a position fix. */
  datatype Coordinates = Coordinates(latitude: real, longitude: real, accuracy: real)

  /** The error codes a failed request reports: the constants
      `PERMISSION_DENIED`, `POSITION_UNAVAILABLE` and `TIMEOUT` of the
      `GeolocationPositionError` interface of the W3C Geolocation API. */
  const PERMISSION_DENIED: int := 1
  const POSITION_UNAVAILABLE: int := 2
  const TIMEOUT: int := 3

  const UNSUPPORTED_MESSAGE := "Geolocation is not supported by your browser"
  const DENIED_MESSAGE := "Please allow location access to continue"
  const UNAVAILABLE_MESSAGE := "Location information is unavailable"
  const TIMEOUT_MESSAGE := "The request to get location timed out"
  const UNKNOWN_MESSAGE := "An unknown error occurred"

  /** The message shown for a failed request's error code. */
  function ErrorMessage(code: int): (msg: string)
    ensures msg == DENIED_MESSAGE <==> code == PERMISSION_DENIED
    ensures msg == UNAVAILABLE_MESSAGE <==> code == POSITION_UNAVAILABLE
    ensures msg == TIMEOUT_MESSAGE <==> code == TIMEOUT
    ensures msg == UNKNOWN_MESSAGE <==> code !in {PERMISSION_DENIED, POSITION_UNAVAILABLE, TIMEOUT}
  {
    if code == PERMISSION_DENIED then DENIED_MESSAGE
    else if code == POSITION_UNAVAILABLE then UNAVAILABLE_MESSAGE
    else if code == TIMEOUT then TIMEOUT_MESSAGE
    else UNKNOWN_MESSAGE
  }

  /** The location a successful fix yields. */
  function FromFix(fix: Coordinates): (l: GeoLocation)
    ensures l.latitude == fix.latitude && l.longitude == fix.longitude
    ensures l.accuracy == Some(fix.accuracy)
  {
    GeoLocation(fix.latitude, fix.longitude, Some(fix.accuracy))
  }

  class LocationButton {
    var location: Option<GeoLocation>
    var isLoading: bool
    var error: Option<string>
    /** The requests made so far, with their options. */
    ghost var requests: seq<PositionOptions>
    /** How many of them have had their callback. */
    ghost var settled: nat

    /** At most one request is outstanding, exactly while the button shows
        it is loading, and every request used the fixed options. */
    ghost predicate Valid()
      reads this
    {
      && settled <= |requests| <= settled + 1
      && (isLoading <==> settled < |requests|)
      && forall k :: 0 <= k < |requests| ==> requests[k] == REQUEST_OPTIONS
    }

    constructor ()
      ensures Valid()
      ensures location == None && !isLoading && error == None && requests == []
    {
      location := None;
      isLoading := false;
      error := None;
      requests := [];
      settled := 0;
    }

    /** The click handler; the button is disabled while a request is
        outstanding. `supported` says whether the browser offers geolocation. */
    method GetLocation(supported: bool)
      requires Valid() && !isLoading
      modifies this
      ensures Valid()
      ensures location == old(location) && settled == old(settled)
      ensures !supported ==>
        error == Some(UNSUPPORTED_MESSAGE) && isLoading == old(isLoading) && requests == old(requests)
      ensures supported ==>
        error == None && isLoading && requests == old(requests) + [REQUEST_OPTIONS]
    {
      if !supported {
        error := Some(UNSUPPORTED_MESSAGE);
        return;
      }
      isLoading := true;
      error := None;
      requests := requests + [REQUEST_OPTIONS];
    }

    /** The success callback; `told` is what `onLocationChange` receives. */
    method OnPosition(fix: Coordinates) returns (told: Option<GeoLocation>)
      requires Valid() && isLoading
      modifies this
      ensures Valid()
      ensures location == Some(FromFix(fix)) && told == location
      ensures !isLoading && error == old(error)
      ensures requests == old(requests) && settled == old(settled) + 1
    {
      var newLocation := FromFix(fix);
      location := Some(newLocation);
      told := Some(newLocation);
      isLoading := false;
      settled := settled + 1;
    }

    /** The error callback: the form is told there is no location, while this
        button keeps showing the location it last obtained. */
    method OnPositionError(code: int) returns (told: Option<GeoLocation>)
      requires Valid() && isLoading
      modifies this
      ensures Valid()
      ensures told == None && error == Some(ErrorMessage(code))
      ensures !isLoading && location == old(location)
      ensures requests == old(requests) && settled == old(settled) + 1
    {
      isLoading := false;
      error := Some(ErrorMessage(code));
      told := None;
      settled := settled + 1;
    }
  }

  /** A successful request followed by a failed retry: the form ends with no
      location, while the button still displays the first fix. */
  method RetryAfterSuccessFails(fix: Coordinates, code: int)
    returns (displayed: Option<GeoLocation>, formGets: Option<GeoLocation>, shownError: Option<string>)
    ensures displayed == Some(FromFix(fix))
    ensures formGets == None
    ensures shownError == Some(ErrorMessage(code))
  {
    var button := new LocationButton();
    button.GetLocation(true);
    var _ := button.OnPosition(fix);
    button.GetLocation(true);
    formGets := button.OnPositionError(code);
    displayed, shownError := button.location, button.error;
  }
}
