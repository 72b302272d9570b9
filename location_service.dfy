/** The client's location service (frontend/src/services/locationService.ts):
    reading the device position through the permission checks, the mapping
    of every failure to a `LocationError` code, the alert offered for such an
    error, and geocoding an address. Each call into the device, the browser
    or the geocoding server is an input: its outcome is a parameter. */
module LocationService {
  import opened Wrappers
  import opened AppTypes

  /** `new LocationError(code, message)`. */
  datatype LocationError = LocationError(code: string, message: string)

  /** What `getCurrentLocation` and `geocodeAddress` resolve or reject with. */
  datatype LocationResult = Found(coords: Coords) | Failed(error: LocationError)

  const DisabledError: LocationError := LocationError("LOCATION_DISABLED",
    "Location services are disabled. Please enable location services in your device settings.")
  const DeniedError: LocationError := LocationError("PERMISSION_DENIED",
    "Location permission is required to clock in. Please grant location access in your device settings.")
  const UnavailableError: LocationError := LocationError("LOCATION_UNAVAILABLE",
    "Unable to determine your location. Please try again.")
  const UnknownError: LocationError := LocationError("UNKNOWN_ERROR",
    "Failed to get your current location. Please try again.")

  const WebNotSupported: LocationError := LocationError("NOT_SUPPORTED",
    "Geolocation is not supported by this browser.")
  const WebDenied: LocationError := LocationError("PERMISSION_DENIED",
    "Location access denied. Please allow location access in your browser.")
  const WebUnavailable: LocationError := LocationError("LOCATION_UNAVAILABLE",
    "Location information is unavailable.")
  const WebTimeout: LocationError := LocationError("TIMEOUT",
    "Location request timed out. Please try again.")
  const WebUnknown: LocationError := LocationError("UNKNOWN_ERROR",
    "An unknown error occurred while retrieving location.")

  const GeocodingError: LocationError := LocationError("GEOCODING_FAILED",
    "Could not find location for the address provided. Please check the address and try again.")

  /** What one call into the device API does: return a value, or throw an
      error that is not a `LocationError`, with or without a `code`. */
  datatype Step<T> = Returns(value: T) | Throws(code: Option<string>)

  /** `checkLocationPermission` and `requestLocationPermission`: the
      reported status is 'granted'; an exception counts as not granted. */
  function PermissionGranted(step: Step<string>): (r: bool)
    ensures r <==> step == Returns("granted")
    ensures step.Throws? ==> !r
  {
    match step
    case Returns(status) => status == "granted"
    case Throws(_) => false
  }

  /** The browser's answer: a position, or a `GeolocationPositionError`
      code (1 denied, 2 unavailable, 3 timeout). */
  datatype WebOutcome = WebPosition(coords: Coords) | WebFailure(code: int)

  /** `getWebLocation`'s mapping of the browser's error codes. */
  function WebError(code: int): (e: LocationError)
    ensures code == 1 <==> e == WebDenied
    ensures code == 2 <==> e == WebUnavailable
    ensures code == 3 <==> e == WebTimeout
    ensures code !in {1, 2, 3} <==> e == WebUnknown
  {
    if code == 1 then WebDenied
    else if code == 2 then WebUnavailable
    else if code == 3 then WebTimeout
    else WebUnknown
  }

  /** `getWebLocation`. */
  function WebLocation(hasGeolocation: bool, outcome: WebOutcome): (r: LocationResult)
    ensures !hasGeolocation ==> r == Failed(WebNotSupported)
    ensures hasGeolocation && outcome.WebPosition? ==> r == Found(outcome.coords)
    ensures hasGeolocation && outcome.WebFailure? ==> r == Failed(WebError(outcome.code))
  {
    if !hasGeolocation then Failed(WebNotSupported)
    else match outcome
      case WebPosition(c) => Found(c)
      case WebFailure(code) => Failed(WebError(code))
  }

  /** The `catch` of `getCurrentLocation` for an error that is not already
      a `LocationError`: classified by its `code`. */
  function ClassifyThrown(code: Option<string>): (e: LocationError)
    ensures code == Some("E_LOCATION_SERVICES_DISABLED") ==> e == DisabledError
    ensures code == Some("E_LOCATION_UNAVAILABLE") ==> e == UnavailableError
    ensures code !in {Some("E_LOCATION_SERVICES_DISABLED"), Some("E_LOCATION_UNAVAILABLE")} ==> e == UnknownError
  {
    if code == Some("E_LOCATION_SERVICES_DISABLED") then DisabledError
    else if code == Some("E_LOCATION_UNAVAILABLE") then UnavailableError
    else UnknownError
  }

  /** The device as `getCurrentLocation` sees it: the platform, and what
      each call it may make would do. */
  datatype Device = Device(
    isWeb: bool, hasGeolocation: bool, web: WebOutcome,
    servicesEnabled: Step<bool>, check: Step<string>, request: Step<string>, position: Step<Coords>)

  /** The device calls `getCurrentLocation` makes, in order. */
  datatype Call = WebGetPosition | HasServicesEnabled | GetPermissions | RequestPermissions | GetPosition

  /** What `getCurrentLocation` resolves or rejects with, and the device
      calls it makes on the way. */
  function CurrentLocation(d: Device): (LocationResult, seq<Call>) {
    if d.isWeb then
      (WebLocation(d.hasGeolocation, d.web), if d.hasGeolocation then [WebGetPosition] else [])
    else if d.servicesEnabled.Throws? then
      (Failed(ClassifyThrown(d.servicesEnabled.code)), [HasServicesEnabled])
    else if !d.servicesEnabled.value then
      (Failed(DisabledError), [HasServicesEnabled])
    else
      var asked := if PermissionGranted(d.check) then [] else [RequestPermissions];
      if !PermissionGranted(d.check) && !PermissionGranted(d.request) then
        (Failed(DeniedError), [HasServicesEnabled, GetPermissions] + asked)
      else
        (match d.position
         case Returns(c) => Found(c)
         case Throws(code) => Failed(ClassifyThrown(code)),
         [HasServicesEnabled, GetPermissions] + asked + [GetPosition])
  }

  /** `getCurrentLocation`: browser geolocation on the web; elsewhere the
      services check, the permission check, a permission request only when
      the check says no, then the position. Every error that is not already
      a `LocationError` is classified by its code. */
  method GetCurrentLocation(d: Device) returns (r: LocationResult, calls: seq<Call>)
    ensures (r, calls) == CurrentLocation(d)
  {
    if d.isWeb {
      if !d.hasGeolocation {
        return Failed(WebNotSupported), [];
      }
      calls := [WebGetPosition];
      if d.web.WebPosition? {
        r := Found(d.web.coords);
      } else {
        r := Failed(WebError(d.web.code));
      }
      return;
    }
    calls := [HasServicesEnabled];
    if d.servicesEnabled.Throws? {
      return Failed(ClassifyThrown(d.servicesEnabled.code)), calls;
    }
    if !d.servicesEnabled.value {
      return Failed(DisabledError), calls;
    }
    calls := calls + [GetPermissions];
    var hasPermission := PermissionGranted(d.check);
    if !hasPermission {
      calls := calls + [RequestPermissions];
      var granted := PermissionGranted(d.request);
      if !granted {
        assert calls == [HasServicesEnabled, GetPermissions] + [RequestPermissions];
        return Failed(DeniedError), calls;
      }
    }
    calls := calls + [GetPosition];
    assert calls == [HasServicesEnabled, GetPermissions] + (if hasPermission then [] else [RequestPermissions]) + [GetPosition];
    if d.position.Returns? {
      r := Found(d.position.value);
    } else {
      r := Failed(ClassifyThrown(d.position.code));
    }
  }

  /** The outcomes on a device: disabled services reject with
      LOCATION_DISABLED, a refused permission with PERMISSION_DENIED, a
      granted one yields the position or its classified error. */
  lemma CurrentLocationOutcomes(d: Device)
    ensures !d.isWeb && d.servicesEnabled == Returns(false) ==> CurrentLocation(d).0 == Failed(DisabledError)
    ensures !d.isWeb && d.servicesEnabled == Returns(true) ==>
      var allowed := d.check == Returns("granted") || d.request == Returns("granted");
      && (!allowed ==> CurrentLocation(d).0 == Failed(DeniedError))
      && (allowed && d.position.Returns? ==> CurrentLocation(d).0 == Found(d.position.value))
      && (allowed && d.position.Throws? ==> CurrentLocation(d).0 == Failed(ClassifyThrown(d.position.code)))
    ensures d.isWeb ==> CurrentLocation(d).0 == WebLocation(d.hasGeolocation, d.web)
  {
  }

  /** The codes `getCurrentLocation` can reject with. */
  const LocationCodes: set<string> :=
    {"NOT_SUPPORTED", "PERMISSION_DENIED", "LOCATION_UNAVAILABLE", "TIMEOUT", "UNKNOWN_ERROR", "LOCATION_DISABLED"}

  /** Permission is requested at most once and only after the check said
      no; the position is read only with permission; no call is made twice;
      every rejection carries one of the service's own codes. */
  lemma CurrentLocationCalls(d: Device)
    ensures var calls := CurrentLocation(d).1;
      && (RequestPermissions in calls <==>
            !d.isWeb && d.servicesEnabled == Returns(true) && d.check != Returns("granted"))
      && (GetPosition in calls ==> d.check == Returns("granted") || d.request == Returns("granted"))
      && (forall i, j | 0 <= i < j < |calls| :: calls[i] != calls[j])
    ensures CurrentLocation(d).0.Failed? ==> CurrentLocation(d).0.error.code in LocationCodes
  {
    var calls := CurrentLocation(d).1;
    if !d.isWeb && d.servicesEnabled == Returns(true) {
      if d.check == Returns("granted") {
        assert calls == [HasServicesEnabled, GetPermissions, GetPosition];
      } else if d.request == Returns("granted") {
        assert calls == [HasServicesEnabled, GetPermissions, RequestPermissions, GetPosition];
      } else {
        assert calls == [HasServicesEnabled, GetPermissions, RequestPermissions];
      }
    }
  }

  /** The Settings button's own alert. */
  const SettingsAlert: Alert := Alert("Open Settings",
    "Please go to your device settings and enable location permissions for this app.", [OkButton])

  /** `showLocationErrorAlert`: Cancel, then Retry when a retry handler is
      given, then Settings for the two errors the device settings can
      fix. */
  method ShowLocationErrorAlert(error: LocationError, hasRetry: bool) returns (alert: Alert)
    ensures alert.title == "Location Error" && alert.message == error.message
    ensures |alert.buttons| >= 1 && alert.buttons[0] == CancelButton
    ensures RetryButton in alert.buttons <==> hasRetry
    ensures SettingsButton in alert.buttons <==> error.code in {"PERMISSION_DENIED", "LOCATION_DISABLED"}
    ensures forall i | 0 <= i < |alert.buttons| :: alert.buttons[i] in {CancelButton, RetryButton, SettingsButton}
    ensures hasRetry ==> alert.buttons[1] == RetryButton
    ensures |alert.buttons| == 1 + (if hasRetry then 1 else 0) +
      (if error.code in {"PERMISSION_DENIED", "LOCATION_DISABLED"} then 1 else 0)
  {
    var buttons := [CancelButton];
    if hasRetry {
      buttons := buttons + [RetryButton];
    }
    if error.code == "PERMISSION_DENIED" || error.code == "LOCATION_DISABLED" {
      buttons := buttons + [SettingsButton];
    }
    alert := Alert("Location Error", error.message, buttons);
  }

  /** What the geocoding request yields: an HTTP error status, the parsed
      result list, or a failure to fetch or parse at all. */
  datatype GeocodeResponse = HttpError(status: int) | Results(places: seq<Coords>) | FetchFailed

  /** `geocodeAddress`: the first result, and GEOCODING_FAILED for an
      empty list or any failure. */
  function GeocodeAddress(response: GeocodeResponse): (r: LocationResult)
    ensures r.Found? <==> response.Results? && |response.places| > 0
    ensures r.Found? ==> r.coords == response.places[0]
    ensures r.Failed? ==> r.error == GeocodingError
  {
    match response
    case Results(places) => if |places| > 0 then Found(places[0]) else Failed(GeocodingError)
    case _ => Failed(GeocodingError)
  }
}
