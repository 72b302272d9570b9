/** The schedule card (frontend/src/components/organisms/ScheduleCard.tsx):
    its status label, the action buttons each status offers, and the
    location flow behind the clock-in and clock-out buttons, with its error
    dispatch and the manual-address fallback. The device location and the
    geocoder are inputs: each call's outcome is a parameter. */
module ScheduleCard {
  import opened Wrappers
  import opened Text
  import opened AppTypes
  import Script
  import Display

  /** The card's own `getStatusText`: like the shared one, except that
      in_progress reads "In progress". */
  function CardStatusText(status: string): string {
    if status == "scheduled" then "Scheduled"
    else if status == "in_progress" then "In progress"
    else if status == "completed" then "Completed"
    else if status == "missed" then "Missed"
    else if status == "cancelled" then "Cancelled"
    else status
  }

  /** The card's labels agree with the shared ones on every status but
      in_progress, where only the case of one letter differs; unknown
      statuses pass through. */
  lemma CardStatusTextAgrees(status: string)
    ensures status != "in_progress" ==> CardStatusText(status) == Display.StatusText(status)
    ensures CardStatusText("in_progress") == "In progress" && Display.StatusText("in_progress") == "In Progress"
    ensures status !in Display.KnownStatuses ==> CardStatusText(status) == status
  {
  }

  /** `schedule.visit?.location_status === 'pending'`. */
  predicate PendingLocation(schedule: AppSchedule) {
    schedule.visit.Some? && schedule.visit.value.locationStatus == Some("pending")
  }

  /** `disabled || isPendingLocation || isLoadingLocation`. */
  predicate EffectiveDisabled(disabled: bool, schedule: AppSchedule, loading: bool) {
    disabled || PendingLocation(schedule) || loading
  }

  /** What a button does when pressed. */
  datatype Press = ClockIn | ClockOut | ViewProgress

  datatype Button = Button(text: string, disabled: bool, press: Press)

  /** The clock-in or clock-out label while the location is being read. */
  function LocationLabel(loading: bool, idle: string): string {
    if loading then "Getting Location..." else idle
  }

  /** `renderActionButton`. */
  function ActionButtons(schedule: AppSchedule, disabled: bool, loading: bool): (r: seq<Button>)
    ensures schedule.status in {"scheduled", "missed"} ==>
      r == [Button(LocationLabel(loading, "Clock-In Now"), EffectiveDisabled(disabled, schedule, loading), ClockIn)]
    ensures schedule.status == "in_progress" ==>
      r == [Button("View Progress", disabled, ViewProgress),
            Button(LocationLabel(loading, "Clock-Out Now"), EffectiveDisabled(disabled, schedule, loading), ClockOut)]
    ensures schedule.status == "completed" ==> r == [Button("View Report", disabled, ViewProgress)]
    ensures r == [] <==> schedule.status !in {"scheduled", "missed", "in_progress", "completed"}
  {
    var off := EffectiveDisabled(disabled, schedule, loading);
    match schedule.status
    case "scheduled" => [Button(LocationLabel(loading, "Clock-In Now"), off, ClockIn)]
    case "missed" => [Button(LocationLabel(loading, "Clock-In Now"), off, ClockIn)]
    case "in_progress" =>
      [Button("View Progress", disabled, ViewProgress), Button(LocationLabel(loading, "Clock-Out Now"), off, ClockOut)]
    case "completed" => [Button("View Report", disabled, ViewProgress)]
    case _ => []
  }

  /** A location-reading button is offered only for a status that needs one,
      and the view button ignores the pending-location and loading flags. */
  lemma ActionButtonsPress(schedule: AppSchedule, disabled: bool, loading: bool)
    ensures forall b | b in ActionButtons(schedule, disabled, loading) && b.press == ClockIn ::
      schedule.status in {"scheduled", "missed"}
    ensures forall b | b in ActionButtons(schedule, disabled, loading) && b.press == ClockOut ::
      schedule.status == "in_progress"
    ensures forall b | b in ActionButtons(schedule, disabled, loading) && b.press == ViewProgress ::
      b.disabled == disabled
    ensures forall b | b in ActionButtons(schedule, disabled, loading) && b.press != ViewProgress ::
      b.disabled == EffectiveDisabled(disabled, schedule, loading)
  {
  }

  /** What one `getCurrentLocation()` call yields. */
  datatype LocationOutcome = Located(location: Coords) | LocationFailed(code: Option<string>, message: Option<string>)

  /** Who the card notifies. */
  datatype Callback = OnClockIn | OnClockOut

  /** What the user sees happen: nothing, the pressed button's action
      called with a location or none, a prop callback called, or an
      alert. */
  datatype Effect = NoEffect | Act(location: Option<Coords>) | Notify(callback: Callback, location: Option<Coords>) | ShowAlert(alert: Alert)

  const PermissionAlert: Alert := Alert(
    "Location Permission Required",
    "Location access is required for visit verification. Please enable permissions in your device settings and try again.",
    [CancelButton, RetryButton, SettingsButton])

  const LocationFallback: string :=
    "Failed to get location. You can proceed without location, but it will be flagged as pending."

  function LocationErrorAlert(message: Option<string>): Alert {
    Alert("Location Error", Script.MessageOr(message, None, LocationFallback), [CancelButton, ProceedButton, RetryButton])
  }

  const InvalidAddressAlert: Alert := Alert("Invalid Address", "Please enter an address.", [])

  const GeocodingAlert: Alert := Alert(
    "Geocoding Error",
    "Could not convert address to location. Proceed without location?",
    [CancelButton, ProceedButton])

  /** `error.code || 'UNKNOWN_ERROR'`. */
  function ErrorCode(code: Option<string>): (r: string)
    ensures Script.Truthy(code) ==> r == code.value
    ensures !Script.Truthy(code) ==> r == "UNKNOWN_ERROR"
  {
    Script.MessageOr(code, None, "UNKNOWN_ERROR")
  }

  /** The end of one location action: what was seen, how many times the
      location was read, the loading flag, and whether the manual-address
      input was opened. */
  datatype ActionOutcome = ActionOutcome(effect: Effect, attempts: nat, loading: bool, openManual: bool)

  /** The body of `handleLocationAction` once it is enabled; `retry` is
      what the automatic second reading yields, if there is one. */
  function LocationAction(first: LocationOutcome, retry: LocationOutcome): (o: ActionOutcome)
    ensures first.Located? ==> o == ActionOutcome(Act(Some(first.location)), 1, true, false)
    ensures first.LocationFailed? ==> !o.loading
    ensures o.attempts == 2 <==> first.LocationFailed? && ErrorCode(first.code) == "TIMEOUT"
    ensures o.openManual <==> (first.LocationFailed? &&
      (ErrorCode(first.code) == "POSITION_UNAVAILABLE" || (ErrorCode(first.code) == "TIMEOUT" && retry.LocationFailed?)))
    ensures o.effect.Act? ==> o.effect.location.Some? && !o.openManual
    ensures o.effect.ShowAlert? <==> (first.LocationFailed? &&
      ErrorCode(first.code) !in {"POSITION_UNAVAILABLE", "TIMEOUT"})
  {
    match first
    case Located(loc) => ActionOutcome(Act(Some(loc)), 1, true, false)
    case LocationFailed(code, message) =>
      var c := ErrorCode(code);
      if c == "PERMISSION_DENIED" then ActionOutcome(ShowAlert(PermissionAlert), 1, false, false)
      else if c == "POSITION_UNAVAILABLE" then ActionOutcome(NoEffect, 1, false, true)
      else if c == "TIMEOUT" then
        match retry
        case Located(loc) => ActionOutcome(Act(Some(loc)), 2, false, false)
        case LocationFailed(_, _) => ActionOutcome(NoEffect, 2, false, true)
      else ActionOutcome(ShowAlert(LocationErrorAlert(message)), 1, false, false)
  }

  /** The alerts of the failure paths: permission denial offers Retry and
      Settings, every other alerted code offers to proceed without a
      location and to retry, and Cancel always comes first. */
  lemma LocationAlerts(first: LocationOutcome, retry: LocationOutcome)
    requires first.LocationFailed?
    ensures ErrorCode(first.code) == "PERMISSION_DENIED" ==>
      LocationAction(first, retry).effect == ShowAlert(PermissionAlert)
    ensures ErrorCode(first.code) !in {"PERMISSION_DENIED", "POSITION_UNAVAILABLE", "TIMEOUT"} ==>
      LocationAction(first, retry).effect == ShowAlert(LocationErrorAlert(first.message)) &&
      ProceedButton in LocationErrorAlert(first.message).buttons &&
      SettingsButton !in LocationErrorAlert(first.message).buttons
    ensures LocationAction(first, retry).effect.ShowAlert? ==>
      LocationAction(first, retry).effect.alert.buttons[0] == CancelButton &&
      RetryButton in LocationAction(first, retry).effect.alert.buttons
  {
    var a := LocationErrorAlert(first.message);
    assert a.buttons[1] == ProceedButton;
    assert PermissionAlert.buttons[1] == RetryButton;
    assert a.buttons[2] == RetryButton;
  }

  /** `onClockIn(location)` if given, else `onClockOut(location)` if given. */
  function NotifyEither(hasClockIn: bool, hasClockOut: bool, location: Option<Coords>): (e: Effect)
    ensures hasClockIn ==> e == Notify(OnClockIn, location)
    ensures !hasClockIn && hasClockOut ==> e == Notify(OnClockOut, location)
    ensures e == NoEffect <==> !hasClockIn && !hasClockOut
  {
    if hasClockIn then Notify(OnClockIn, location)
    else if hasClockOut then Notify(OnClockOut, location)
    else NoEffect
  }

  /** The card's state: `isLoadingLocation`, `showManualInput` and
      `manualAddress`, with the props they depend on. */
  class CardState {
    const schedule: AppSchedule
    const disabled: bool
    const hasClockIn: bool
    const hasClockOut: bool
    var isLoadingLocation: bool
    var showManualInput: bool
    var manualAddress: string

    /** The initial state; the address starts as the client's, if any. */
    constructor(schedule: AppSchedule, disabled: bool, hasClockIn: bool, hasClockOut: bool)
      ensures this.schedule == schedule && this.disabled == disabled
      ensures this.hasClockIn == hasClockIn && this.hasClockOut == hasClockOut
      ensures !isLoadingLocation && !showManualInput
      ensures manualAddress == (if Script.Truthy(schedule.clientAddress) then schedule.clientAddress.value else "")
    {
      this.schedule := schedule;
      this.disabled := disabled;
      this.hasClockIn := hasClockIn;
      this.hasClockOut := hasClockOut;
      isLoadingLocation := false;
      showManualInput := false;
      manualAddress := if Script.Truthy(schedule.clientAddress) then schedule.clientAddress.value else "";
    }

    predicate Disabled()
      reads this
    {
      EffectiveDisabled(disabled, schedule, isLoadingLocation)
    }

    /** `handleLocationAction(action)`: nothing at all while disabled;
      otherwise the location is read (twice on a timeout) and the outcome
      dispatched. */
    method HandleLocationAction(first: LocationOutcome, retry: LocationOutcome) returns (effect: Effect, attempts: nat)
      modifies this`isLoadingLocation, this`showManualInput
      ensures old(Disabled()) ==> (effect == NoEffect && attempts == 0 &&
        isLoadingLocation == old(isLoadingLocation) && showManualInput == old(showManualInput))
      ensures !old(Disabled()) ==>
        var o := LocationAction(first, retry);
        effect == o.effect && attempts == o.attempts && isLoadingLocation == o.loading &&
        showManualInput == (old(showManualInput) || o.openManual)
    {
      if Disabled() {
        return NoEffect, 0;
      }
      isLoadingLocation := true;
      attempts := 1;
      match first
      case Located(loc) =>
        effect := Act(Some(loc));
      case LocationFailed(code, message) =>
        isLoadingLocation := false;
        var errorCode := ErrorCode(code);
        if errorCode == "PERMISSION_DENIED" {
          effect := ShowAlert(PermissionAlert);
        } else if errorCode == "POSITION_UNAVAILABLE" {
          showManualInput := true;
          effect := NoEffect;
        } else if errorCode == "TIMEOUT" {
          attempts := 2;
          match retry
          case Located(loc) =>
            effect := Act(Some(loc));
          case LocationFailed(_, _) =>
            isLoadingLocation := false;
            showManualInput := true;
            effect := NoEffect;
        } else {
          effect := ShowAlert(LocationErrorAlert(message));
        }
    }

    /** The geocode button is enabled only for a non-blank address. */
    predicate CanGeocode()
      reads this
    {
      !IsBlank(manualAddress)
    }

    /** `onChangeText={setManualAddress}`. */
    method EditAddress(address: string)
      modifies this`manualAddress
      ensures manualAddress == address
    {
      manualAddress := address;
    }

    /** `handleManualInput`: a blank address is refused without geocoding;
      otherwise the dialog closes and the geocoded location goes to the
      clock-in callback, else the clock-out one; a failed geocode asks
      whether to proceed without a location. */
    method HandleManualInput(geocoded: Result<Coords>) returns (effect: Effect, geocodeCalls: nat)
      modifies this`isLoadingLocation, this`showManualInput
      ensures !old(CanGeocode()) ==> (effect == ShowAlert(InvalidAddressAlert) && geocodeCalls == 0 &&
        isLoadingLocation == old(isLoadingLocation) && showManualInput == old(showManualInput))
      ensures old(CanGeocode()) ==> geocodeCalls == 1 && !showManualInput
      ensures old(CanGeocode()) && geocoded.Ok? ==>
        isLoadingLocation && effect == NotifyEither(hasClockIn, hasClockOut, Some(geocoded.value))
      ensures old(CanGeocode()) && geocoded.Err? ==> !isLoadingLocation && effect == ShowAlert(GeocodingAlert)
    {
      if IsBlank(manualAddress) {
        return ShowAlert(InvalidAddressAlert), 0;
      }
      isLoadingLocation := true;
      showManualInput := false;
      geocodeCalls := 1;
      match geocoded
      case Ok(location) =>
        effect := NotifyEither(hasClockIn, hasClockOut, Some(location));
      case Err(_) =>
        isLoadingLocation := false;
        effect := ShowAlert(GeocodingAlert);
    }

    /** The dialog's Cancel button. */
    method CancelManualInput()
      modifies this`showManualInput
      ensures !showManualInput
    {
      showManualInput := false;
    }

    /** The dialog's "Proceed Without Location" button: the dialog closes
      and a callback is told there is no location. */
    method ProceedWithoutLocation() returns (effect: Effect)
      modifies this`showManualInput
      ensures !showManualInput
      ensures effect == NotifyEither(hasClockIn, hasClockOut, None)
    {
      showManualInput := false;
      effect := NotifyEither(hasClockIn, hasClockOut, None);
    }
  }
}
