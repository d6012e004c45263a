/**
 * The distance-based filter dialog. Opening it asks the browser for the
 * user's position; a success stores the position with an address, a failure
 * (or a browser without geolocation) stores an error message and falls back
 * to Jamsil station. A slider and four preset buttons choose the search
 * radius, from which the dialog derives the radius label, an estimated job
 * count and three travel times; apply hands the location, radius and
 * estimate to the caller and closes.
 *
 * The radius slider runs from 0.5 to 10 km in 0.5 km steps; it is kept in
 * half kilometres `h` (km = h / 2), so every value is an exact integer and
 * the initial radius of 2 km is 4.
 */
module DistanceFilter {

  import opened Wrappers
  import opened Text
  import opened Slider
  import opened Geolocation

  /** `userLocation` once it is known. */
  datatype UserLocation = UserLocation(lat: real, lng: real, address: string)

  /** The record `handleApply` passes to `onApply`. */
  datatype AppliedFilters = AppliedFilters(
    userLocation: Option<UserLocation>,
    distanceHalves: int,
    estimatedJobs: int)

  const DefaultAddress: string := "잠실역 근처 (기본 위치)"
  const DefaultLocation: UserLocation := UserLocation(DefaultLat, DefaultLng, DefaultAddress)
  /** The address kept when reverse geocoding fails. */
  const FallbackAddress: string := "현재 위치"
  const UnsupportedMessage: string := "이 브라우저는 위치 정보를 지원하지 않습니다."
  /** The substring the permission guide looks for. */
  const Refused: string := "거부"
  const FallbackNote: string := "기본 위치로 설정합니다."

  /** The radius slider in half kilometres: 0.5 to 10 km in 0.5 km steps. */
  const DistanceTrack: Track := Track(1, 20, 1)
  /** The initial radius, 2 km. */
  const InitialHalves: int := 4
  /** The quick-select buttons 0.5, 1, 2 and 5 km. */
  const Presets: seq<int> := [1, 2, 4, 10]

  /** The message the error callback stores for a `GeolocationPositionError` code. */
  function ErrorMessage(code: int): (m: string)
    ensures m != ""
    ensures code != PermissionDenied ==> EndsWith(m, FallbackNote)
  {
    if code == PermissionDenied then "위치 정보 접근이 거부되었습니다. 브라우저 설정에서 위치 권한을 허용해주세요."
    else if code == PositionUnavailable then "위치 정보를 사용할 수 없습니다. 기본 위치로 설정합니다."
    else if code == Timeout then "위치 정보 요청 시간이 초과되었습니다. 기본 위치로 설정합니다."
    else "위치 정보를 가져올 수 없습니다. 기본 위치로 설정합니다."
  }

  /**
   * Each of the three codes the `switch` names gets a message of its own,
   * and every other code gets the one `default` message.
   */
  lemma ErrorMessagesDistinct(c1: int, c2: int)
    ensures ErrorMessage(c1) == ErrorMessage(c2) <==> c1 == c2 || (!IsKnownCode(c1) && !IsKnownCode(c2))
  {
  }

  /** The permission guide card is rendered for this error state. */
  predicate ShowsPermissionGuide(locationError: Option<string>)
  {
    locationError.Some? && locationError.value != "" && Contains(locationError.value, Refused)
  }

  /** The denial message mentions the refusal. */
  lemma DeniedMessageHasRefused()
    ensures Contains(ErrorMessage(PermissionDenied), Refused)
  {
    var m := ErrorMessage(PermissionDenied);
    assert m[10] == Refused[0] && m[11] == Refused[1];
    assert m[10..][..2] == Refused;
    ContainsAt(m, Refused, 10);
  }

  /** The message for an unavailable position never mentions a refusal. */
  lemma UnavailableMessageLacksRefused()
    ensures !Contains(ErrorMessage(PositionUnavailable), Refused)
  {
    assert Refused[0] !in ErrorMessage(PositionUnavailable);
    LacksFirstChar(ErrorMessage(PositionUnavailable), Refused);
  }

  /** Nor does the message for a timeout. */
  lemma TimeoutMessageLacksRefused()
    ensures !Contains(ErrorMessage(Timeout), Refused)
  {
    assert Refused[0] !in ErrorMessage(Timeout);
    LacksFirstChar(ErrorMessage(Timeout), Refused);
  }

  /** Nor does the message for any other code. */
  lemma OtherMessageLacksRefused(code: int)
    requires code != PermissionDenied && code != PositionUnavailable && code != Timeout
    ensures !Contains(ErrorMessage(code), Refused)
  {
    assert Refused[0] !in ErrorMessage(code);
    LacksFirstChar(ErrorMessage(code), Refused);
  }

  /** Nor does the message for a browser without geolocation. */
  lemma UnsupportedMessageLacksRefused()
    ensures !Contains(UnsupportedMessage, Refused)
  {
    assert Refused[0] !in UnsupportedMessage;
    LacksFirstChar(UnsupportedMessage, Refused);
  }

  /**
   * Of all the errors the dialog can store, only a refused permission brings
   * up the guide that explains how to allow it.
   */
  lemma GuideOnlyForDeniedPermission(code: int)
    ensures ShowsPermissionGuide(Some(ErrorMessage(code))) <==> code == PermissionDenied
    ensures !ShowsPermissionGuide(Some(UnsupportedMessage))
  {
    if code == PermissionDenied {
      DeniedMessageHasRefused();
    } else if code == PositionUnavailable {
      UnavailableMessageLacksRefused();
    } else if code == Timeout {
      TimeoutMessageLacksRefused();
    } else {
      OtherMessageLacksRefused(code);
    }
    UnsupportedMessageLacksRefused();
  }

  /** `getDistanceText(km)`: metres below 1 km (`toFixed(0)`), otherwise the kilometre value. */
  function DistanceText(h: nat): (s: string)
  {
    if h < 2 then NatToString(h * 500) + "m"
    else NatToString(h / 2) + (if h % 2 == 1 then ".5" else "") + "km"
  }

  /** Reads a radius label back into half kilometres. */
  function ParseDistanceText(s: string): (r: Option<nat>)
  {
    if EndsWith(s, "km") then
      var body := s[..|s| - 2];
      if EndsWith(body, ".5") then
        match ParseNat(body[..|body| - 2])
        case None => None
        case Some(n) => Some(2 * n + 1)
      else
        match ParseNat(body)
        case None => None
        case Some(n) => Some(2 * n)
    else if EndsWith(s, "m") then
      match ParseNat(s[..|s| - 1])
      case None => None
      case Some(v) => if v % 500 == 0 then Some(v / 500) else None
    else None
  }

  /** A label below 1 km reads back as its radius. */
  lemma MetreTextRoundTrip(h: nat)
    requires h < 2
    ensures ParseDistanceText(DistanceText(h)) == Some(h)
  {
    var s := DistanceText(h);
    var digits := NatToString(h * 500);
    ParseNatToString(h * 500);
    assert s[|s| - 2] == digits[|digits| - 1];
    assert !EndsWith(s, "km");
    assert s[..|s| - 1] == digits;
  }

  /** A kilometre label, with or without its ".5", reads back as its radius in half kilometres. */
  lemma KmTextRoundTrip(n: nat, half: bool)
    ensures ParseDistanceText(NatToString(n) + (if half then ".5" else "") + "km") == Some(if half then 2 * n + 1 else 2 * n)
  {
    var digits := NatToString(n);
    var s := digits + (if half then ".5" else "") + "km";
    ParseNatToString(n);
    var body := s[..|s| - 2];
    if half {
      assert body == digits + ".5";
      assert body[..|body| - 2] == digits;
    } else {
      assert body == digits;
      if |body| >= 2 {
        assert body[|body| - 2] == digits[|digits| - 2];
      }
      assert !EndsWith(body, ".5");
    }
  }

  /** Every radius label reads back as the radius it was made from. */
  lemma DistanceTextRoundTrip(h: nat)
    ensures ParseDistanceText(DistanceText(h)) == Some(h)
  {
    if h < 2 {
      MetreTextRoundTrip(h);
    } else {
      KmTextRoundTrip(h / 2, h % 2 == 1);
    }
  }

  /** Different radii never share a label. */
  lemma DistanceTextInjective(h1: nat, h2: nat)
    requires DistanceText(h1) == DistanceText(h2)
    ensures h1 == h2
  {
    DistanceTextRoundTrip(h1);
    DistanceTextRoundTrip(h2);
  }

  /** `getEstimatedJobs(km)`: `Math.floor(50 + km * 25)`. */
  function EstimatedJobs(h: nat): (n: nat)
    ensures 2 * n <= 100 + 25 * h < 2 * n + 2
  {
    50 + (25 * h) / 2
  }

  /** A wider radius never lowers the estimate. */
  lemma EstimatedJobsMonotone(h1: nat, h2: nat)
    requires h1 <= h2
    ensures EstimatedJobs(h1) <= EstimatedJobs(h2)
  {
  }

  /** On the slider's range the estimate runs from 62 (0.5 km) to 300 (10 km); the presets give 62, 75, 100, 175. */
  lemma EstimatedJobsRange(h: nat)
    requires OnTrack(DistanceTrack, h)
    ensures 62 <= EstimatedJobs(h) <= 300
    ensures EstimatedJobs(1) == 62 && EstimatedJobs(2) == 75 && EstimatedJobs(4) == 100 && EstimatedJobs(10) == 175
  {
  }

  /** `Math.ceil(x / 2)` for a whole number `x`. */
  function CeilHalf(x: nat): (r: nat)
    ensures x <= 2 * r < x + 2
  {
    (x + 1) / 2
  }

  /** `Math.ceil(km * 12)` minutes on foot. */
  function WalkMinutes(h: nat): nat { CeilHalf(12 * h) }
  /** `Math.ceil(km * 4)` minutes by bicycle. */
  function BikeMinutes(h: nat): nat { CeilHalf(4 * h) }
  /** `Math.ceil(km * 3)` minutes by public transport. */
  function TransitMinutes(h: nat): nat { CeilHalf(3 * h) }

  /** Walking takes 12 minutes per km and cycling 4, exactly; transport is never slower than cycling. */
  lemma TravelTimes(h: nat)
    ensures WalkMinutes(h) == 6 * h && BikeMinutes(h) == 2 * h
    ensures TransitMinutes(h) <= BikeMinutes(h) <= WalkMinutes(h)
    ensures 2 * TransitMinutes(h) == 3 * h || 2 * TransitMinutes(h) == 3 * h + 1
  {
  }

  /** The dialog's state. `pending` counts position requests whose callback has not yet run. */
  class Dialog {
    var userLocation: Option<UserLocation>
    var distance: seq<int>
    var isLoadingLocation: bool
    var locationError: Option<string>
    var isOpen: bool
    var applied: seq<AppliedFilters>
    ghost var pending: nat

    /**
     * The slider value is on its track; while a request runs no error is
     * shown and a callback is still due; an error is never shown without a
     * location to fall back on.
     */
    ghost predicate Valid()
      reads this
    {
      && AllOnTrack(DistanceTrack, distance)
      && (isLoadingLocation ==> locationError == None && pending > 0)
      && (locationError.Some? ==> locationError.value != "" && userLocation.Some?)
    }

    /** The component's initial state, before the dialog is opened. */
    constructor ()
      ensures Valid()
      ensures userLocation == None && distance == [InitialHalves] && !isLoadingLocation
      ensures locationError == None && !isOpen && applied == [] && pending == 0
    {
      userLocation := None;
      distance := [InitialHalves];
      isLoadingLocation := false;
      locationError := None;
      isOpen := false;
      applied := [];
      pending := 0;
    }

    /** `setDefaultLocation`: Jamsil station, loading over. */
    method SetDefaultLocation()
      modifies this
      ensures userLocation == Some(DefaultLocation) && !isLoadingLocation
      ensures locationError == old(locationError) && distance == old(distance)
      ensures isOpen == old(isOpen) && applied == old(applied) && pending == old(pending)
    {
      userLocation := Some(DefaultLocation);
      isLoadingLocation := false;
    }

    /**
     * `getCurrentLocation`: without geolocation support the error and the
     * fallback are set at once; otherwise a request is issued and loading
     * starts.
     */
    method GetCurrentLocation(supported: bool)
      requires Valid()
      modifies this
      ensures Valid()
      ensures !supported ==> && locationError == Some(UnsupportedMessage)
                             && userLocation == Some(DefaultLocation)
                             && !isLoadingLocation && pending == old(pending)
      ensures supported ==> && isLoadingLocation && locationError == None
                            && userLocation == old(userLocation) && pending == old(pending) + 1
      ensures distance == old(distance) && isOpen == old(isOpen) && applied == old(applied)
    {
      isLoadingLocation := true;
      locationError := None;
      if !supported {
        locationError := Some(UnsupportedMessage);
        SetDefaultLocation();
        return;
      }
      pending := pending + 1;
    }

    /** The dialog opens: the effect on `isOpen` requests the position. */
    method Open(supported: bool)
      requires Valid()
      modifies this
      ensures Valid() && isOpen
      ensures supported ==> isLoadingLocation && locationError == None && pending == old(pending) + 1
      ensures !supported ==> locationError == Some(UnsupportedMessage) && userLocation == Some(DefaultLocation)
      ensures distance == old(distance) && applied == old(applied)
    {
      isOpen := true;
      GetCurrentLocation(supported);
    }

    /**
     * The success callback, after reverse geocoding: `geocoded` is the
     * address it produced, or None when it threw.
     */
    method OnPosition(lat: real, lng: real, geocoded: Option<string>)
      requires Valid() && pending > 0
      modifies this
      ensures Valid() && !isLoadingLocation && pending == old(pending) - 1
      ensures userLocation == Some(UserLocation(lat, lng, if geocoded.Some? then geocoded.value else FallbackAddress))
      ensures geocoded.Some? ==> locationError == None
      ensures geocoded.None? ==> locationError == old(locationError)
      ensures distance == old(distance) && isOpen == old(isOpen) && applied == old(applied)
    {
      if geocoded.Some? {
        userLocation := Some(UserLocation(lat, lng, geocoded.value));
        locationError := None;
      } else {
        userLocation := Some(UserLocation(lat, lng, FallbackAddress));
      }
      isLoadingLocation := false;
      pending := pending - 1;
    }

    /** The error callback: the message for the code, then the fallback location. */
    method OnPositionError(code: int)
      requires Valid() && pending > 0
      modifies this
      ensures Valid() && !isLoadingLocation && pending == old(pending) - 1
      ensures locationError == Some(ErrorMessage(code)) && userLocation == Some(DefaultLocation)
      ensures distance == old(distance) && isOpen == old(isOpen) && applied == old(applied)
    {
      locationError := Some(ErrorMessage(code));
      SetDefaultLocation();
      pending := pending - 1;
    }

    /** `handleRetryLocation`. */
    method HandleRetryLocation(supported: bool)
      requires Valid()
      modifies this
      ensures Valid()
      ensures supported ==> isLoadingLocation && locationError == None && pending == old(pending) + 1
      ensures !supported ==> locationError == Some(UnsupportedMessage) && userLocation == Some(DefaultLocation)
      ensures distance == old(distance) && isOpen == old(isOpen) && applied == old(applied)
    {
      GetCurrentLocation(supported);
    }

    /** The slider reports a new value. */
    method SetDistance(value: seq<int>)
      requires Valid() && AllOnTrack(DistanceTrack, value)
      modifies this
      ensures Valid() && distance == value
      ensures userLocation == old(userLocation) && locationError == old(locationError)
      ensures isLoadingLocation == old(isLoadingLocation) && isOpen == old(isOpen) && applied == old(applied)
    {
      distance := value;
    }

    /** A quick-select button: `setDistance([preset])`; that button, and only it, is then highlighted. */
    method SelectPreset(preset: int)
      requires Valid() && preset in Presets
      modifies this
      ensures Valid() && distance == [preset]
      ensures forall p :: p in Presets ==> (PresetHighlighted(p) <==> p == preset)
      ensures userLocation == old(userLocation) && locationError == old(locationError)
      ensures isLoadingLocation == old(isLoadingLocation) && isOpen == old(isOpen) && applied == old(applied)
    {
      distance := [preset];
    }

    /** `handleApply`: the location, the radius and its estimate go to `onApply`, then `onClose`. */
    method HandleApply()
      requires Valid()
      modifies this
      ensures Valid() && !isOpen
      ensures applied == old(applied) + [AppliedFilters(userLocation, distance[0], EstimatedJobs(distance[0]))]
      ensures userLocation == old(userLocation) && distance == old(distance)
      ensures locationError == old(locationError) && isLoadingLocation == old(isLoadingLocation)
    {
      applied := applied + [AppliedFilters(userLocation, distance[0], EstimatedJobs(distance[0]))];
      isOpen := false;
    }

    /** The preset button for `p` uses the filled variant. */
    predicate PresetHighlighted(p: int)
      reads this
    {
      |distance| > 0 && distance[0] == p
    }

    /** The line under "현재 위치". */
    function StatusLine(): string
      reads this
    {
      if isLoadingLocation then "위치 확인 중..."
      else if userLocation.Some? && userLocation.value.address != "" then userLocation.value.address
      else "위치를 가져올 수 없습니다"
    }

    /** The retry button's label. */
    function RetryLabel(): string
      reads this
    {
      if locationError.Some? && locationError.value != "" then "재시도" else "새로고침"
    }

    /** The warning alert and the "기본 위치가 설정되었습니다" note are rendered. */
    predicate ShowsErrorAlert()
      reads this
    {
      locationError.Some? && locationError.value != ""
    }

    predicate RetryEnabled()
      reads this
    {
      !isLoadingLocation
    }

    predicate ApplyEnabled()
      reads this
    {
      userLocation.Some?
    }
  }

  /**
   * Whenever the error alert is up, the location request is over (so retry
   * is enabled, labelled "재시도") and a fallback location exists (so apply
   * is enabled too).
   */
  lemma ErrorAlertEnablesButtons(d: Dialog)
    requires d.Valid()
    ensures d.ShowsErrorAlert() ==> d.RetryEnabled() && d.ApplyEnabled() && d.RetryLabel() == "재시도"
    ensures d.ShowsErrorAlert() <==> d.locationError.Some?
  {
  }

  /** While a request is running the status line says so, whatever location is stored. */
  lemma LoadingShowsProgress(d: Dialog)
    requires d.Valid() && d.isLoadingLocation
    ensures d.StatusLine() == "위치 확인 중..." && !d.RetryEnabled() && d.RetryLabel() == "새로고침"
  {
  }
}
