/**
 * The live map screen. On mount it asks for the user's position (a failure
 * or a browser without geolocation stores a short error message and falls
 * back to Jamsil station) and loads the map library. Job markers and the
 * popup's "details" button select a job; the selected job's card offers
 * directions, which only raise an alert, and only when a position is known.
 */
module RealMapView {

  import opened Wrappers
  import opened Text
  import opened Geolocation

  datatype Coords = Coords(lat: real, lng: real)

  /** The fields of a job the screen reads. */
  datatype Job = Job(id: int, title: string, company: string, hourlyPay: int, urgent: bool)

  datatype ViewMode = MapMode | ListMode

  const DefaultCoords: Coords := Coords(DefaultLat, DefaultLng)
  const UnsupportedMessage: string := "이 브라우저는 위치 정보를 지원하지 않습니다."
  const NavigationPrefix: string := "길찾기: "
  const NavigationSuffix: string := "로 이동합니다.\n실제 환경에서는 지도 앱이 열립니다."
  const AlertSuffix: string := " 기본 위치(잠실)로 설정되었습니다."

  /** The message the error callback stores for a `GeolocationPositionError` code. */
  function ErrorMessage(code: int): (m: string)
    ensures m != "" && EndsWith(m, "습니다.")
  {
    if code == PermissionDenied then "위치 정보 접근이 거부되었습니다."
    else if code == PositionUnavailable then "위치 정보를 사용할 수 없습니다."
    else if code == Timeout then "위치 정보 요청 시간이 초과되었습니다."
    else "위치 정보를 가져올 수 없습니다."
  }

  /**
   * Each of the three codes the `switch` names gets a message of its own,
   * and every other code gets the one `default` message.
   */
  lemma ErrorMessagesDistinct(c1: int, c2: int)
    ensures ErrorMessage(c1) == ErrorMessage(c2) <==> c1 == c2 || (!IsKnownCode(c1) && !IsKnownCode(c2))
  {
  }

  /** `jobs.find((j) => j.id === jobId)`: the first job with that id. */
  function FindJob(jobs: seq<Job>, id: int): (r: Option<Job>)
    ensures r.None? <==> forall i :: 0 <= i < |jobs| ==> jobs[i].id != id
    ensures r.Some? ==> exists i :: 0 <= i < |jobs| && jobs[i] == r.value && r.value.id == id
                                    && forall k :: 0 <= k < i ==> jobs[k].id != id
    decreases |jobs|
  {
    if jobs == [] then None
    else if jobs[0].id == id then Some(jobs[0])
    else
      var rest := FindJob(jobs[1..], id);
      if rest.Some? then
        assert exists i :: 0 <= i < |jobs| - 1 && jobs[1..][i] == rest.value && rest.value.id == id
                           && forall k :: 0 <= k < i ==> jobs[1..][k].id != id;
        var i :| 0 <= i < |jobs| - 1 && jobs[1..][i] == rest.value && rest.value.id == id
                 && forall k :: 0 <= k < i ==> jobs[1..][k].id != id;
        assert jobs[i + 1] == rest.value;
        rest
      else rest
  }

  /** The alert text for directions to a job. */
  function NavigationAlert(title: string): (a: string)
    ensures StartsWith(a, NavigationPrefix) && EndsWith(a, NavigationSuffix)
    ensures |a| == |NavigationPrefix| + |title| + |NavigationSuffix|
  {
    NavigationPrefix + title + NavigationSuffix
  }

  /** The job title can be read back from the alert, so different jobs give different alerts. */
  lemma NavigationAlertNamesJob(t1: string, t2: string)
    ensures NavigationAlert(t1)[|NavigationPrefix|..|NavigationAlert(t1)| - |NavigationSuffix|] == t1
    ensures NavigationAlert(t1) == NavigationAlert(t2) ==> t1 == t2
  {
    var a1, a2 := NavigationAlert(t1), NavigationAlert(t2);
    assert a1[|NavigationPrefix|..|a1| - |NavigationSuffix|] == t1;
    assert a2[|NavigationPrefix|..|a2| - |NavigationSuffix|] == t2;
  }

  /** The screen's state. `pending` counts position requests whose callback has not yet run. */
  class Screen {
    const jobs: seq<Job>
    var selectedJob: Option<Job>
    var viewMode: ViewMode
    var userLocation: Option<Coords>
    var locationError: Option<string>
    var isLoadingLocation: bool
    var leafletLoaded: bool
    var alerts: seq<string>
    ghost var pending: nat

    /**
     * While a request runs no error is shown and a callback is still due;
     * an error is only ever shown together with the fallback position.
     */
    ghost predicate Valid()
      reads this
    {
      && (isLoadingLocation ==> locationError == None && pending > 0)
      && (locationError.Some? ==> locationError.value != "" && userLocation == Some(DefaultCoords))
    }

    /** The state before the mount effect runs. */
    constructor (jobs: seq<Job>)
      ensures Valid() && this.jobs == jobs
      ensures selectedJob == None && viewMode == MapMode && userLocation == None
      ensures locationError == None && !isLoadingLocation && !leafletLoaded && alerts == [] && pending == 0
    {
      this.jobs := jobs;
      selectedJob := None;
      viewMode := MapMode;
      userLocation := None;
      locationError := None;
      isLoadingLocation := false;
      leafletLoaded := false;
      alerts := [];
      pending := 0;
    }

    /** `setDefaultLocation`. */
    method SetDefaultLocation()
      modifies this
      ensures userLocation == Some(DefaultCoords) && !isLoadingLocation
      ensures locationError == old(locationError) && selectedJob == old(selectedJob) && viewMode == old(viewMode)
      ensures leafletLoaded == old(leafletLoaded) && alerts == old(alerts) && pending == old(pending)
    {
      userLocation := Some(DefaultCoords);
      isLoadingLocation := false;
    }

    /** `getCurrentLocation`, also run by both retry controls. */
    method GetCurrentLocation(supported: bool)
      requires Valid()
      modifies this
      ensures Valid()
      ensures !supported ==> && locationError == Some(UnsupportedMessage)
                             && userLocation == Some(DefaultCoords)
                             && !isLoadingLocation && pending == old(pending)
      ensures supported ==> && isLoadingLocation && locationError == None
                            && userLocation == old(userLocation) && pending == old(pending) + 1
      ensures selectedJob == old(selectedJob) && viewMode == old(viewMode)
      ensures leafletLoaded == old(leafletLoaded) && alerts == old(alerts)
    {
      isLoadingLocation := true;
      locationError := None;
      if !supported {
        locationError := Some(UnsupportedMessage);
        SetDefaultLocation();
        return;
      }
      pending := pending + 1;
    }

    /** The success callback: the reported position, loading over, no error. */
    method OnPosition(lat: real, lng: real)
      requires Valid() && pending > 0
      modifies this
      ensures Valid() && pending == old(pending) - 1
      ensures userLocation == Some(Coords(lat, lng)) && !isLoadingLocation && locationError == None
      ensures selectedJob == old(selectedJob) && viewMode == old(viewMode)
      ensures leafletLoaded == old(leafletLoaded) && alerts == old(alerts)
    {
      userLocation := Some(Coords(lat, lng));
      isLoadingLocation := false;
      locationError := None;
      pending := pending - 1;
    }

    /** The error callback: the message for the code, then the fallback position. */
    method OnPositionError(code: int)
      requires Valid() && pending > 0
      modifies this
      ensures Valid() && pending == old(pending) - 1
      ensures locationError == Some(ErrorMessage(code)) && userLocation == Some(DefaultCoords) && !isLoadingLocation
      ensures selectedJob == old(selectedJob) && viewMode == old(viewMode)
      ensures leafletLoaded == old(leafletLoaded) && alerts == old(alerts)
    {
      locationError := Some(ErrorMessage(code));
      SetDefaultLocation();
      pending := pending - 1;
    }

    /** The map library's script has finished loading. */
    method OnLeafletLoaded()
      modifies this
      ensures leafletLoaded
      ensures userLocation == old(userLocation) && locationError == old(locationError)
      ensures isLoadingLocation == old(isLoadingLocation) && pending == old(pending)
      ensures selectedJob == old(selectedJob) && viewMode == old(viewMode) && alerts == old(alerts)
    {
      leafletLoaded := true;
    }

    /** A click on a job marker. */
    method MarkerClick(job: Job)
      modifies this
      ensures selectedJob == Some(job)
      ensures userLocation == old(userLocation) && locationError == old(locationError)
      ensures isLoadingLocation == old(isLoadingLocation) && pending == old(pending)
      ensures leafletLoaded == old(leafletLoaded) && viewMode == old(viewMode) && alerts == old(alerts)
    {
      selectedJob := Some(job);
    }

    /**
     * `window.selectJob(jobId)`, the popup's "details" button: selects the
     * first job with that id, and keeps the current selection when none has it.
     */
    method SelectJob(jobId: int)
      modifies this
      ensures selectedJob == (if FindJob(jobs, jobId).Some? then FindJob(jobs, jobId) else old(selectedJob))
      ensures selectedJob.Some? && selectedJob != old(selectedJob) ==> selectedJob.value in jobs && selectedJob.value.id == jobId
      ensures userLocation == old(userLocation) && locationError == old(locationError)
      ensures isLoadingLocation == old(isLoadingLocation) && pending == old(pending)
      ensures leafletLoaded == old(leafletLoaded) && viewMode == old(viewMode) && alerts == old(alerts)
    {
      var job := FindJob(jobs, jobId);
      if job.Some? {
        selectedJob := job;
      }
    }

    /** `handleNavigation(job)`: an alert naming the job, only when a position is known. */
    method HandleNavigation(job: Job)
      modifies this
      ensures userLocation.Some? ==> alerts == old(alerts) + [NavigationAlert(job.title)]
      ensures userLocation.None? ==> alerts == old(alerts)
      ensures userLocation == old(userLocation) && locationError == old(locationError)
      ensures isLoadingLocation == old(isLoadingLocation) && pending == old(pending)
      ensures leafletLoaded == old(leafletLoaded) && viewMode == old(viewMode) && selectedJob == old(selectedJob)
    {
      if userLocation.Some? {
        alerts := alerts + [NavigationAlert(job.title)];
      }
    }

    /** The map / list toggle. */
    method SetViewMode(mode: ViewMode)
      modifies this
      ensures viewMode == mode
      ensures userLocation == old(userLocation) && locationError == old(locationError)
      ensures isLoadingLocation == old(isLoadingLocation) && pending == old(pending)
      ensures leafletLoaded == old(leafletLoaded) && selectedJob == old(selectedJob) && alerts == old(alerts)
    {
      viewMode := mode;
    }

    /** The warning alert's text, when one is rendered. */
    function ErrorAlert(): Option<string>
      reads this
    {
      if locationError.Some? && locationError.value != "" then Some(locationError.value + AlertSuffix) else None
    }

    /** The overlay over the map, when one is rendered. */
    function Overlay(): Option<string>
      reads this
    {
      if isLoadingLocation then Some("위치 확인 중...")
      else if !leafletLoaded then Some("지도 로딩 중...")
      else None
    }

    /** The floating current-location button. */
    predicate LocateButtonEnabled()
      reads this
    {
      !isLoadingLocation
    }
  }

  /**
   * The alert's "다시 시도" link has no `disabled` of its own, yet it can
   * only be clicked when no request is running: the alert exists only while
   * an error is stored, and starting a request clears the error. Its text
   * says the position fell back to Jamsil, which it has.
   */
  lemma RetryLinkOnlyWhenIdle(s: Screen)
    requires s.Valid() && s.ErrorAlert().Some?
    ensures s.LocateButtonEnabled() && s.Overlay() != Some("위치 확인 중...")
    ensures s.userLocation == Some(DefaultCoords)
    ensures EndsWith(s.ErrorAlert().value, AlertSuffix)
  {
  }
}
