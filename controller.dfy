/**
 * The screen's mutable state as one controller object: the orientation, anchor and visibility
 * flag, the transform values the sensor listeners write, and the refresh guard, loading flag,
 * data copies and interval handle. Each method is one event and is specified by the step
 * function of the module that states its rule.
 */
module Controller {
  import opened Wrappers
  import opened Orientation
  import opened Transform
  import opened Visibility
  import opened Refresh

  class ARScreenController {
    // Orientation tracking (currentOrientation, anchorOrientation, isPanelInView).
    var currentOrientation: Orientation
    var anchorOrientation: Option<Orientation>
    var isPanelInView: bool

    // Values the sensor listeners write (depth factor, rotation and translation).
    var depthFactor: real
    var rotateX: real
    var rotateY: real
    var translateX: real
    var translateY: real

    // Weather refresh (location, guard, loading flag, ref and state copies, interval handle).
    const location: Option<Location>
    var isUpdatingData: bool
    var loading: bool
    var dataRef: WeatherData
    var data: WeatherData
    var updateInterval: Option<nat>

    // Pending callbacks: the fetch, the 300 ms reset, the running intervals, the next handle.
    var fetchInFlight: bool
    var settlePending: bool
    var activeIntervals: set<nat>
    var nextIntervalId: nat

    function TrackerState(): Tracker
      reads this
    {
      Tracker(currentOrientation, anchorOrientation, isPanelInView)
    }

    function PoseState(): Pose
      reads this
    {
      Pose(depthFactor, rotateX, rotateY, Offset(translateX, translateY))
    }

    function RefresherState(): Refresher
      reads this
    {
      Refresher(location, isUpdatingData, loading, fetchInFlight, settlePending,
                dataRef, data, updateInterval, activeIntervals, nextIntervalId)
    }

    /** The flag agrees with the visibility rule, the depth is at least 1, the refresher is valid. */
    ghost predicate Valid()
      reads this
    {
      Consistent(TrackerState()) && PoseValid(PoseState()) && Refresh.Valid(RefresherState())
    }

    /** The screen as it mounts with the data and location it was opened with. */
    constructor (initialData: WeatherData, initialLocation: Option<Location>)
      ensures Valid()
      ensures TrackerState() == InitialTracker && PoseState() == InitialPose
      ensures RefresherState() == Initial(initialData, initialLocation)
    {
      currentOrientation := Origin;
      anchorOrientation := None;
      isPanelInView := true;
      depthFactor := 1.0;
      rotateX, rotateY := 0.0, 0.0;
      translateX, translateY := 0.0, 0.0;
      location := initialLocation;
      isUpdatingData := false;
      loading := false;
      dataRef := initialData;
      data := initialData;
      updateInterval := None;
      fetchInFlight := false;
      settlePending := false;
      activeIntervals := {};
      nextIntervalId := 0;
      new;
      InitialConsistent();
    }

    /** `setCurrentPositionAsAnchor`. */
    method SetCurrentPositionAsAnchor()
      requires Valid()
      modifies this
      ensures Valid()
      ensures TrackerState() == AnchorHere(old(TrackerState()))
      ensures PoseState() == old(PoseState()) && RefresherState() == old(RefresherState())
    {
      anchorOrientation := Some(currentOrientation);
      isPanelInView := true;
      AnchorIsInView(currentOrientation);
    }

    /**
     * The motion listener, given the sample's rotation in radians (absent when the sample has
     * none) and the opacity the panel reads at that moment; returns the fade it starts.
     */
    method OnDeviceMotion(rotation: Option<Orientation>, opacity: real) returns (fade: Fade)
      requires Valid()
      modifies this
      ensures Valid()
      ensures TrackerState() == Sampled(old(TrackerState()), rotation)
      ensures fade == SampleFade(old(TrackerState()), rotation, opacity)
      ensures rotation.None? ==> PoseState() == old(PoseState())
      ensures rotation.Some? ==> PoseState() == PoseAfterMotion(old(PoseState()), rotation.value)
      ensures RefresherState() == old(RefresherState())
    {
      fade := NoFade;
      if rotation.Some? {
        var r := rotation.value;
        var newOrientation := InDegrees(r);
        currentOrientation := newOrientation;
        if anchorOrientation.Some? {
          var shouldBeVisible := InView(newOrientation, anchorOrientation);
          if shouldBeVisible != isPanelInView {
            isPanelInView := shouldBeVisible;
            fade := ChooseFade(shouldBeVisible, opacity);
          }
        }
        rotateX := Tilt(r.beta);
        rotateY := Tilt(r.gamma);
        depthFactor := DepthFactor(r.beta);
      }
    }

    /** The accelerometer listener: the translation from the reading and the current depth. */
    method OnAccelerometer(accelX: real, accelY: real)
      requires Valid()
      modifies this
      ensures Valid()
      ensures PoseState() == PoseAfterAcceleration(old(PoseState()), accelX, accelY)
      ensures TrackerState() == old(TrackerState()) && RefresherState() == old(RefresherState())
    {
      var t := Translation(accelX, accelY, depthFactor);
      translateX := t.x;
      translateY := t.y;
    }

    /**
     * `actualizarDatosMeteorologicos` up to the fetch; returns the coordinates of the fetch it
     * starts, or nothing when it returns early.
     */
    method RefreshWeather() returns (request: Option<Location>)
      requires Valid()
      modifies this
      ensures Valid()
      ensures RefresherState() == Request(old(RefresherState()))
      ensures request == if StartsFetch(old(RefresherState())) then location else None
      ensures TrackerState() == old(TrackerState()) && PoseState() == old(PoseState())
    {
      if location.None? || isUpdatingData {
        return None;
      }
      isUpdatingData := true;
      loading := true;
      fetchInFlight := true;
      request := location;
    }

    /** `actualizarManualmente`: refresh only when the guard is clear. */
    method ManualRefresh() returns (request: Option<Location>)
      requires Valid()
      modifies this
      ensures Valid()
      ensures RefresherState() == RequestIfIdle(old(RefresherState()))
      ensures request == if StartsFetch(old(RefresherState())) then location else None
      ensures TrackerState() == old(TrackerState()) && PoseState() == old(PoseState())
    {
      request := None;
      if !isUpdatingData {
        request := RefreshWeather();
      }
    }

    /** The callback of the running interval `id`: refresh only when the guard is clear. */
    method IntervalTick(id: nat) returns (request: Option<Location>)
      requires Valid() && id in activeIntervals
      modifies this
      ensures Valid()
      ensures RefresherState() == Step(old(RefresherState()), Event.IntervalTick(id))
      ensures request == if StartsFetch(old(RefresherState())) then location else None
      ensures TrackerState() == old(TrackerState()) && PoseState() == old(PoseState())
    {
      request := None;
      if !isUpdatingData {
        request := RefreshWeather();
      }
    }

    /** The fetch started by a refresh ends with `outcome`: the code after the await and `finally`. */
    method FetchCompleted(outcome: FetchOutcome)
      requires Valid() && fetchInFlight
      modifies this
      ensures Valid()
      ensures RefresherState() == Complete(old(RefresherState()), outcome)
      ensures TrackerState() == old(TrackerState()) && PoseState() == old(PoseState())
    {
      if outcome.Fetched? {
        dataRef := outcome.data;
        data := outcome.data;
      }
      loading := false;
      fetchInFlight := false;
      settlePending := true;
    }

    /** The 300 ms timer scheduled in `finally` fires. */
    method SettleTimerFired()
      requires Valid() && settlePending
      modifies this
      ensures Valid()
      ensures RefresherState() == Settle(old(RefresherState()))
      ensures TrackerState() == old(TrackerState()) && PoseState() == old(PoseState())
    {
      isUpdatingData := false;
      settlePending := false;
    }

    /** `setupDataUpdateInterval`. */
    method SetupDataUpdateInterval()
      requires Valid()
      modifies this
      ensures Valid()
      ensures RefresherState() == SetupInterval(old(RefresherState()))
      ensures TrackerState() == old(TrackerState()) && PoseState() == old(PoseState())
    {
      if updateInterval.Some? {
        activeIntervals := activeIntervals - {updateInterval.value};
      }
      updateInterval := Some(nextIntervalId);
      activeIntervals := activeIntervals + {nextIntervalId};
      nextIntervalId := nextIntervalId + 1;
    }

    /** The interval effect: refresh once, then set up the interval. */
    method Mount() returns (request: Option<Location>)
      requires Valid()
      modifies this
      ensures Valid()
      ensures RefresherState() == Activate(old(RefresherState()))
      ensures request == if StartsFetch(old(RefresherState())) then location else None
      ensures TrackerState() == old(TrackerState()) && PoseState() == old(PoseState())
    {
      request := RefreshWeather();
      SetupDataUpdateInterval();
    }

    /** The interval effect's cleanup. */
    method Unmount()
      requires Valid()
      modifies this
      ensures Valid()
      ensures RefresherState() == Teardown(old(RefresherState()))
      ensures activeIntervals == {} && updateInterval.None?
      ensures TrackerState() == old(TrackerState()) && PoseState() == old(PoseState())
    {
      if updateInterval.Some? {
        activeIntervals := activeIntervals - {updateInterval.value};
        updateInterval := None;
      }
    }

    /** The entry-animation effect's cleanup, which clears the interval but keeps the handle. */
    method EntryCleanup()
      requires Valid()
      modifies this
      ensures Valid()
      ensures RefresherState() == EntryEffectCleanup(old(RefresherState()))
      ensures activeIntervals == {} && updateInterval == old(updateInterval)
      ensures TrackerState() == old(TrackerState()) && PoseState() == old(PoseState())
    {
      if updateInterval.Some? {
        activeIntervals := activeIntervals - {updateInterval.value};
      }
    }
  }

  /**
   * A client of the controller: the mount refresh starts the one fetch, a manual refresh while it
   * is in flight and one right after it ends are both no-ops, and once the settle timer has fired
   * a manual refresh starts a new fetch.
   */
  method RefreshScenario(initialData: WeatherData, at: Location, outcome: FetchOutcome)
    returns (onMount: Option<Location>, whileFetching: Option<Location>,
             beforeSettle: Option<Location>, afterSettle: Option<Location>)
    ensures onMount == Some(at) && whileFetching.None? && beforeSettle.None?
    ensures afterSettle == Some(at)
  {
    var screen := new ARScreenController(initialData, Some(at));
    onMount := screen.Mount();
    whileFetching := screen.ManualRefresh();
    screen.FetchCompleted(outcome);
    beforeSettle := screen.ManualRefresh();
    screen.SettleTimerFired();
    afterSettle := screen.ManualRefresh();
  }

  /**
   * A client of the controller: anchoring at a first sample and then turning 25 degrees in beta
   * hides the panel and starts the fade-out, whatever (positive) opacity it reads; turning back
   * shows it again, but starts a fade-in only if the opacity then reads exactly 0.
   */
  method AnchorAwayAndBack(first: Orientation, away: Orientation, back: Orientation, opacity: real)
    returns (hidden: bool, fadeOut: Fade, shown: bool, fadeIn: Fade)
    requires opacity > 0.0
    requires InDegrees(away).beta == InDegrees(first).beta + 25.0
    requires InDegrees(away).gamma == InDegrees(first).gamma
    requires InDegrees(back) == InDegrees(first)
    ensures hidden && fadeOut == FadeTo(0.0)
    ensures shown && fadeIn == NoFade
  {
    var screen := new ARScreenController(WeatherData("", "", 0.0, 0.0, 0.0, 0.0, 0.0), None);
    var ignored := screen.OnDeviceMotion(Some(first), 1.0);
    screen.SetCurrentPositionAsAnchor();
    fadeOut := screen.OnDeviceMotion(Some(away), opacity);
    hidden := !screen.isPanelInView;
    fadeIn := screen.OnDeviceMotion(Some(back), opacity);
    shown := screen.isPanelInView;
  }
}
