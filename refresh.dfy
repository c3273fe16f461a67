/**
 * The weather refresher: the single-flight guard (`isUpdatingData`), the loading flag, the data
 * held twice (the ref and the state), and the periodic interval with its handle, as a state
 * machine whose events are requests, fetch completions, the settle timer, interval setup and
 * teardown. The network call itself is an outcome chosen by the environment.
 */
module Refresh {
  import opened Wrappers

  /** The coordinates the screen was opened with. */
  datatype Location = Location(latitude: real, longitude: real)

  /** A weather snapshot as the fetch returns it; replaced wholesale on every success. */
  datatype WeatherData = WeatherData(
    locationName: string, condition: string, temperature: real, feelsLike: real,
    humidity: real, windSpeed: real, windDirection: real)

  /** How a fetch ends: with new data, or rejected. */
  datatype FetchOutcome = Fetched(data: WeatherData) | FetchFailed

  /**
   * `updating` is the guard, `loading` the loading flag, `dataRef` and `data` the ref and the state
   * copies of the snapshot, `interval` the stored interval handle. `inFlight` (a fetch has started
   * and not ended), `settlePending` (the 300 ms reset is scheduled), `active` (the intervals the
   * timer service still runs) and `nextId` (the handle the next interval gets) describe the
   * pending callbacks.
   */
  datatype Refresher = Refresher(
    location: Option<Location>,
    updating: bool,
    loading: bool,
    inFlight: bool,
    settlePending: bool,
    dataRef: WeatherData,
    data: WeatherData,
    interval: Option<nat>,
    active: set<nat>,
    nextId: nat)

  /**
   * The invariant every event keeps: loading exactly while a fetch is in flight; the guard held
   * exactly while a fetch or its settle timer is pending, never both; both copies of the data
   * equal; at most one interval running, and it is the stored handle.
   */
  predicate Valid(s: Refresher)
  {
    && (s.loading <==> s.inFlight)
    && (s.inFlight ==> s.location.Some? && !s.settlePending)
    && (s.updating <==> s.inFlight || s.settlePending)
    && s.dataRef == s.data
    && (forall id :: id in s.active ==> s.interval == Some(id) && id < s.nextId)
    && (s.interval.Some? ==> s.interval.value < s.nextId)
  }

  /** At most one interval is running. */
  lemma AtMostOneInterval(s: Refresher, id1: nat, id2: nat)
    requires Valid(s) && id1 in s.active && id2 in s.active
    ensures id1 == id2
  {
  }

  /** The screen's state as it mounts: guard clear, not loading, both copies the initial data. */
  function Initial(data: WeatherData, location: Option<Location>): (s: Refresher)
    ensures Valid(s)
    ensures !s.updating && !s.loading && s.dataRef == data && s.data == data
    ensures s.interval.None? && s.active == {} && s.location == location
  {
    Refresher(location, false, false, false, false, data, data, None, {}, 0)
  }

  /** Whether `actualizarDatosMeteorologicos` gets past its guard and starts a fetch. */
  predicate StartsFetch(s: Refresher)
  {
    s.location.Some? && !s.updating
  }

  /**
   * `actualizarDatosMeteorologicos` up to the fetch: without a location or with the guard set it
   * changes nothing; otherwise guard and loading are set before the fetch starts.
   */
  function Request(s: Refresher): (u: Refresher)
    ensures !StartsFetch(s) ==> u == s
    ensures StartsFetch(s) ==> u.updating && u.loading && u.inFlight
    ensures StartsFetch(s) ==> u.(updating := s.updating, loading := s.loading, inFlight := s.inFlight) == s
    ensures Valid(s) ==> Valid(u)
  {
    if !StartsFetch(s) then s
    else s.(updating := true, loading := true, inFlight := true)
  }

  /**
   * The fetch ends. On success the ref and the state both take the new data; on failure both are
   * kept. Either way loading ends and the settle timer is scheduled; the guard stays set.
   */
  function Complete(s: Refresher, outcome: FetchOutcome): (u: Refresher)
    requires s.inFlight
    ensures !u.loading && !u.inFlight && u.settlePending && u.updating == s.updating
    ensures outcome.Fetched? ==> u.dataRef == outcome.data && u.data == outcome.data
    ensures outcome.FetchFailed? ==> u.dataRef == s.dataRef && u.data == s.data
    ensures u.interval == s.interval && u.active == s.active && u.nextId == s.nextId
    ensures u.location == s.location
    ensures Valid(s) ==> Valid(u)
  {
    var kept := s.(loading := false, inFlight := false, settlePending := true);
    match outcome
    case Fetched(d) => kept.(dataRef := d, data := d)
    case FetchFailed => kept
  }

  /** The 300 ms timer fires and releases the guard; nothing else changes. */
  function Settle(s: Refresher): (u: Refresher)
    requires s.settlePending
    ensures !u.updating && !u.settlePending
    ensures u.(updating := s.updating, settlePending := s.settlePending) == s
    ensures Valid(s) ==> Valid(u)
  {
    s.(updating := false, settlePending := false)
  }

  /** `actualizarManualmente` and the interval's callback: refresh only when the guard is clear. */
  function RequestIfIdle(s: Refresher): (u: Refresher)
    ensures s.updating ==> u == s
    ensures !s.updating ==> u == Request(s)
  {
    if !s.updating then Request(s) else s
  }

  /**
   * The callers' own check of the guard adds nothing: `actualizarDatosMeteorologicos` checks it
   * again, so guarding the call or not gives the same state.
   */
  lemma RequestIfIdleIsRequest(s: Refresher)
    ensures RequestIfIdle(s) == Request(s)
  {
  }

  /**
   * `setupDataUpdateInterval`: the stored interval, if any, is cleared before a new one is
   * created and stored, so exactly one interval runs afterwards.
   */
  function SetupInterval(s: Refresher): (u: Refresher)
    ensures u.interval == Some(s.nextId) && u.nextId == s.nextId + 1
    ensures Valid(s) ==> Valid(u) && u.active == {s.nextId}
    ensures u.(interval := s.interval, active := s.active, nextId := s.nextId) == s
  {
    var running := if s.interval.Some? then s.active - {s.interval.value} else s.active;
    s.(interval := Some(s.nextId), active := running + {s.nextId}, nextId := s.nextId + 1)
  }

  /** The interval effect: one refresh right away, then the interval setup. */
  function Activate(s: Refresher): (u: Refresher)
    ensures u.interval == Some(s.nextId)
    ensures Valid(s) ==> Valid(u) && u.active == {s.nextId}
    ensures StartsFetch(s) ==> u.inFlight
    ensures u.(interval := s.interval, active := s.active, nextId := s.nextId) == Request(s)
  {
    SetupInterval(Request(s))
  }

  /** The interval effect's cleanup: clear the stored interval and reset the handle. */
  function Teardown(s: Refresher): (u: Refresher)
    ensures u.interval.None?
    ensures Valid(s) ==> Valid(u) && u.active == {}
    ensures u.(interval := s.interval, active := s.active) == s
  {
    if s.interval.Some? then s.(interval := None, active := s.active - {s.interval.value}) else s
  }

  /**
   * The entry-animation effect's cleanup (lines 90-94) also clears the stored interval, but keeps
   * the handle: no interval runs afterwards although one is still recorded.
   */
  function EntryEffectCleanup(s: Refresher): (u: Refresher)
    ensures u.interval == s.interval
    ensures Valid(s) ==> Valid(u) && u.active == {}
    ensures u.(active := s.active) == s
  {
    if s.interval.Some? then s.(active := s.active - {s.interval.value}) else s
  }

  /**
   * The entry effect's cleanup as its comment describes it, a clean-up for unmounting: the
   * interval belongs to the interval effect, whose own cleanup clears it, so this one leaves the
   * stored handle and the running interval alone.
   */
  function IntendedEntryEffectCleanup(s: Refresher): (u: Refresher)
    ensures u.interval == s.interval && u.active == s.active
    ensures Valid(s) ==> Valid(u)
  {
    s
  }

  /** The events the screen reacts to. */
  datatype Event =
    | ManualRefresh
    | IntervalTick(id: nat)
    | FetchEnded(outcome: FetchOutcome)
    | SettleTimer
    | Mount
    | SetupIntervalAgain
    | Unmount
    | EntryCleanup

  /**
   * Which events can arrive: a tick only from a running interval, a completion only for the
   * fetch in flight, the settle timer only once scheduled.
   */
  predicate Enabled(s: Refresher, e: Event)
  {
    match e
    case IntervalTick(id) => id in s.active
    case FetchEnded(_) => s.inFlight
    case SettleTimer => s.settlePending
    case _ => true
  }

  function Step(s: Refresher, e: Event): Refresher
    requires Enabled(s, e)
  {
    match e
    case ManualRefresh => RequestIfIdle(s)
    case IntervalTick(_) => RequestIfIdle(s)
    case FetchEnded(o) => Complete(s, o)
    case SettleTimer => Settle(s)
    case Mount => Activate(s)
    case SetupIntervalAgain => SetupInterval(s)
    case Unmount => Teardown(s)
    case EntryCleanup => EntryEffectCleanup(s)
  }

  /** The screen as the entry effect's cleanup is meant to leave it: the stored interval runs. */
  predicate Ticking(s: Refresher)
  {
    s.interval.Some? && s.interval.value in s.active
  }

  /** The refresher's step with the entry effect's cleanup as intended. */
  function IntendedStep(s: Refresher, e: Event): Refresher
    requires Enabled(s, e)
  {
    match e
    case EntryCleanup => IntendedEntryEffectCleanup(s)
    case _ => Step(s, e)
  }

  /** Every enabled event keeps the invariant. */
  lemma StepPreservesValid(s: Refresher, e: Event)
    requires Valid(s) && Enabled(s, e)
    ensures Valid(Step(s, e))
  {
  }

  /** A sequence of events each of which is enabled when it arrives. */
  predicate Feasible(s: Refresher, events: seq<Event>)
    decreases |events|
  {
    events == [] || (Enabled(s, events[0]) && Feasible(Step(s, events[0]), events[1..]))
  }

  function Run(s: Refresher, events: seq<Event>): Refresher
    requires Feasible(s, events)
    decreases |events|
  {
    if events == [] then s else Run(Step(s, events[0]), events[1..])
  }

  /** Any feasible sequence of events keeps the invariant. */
  lemma {:induction false} RunPreservesValid(s: Refresher, events: seq<Event>)
    requires Valid(s) && Feasible(s, events)
    ensures Valid(Run(s, events))
    decreases |events|
  {
    if events != [] {
      StepPreservesValid(s, events[0]);
      RunPreservesValid(Step(s, events[0]), events[1..]);
    }
  }

  /** The guard is released by the settle timer and by no other event. */
  lemma GuardReleasedOnlyBySettle(s: Refresher, e: Event)
    requires Enabled(s, e) && s.updating && !Step(s, e).updating
    ensures e == SettleTimer
  {
  }

  /** Two requests with nothing in between start exactly one fetch: the second is a no-op. */
  lemma RequestTwiceIsOnce(s: Refresher)
    ensures Request(Request(s)) == Request(s)
    ensures RequestIfIdle(RequestIfIdle(s)) == RequestIfIdle(s)
  {
  }

  /**
   * Right after a fetch ends, success or failure, the guard still blocks every request; once the
   * settle timer has fired a request with a location starts a new fetch.
   */
  lemma NoRefetchBeforeSettle(s: Refresher, outcome: FetchOutcome)
    requires Valid(s) && s.inFlight
    ensures var u := Complete(s, outcome);
      && Request(u) == u && RequestIfIdle(u) == u
      && Request(Settle(u)).inFlight
  {
  }

  /** Setting the interval up twice in a row leaves exactly one running: the one created last. */
  lemma SetupTwiceLeavesOne(s: Refresher)
    requires Valid(s)
    ensures var u := SetupInterval(SetupInterval(s));
      u.active == {u.interval.value} && s.nextId !in u.active
  {
  }

  /** After teardown no interval runs, so no tick can arrive. */
  lemma NoTickAfterTeardown(s: Refresher, id: nat)
    requires Valid(s)
    ensures !Enabled(Teardown(s), IntervalTick(id))
  {
  }

  /**
   * Once the entry effect's cleanup has run no tick can arrive while the handle is still set,
   * so periodic refreshes stop until the interval is set up again.
   */
  lemma EntryCleanupStopsTicks(s: Refresher, id: nat)
    requires Valid(s) && s.interval.Some?
    ensures EntryEffectCleanup(s).interval.Some?
    ensures !Enabled(EntryEffectCleanup(s), IntervalTick(id))
  {
  }

  /**
   * The code as written: right after mounting the stored interval runs, and one entry-effect
   * cleanup (a camera-permission change) stops it while the screen stays mounted.
   */
  lemma EntryCleanupCounterexample(data: WeatherData, location: Option<Location>)
    ensures var mounted := Step(Initial(data, location), Mount);
      Ticking(mounted) && !Ticking(Step(mounted, EntryCleanup))
      && Ticking(IntendedStep(mounted, EntryCleanup))
  {
    var s0 := Initial(data, location);
    assert Valid(s0);
  }

  /**
   * With the cleanup as intended, every event other than unmounting keeps the stored interval
   * running, so periodic refreshes continue for as long as the screen is mounted.
   */
  lemma IntendedKeepsTicking(s: Refresher, e: Event)
    requires Valid(s) && Ticking(s) && Enabled(s, e) && e != Unmount
    ensures Valid(IntendedStep(s, e)) && Ticking(IntendedStep(s, e))
    ensures Enabled(IntendedStep(s, e), IntervalTick(IntendedStep(s, e).interval.value))
  {
  }
}
