# AR weather screen: anchor tracking, panel transform and single-flight refresh

This project models the logic inside the augmented-reality screen of a weather viewer
(`screens/ARScreen.js`). The screen shows a weather panel over the camera feed. It tracks the
device orientation against an anchor the user sets, which decides whether the panel is in view.
It turns accelerometer and motion samples into the panel's tilt, translation, depth and parallax.
It refreshes the weather data on demand and every 10 seconds, behind a single-flight guard. It
also picks an emoji for the weather condition.

The model has seven modules:

- `Orientation` gives the orientation triple and the visibility rule `InView` (`checkIfPanelInView`).
  There is no anchor: always in view. There is an anchor: in view iff both |Δbeta| < 20 and
  |Δgamma| < 20. The inequality is strict and alpha is ignored.
- `Transform` holds the arithmetic over `real`:
  - radians to degrees;
  - the visual tilt (degrees × 0.15);
  - the depth factor `1 + |beta| × 0.08`, with beta in radians;
  - the accelerometer translation `(x × −15 × 0.05 × depth, y × 15 × 0.05 × depth)`;
  - the two interpolations: rotation −30..30 → −30..30, parallax −30..30 → 3..−3.
  - `Pose` collects the values the sensor listeners write.
- `Visibility` holds three pieces:
  - the fade choice of `updatePanelVisibility` (`ChooseFade`);
  - the tracker state (current orientation, anchor, recorded flag);
  - its step functions for the "anchor here" action (`AnchorHere`) and for a motion sample
    (`Sampled`, `SampleFade`).
  The invariant `Consistent` says that the recorded flag always equals the rule's value.
- `Refresh` is the refresher as a state machine. Its state holds:
  - the guard, the loading flag, and the ref and state copies of the data;
  - the interval handle;
  - the pending callbacks: the fetch in flight, the 300 ms settle timer, and the running intervals.
  Every event has a step function. The invariant `Valid` holds:
  - loading exactly while a fetch is in flight;
  - the guard held exactly while a fetch or its settle timer is pending;
  - both data copies equal;
  - at most one interval running, and it is the stored handle.
- `WeatherIcon` is `obtenerEmojiClima`. It lower-cases the condition, then tests the keyword pairs
  rain, cloud, sun, snow, thunder, fog in that order. It returns the emoji of the first rule with
  a match, or the default.
- `Controller` is the class `ARScreenController`. Its fields are the screen's refs and state
  variables. It has one method per event: anchor, motion sample, accelerometer sample, refresh,
  manual refresh, interval tick, fetch completion, settle timer, interval setup, mount and the two
  cleanups. Each method's `ensures` ties the new state to the step function of the old state and
  says that the other parts do not change.

Inputs the screen gets from its environment are method parameters:

- the sample values;
- the opacity the animated value reads at the moment of a sample;
- the outcome of the network fetch (`Fetched(data)` or `FetchFailed`);
- the handle of the interval that fires.

The model proves three behaviours of the code as written:

- `setCurrentPositionAsAnchor` forces the flag to true but starts no fade. If the panel had
  faded out to opacity 0, neither the anchoring nor a sample at the anchor starts a fade-in. The
  first fade-in comes only after a sample away from the anchor flips the flag to hidden and a
  sample back at the anchor flips it to visible again (`FadedOutAnchorNeedsTwoFlips`).
- `updatePanelVisibility` starts a fade-in only when the opacity reads exactly 0. A visible
  request while the opacity reads strictly between 0 and 1 starts nothing
  (`VisibleRequestMidFadeIgnored`, `AnchorAwayAndBack`).
- The cleanup of the entry-animation effect (lines 90-94) clears the stored interval but keeps
  its handle. After it runs no tick can arrive, although a handle is still recorded
  (`EntryCleanupStopsTicks`). React re-runs that effect, and its cleanup, whenever the permission
  flag changes, so this stops the 10 s refresh while the screen stays shown. "## Findings" below
  records this together with a corrected cleanup; the controller performs the cleanup as written.

## Model

| member | source | states |
|---|---|---|
| `Orientation.Abs` | screens/ARScreen.js:117-118 | the result is non-negative and equals x or −x |
| `Orientation.InView` | screens/ARScreen.js:113-125 | with no anchor the panel is in view; with an anchor, in view iff beta and gamma both lie strictly within 20 of the anchor's, both directions |
| `Orientation.OneAxisOutHides` | screens/ARScreen.js:124 | AND semantics: either axis at or beyond the threshold hides the panel |
| `Orientation.ThresholdIsExclusive` | screens/ARScreen.js:121-124 | a beta deviation of exactly 20 is out of view |
| `Orientation.AnchorIsInView` | screens/ARScreen.js:113-125 | the anchor's own orientation is in view |
| `Orientation.AlphaIgnored` | screens/ARScreen.js:117-124 | changing alpha of the sample or of the anchor never changes visibility |
| `Orientation.AnchorScenario` | screens/ARScreen.js:113-125 | anchored at {0,10,5}: {25,5} is in view, {35,5} is not |
| `Transform.ToDegrees` | screens/ARScreen.js:189-191 | the result d satisfies d·π = rad·180 and has the sign of rad |
| `Transform.ToDegreesInjective` | screens/ARScreen.js:189-191 | equal degrees iff equal radians |
| `Transform.HalfTurnIs180` | screens/ARScreen.js:189-191 | π radians is 180 degrees |
| `Transform.InDegrees` | screens/ARScreen.js:188-192 | each of the three angles is the degree conversion of the sample's |
| `Transform.InDegreesInjective` | screens/ARScreen.js:188-192 | two samples give the same orientation iff they are equal |
| `Transform.Tilt` | screens/ARScreen.js:183-185 | 27 degrees of tilt per half turn (tilt·π = rad·27), same sign as the angle |
| `Transform.TiltWithinRotationRange` | screens/ARScreen.js:358-366 | for angles within ±π the tilt stays within ±27, inside the rotation interpolation's input range |
| `Transform.DepthFactor` | screens/ARScreen.js:209 | the factor is at least 1, and equals 1 iff beta is 0 |
| `Transform.DepthFactorEven` | screens/ARScreen.js:209 | beta and −beta give the same factor |
| `Transform.DepthFactorMonotone` | screens/ARScreen.js:209 | a beta of larger absolute value gives a factor at least as large |
| `Transform.DepthFactorAtRightAngle` | screens/ARScreen.js:209 | at beta = π/2 the factor is 1 + π·0.04, between 1.1256 and 1.1257 |
| `Transform.Translation` | screens/ARScreen.js:165-169 | with positive depth the panel moves against x and with y; with depth ≥ 1 each component is at least 0.75 times the reading's magnitude |
| `Transform.TranslationInverse` | screens/ARScreen.js:168-169 | with non-zero depth the reading is recovered from the translation |
| `Transform.Lerp` | screens/ARScreen.js:358-376 | inside the input range: the map is linear, (r − outLo)·(inHi − inLo) = (x − inLo)·(outHi − outLo); the endpoints map to the output endpoints and the result lies between them |
| `Transform.RotationInterpolation` | screens/ARScreen.js:358-366 | inside −30..30 the tilt interpolation is the identity |
| `Transform.ParallaxInterpolation` | screens/ARScreen.js:369-376 | inside −30..30 the parallax is −v/10, within ±3 |
| `Transform.TranslationWithinParallaxRange` | screens/ARScreen.js:369-376 | readings up to ±30 with beta within ±π give translations inside the parallax input range |
| `Transform.PoseAfterMotion` | screens/ARScreen.js:204-209 | a motion sample sets tilt (·π = angle·27) and the depth to the depth factor of beta (≥ 1, and 1 iff level), and keeps the translation |
| `Transform.PoseAfterAcceleration` | screens/ARScreen.js:163-170 | an accelerometer sample changes only the translation, from which the reading is recovered using the current depth |
| `Visibility.ChooseFade` | screens/ARScreen.js:128-145 | fade to 0 iff hidden is requested and opacity > 0; fade to 1 iff visible is requested and opacity is exactly 0; otherwise nothing |
| `Visibility.VisibleRequestMidFadeIgnored` | screens/ARScreen.js:136 | a visible request at an opacity strictly between 0 and 1 starts no fade |
| `Visibility.InitialConsistent` | screens/ARScreen.js:36-42 | the initial state (unanchored, level, in view) satisfies the flag invariant |
| `Visibility.AnchorHere` | screens/ARScreen.js:98-100 | the anchor becomes the current orientation, the flag is true, and the flag invariant holds afterwards |
| `Visibility.Sampled` | screens/ARScreen.js:184-202 | a missing rotation changes nothing; otherwise the orientation becomes the sample in degrees, the anchor is kept, the flag changes only when anchored and then to the rule's value, and the flag invariant is kept |
| `Visibility.SampleFade` | screens/ARScreen.js:196-202 | a fade is requested only for an anchored sample whose flag flipped, and then it is the fade chosen for the new flag |
| `Visibility.AnchorThenSameSample` | screens/ARScreen.js:98-124 | right after anchoring, a sample at the same orientation changes nothing and requests no fade |
| `Visibility.LookingAwayFadesOut` | screens/ARScreen.js:196-201 | anchored at {0,10,5} and in view, a sample at beta 35 hides the panel and starts the fade to 0 |
| `Visibility.FadedOutAnchorNeedsTwoFlips` | screens/ARScreen.js:98-202 | at opacity 0, anchoring and a sample at the anchor start no fade; a sample away hides the panel without a fade, and a sample back shows it and starts the fade to 1 |
| `Visibility.TrackConsistent` | screens/ARScreen.js:178-202 | after any stream of samples the flag still equals the rule's value |
| `Visibility.TrackKeepsAnchor` | screens/ARScreen.js:196-202 | samples never change or clear the anchor |
| `Visibility.UnanchoredStaysInView` | screens/ARScreen.js:196 | without an anchor the panel stays in view whatever the samples |
| `Visibility.TrackEndsAtLastSample` | screens/ARScreen.js:196-200 | when anchored, after a stream ending in a sample the flag is the rule's value for that sample |
| `Refresh.AtMostOneInterval` | screens/ARScreen.js:289-302 | under the invariant, two running intervals are the same interval |
| `Refresh.Initial` | screens/ARScreen.js:19-52 | the mounted state satisfies the invariant, has the guard clear, is not loading, holds the initial data in both copies, keeps the given location, and has no interval |
| `Refresh.Request` | screens/ARScreen.js:232-243 | no location or the guard set: nothing changes; otherwise guard and loading are set and a fetch starts, nothing else changes; the invariant is kept |
| `Refresh.Complete` | screens/ARScreen.js:243-279 | success: ref and state both hold the new data; failure: both are kept; either way loading ends, the settle timer is scheduled and the guard stays set; location, interval, running intervals and handle counter are kept; the invariant is kept |
| `Refresh.Settle` | screens/ARScreen.js:276-278 | the guard is released and nothing else changes |
| `Refresh.RequestIfIdle` | screens/ARScreen.js:316-320 | with the guard set nothing changes; otherwise it is a refresh |
| `Refresh.RequestIfIdleIsRequest` | screens/ARScreen.js:298-300 | the callers' own guard check is redundant: the guarded refresh equals the plain one, because the refresh checks the guard itself |
| `Refresh.SetupInterval` | screens/ARScreen.js:289-302 | the stored interval is cleared and a fresh one stored, so exactly that one runs; the invariant is kept |
| `Refresh.Activate` | screens/ARScreen.js:283-304 | one refresh, then exactly one running interval, the stored one; apart from the interval, the running intervals and the handle counter the state is that of the refresh |
| `Refresh.Teardown` | screens/ARScreen.js:307-311 | the handle is reset and no interval runs afterwards; the invariant is kept |
| `Refresh.EntryEffectCleanup` | screens/ARScreen.js:90-94 | no interval runs afterwards, but the handle is kept |
| `Refresh.IntendedEntryEffectCleanup` | screens/ARScreen.js:89-94 | the corrected cleanup leaves the stored handle and the running intervals alone and keeps the invariant |
| `Refresh.StepPreservesValid` | screens/ARScreen.js:232-320 | every event, when it can arrive, keeps the invariant |
| `Refresh.RunPreservesValid` | screens/ARScreen.js:232-320 | every feasible sequence of events keeps the invariant |
| `Refresh.GuardReleasedOnlyBySettle` | screens/ARScreen.js:273-278 | the settle timer is the only event that releases the guard |
| `Refresh.RequestTwiceIsOnce` | screens/ARScreen.js:233-240 | two back-to-back requests (direct or guarded) have the effect of one |
| `Refresh.NoRefetchBeforeSettle` | screens/ARScreen.js:273-279 | right after a fetch ends every request is a no-op; after the settle timer a request starts a fetch |
| `Refresh.SetupTwiceLeavesOne` | screens/ARScreen.js:289-302 | two setups in a row leave exactly one interval, the newest |
| `Refresh.NoTickAfterTeardown` | screens/ARScreen.js:307-311 | after teardown no tick can arrive |
| `Refresh.EntryCleanupStopsTicks` | screens/ARScreen.js:90-94 | after the entry effect's cleanup a handle is still stored but no tick can arrive |
| `Refresh.EntryCleanupCounterexample` | screens/ARScreen.js:90-94 | right after mounting the stored interval runs; one entry cleanup as written stops it, the corrected one does not |
| `Refresh.IntendedKeepsTicking` | screens/ARScreen.js:89-94 | with the corrected cleanup, every event except unmounting keeps the stored interval running, so its tick can still arrive |
| `WeatherIcon.LowerChar` | screens/ARScreen.js:515 | capitals map 32 code points down, everything else is kept, and no capital is left |
| `WeatherIcon.Lower` | screens/ARScreen.js:515 | same length, each character lower-cased |
| `WeatherIcon.LowerIdempotent` | screens/ARScreen.js:515 | lower-casing twice equals lower-casing once |
| `WeatherIcon.Contains` | screens/ARScreen.js:516-521 | `includes`: the result is true iff the keyword occurs at some position |
| `WeatherIcon.Classify` | screens/ARScreen.js:515-522 | a non-default icon's rule fires on the lower-cased condition; rain, the first rule, is chosen iff its rule fires |
| `WeatherIcon.ClassifyIsFirstMatch` | screens/ARScreen.js:514-523 | the icon is rule j's iff rule j fires and no earlier rule does |
| `WeatherIcon.ClassifyDefault` | screens/ARScreen.js:522 | the default iff no rule fires |
| `WeatherIcon.ClassifyIgnoresCase` | screens/ARScreen.js:515 | a condition and its lower-cased form get the same icon |
| `WeatherIcon.KeywordFires` | screens/ARScreen.js:516-521 | a keyword occurring anywhere in the lower-cased condition makes its rule fire |
| `WeatherIcon.Glyph` | screens/ARScreen.js:516-522 | each emoji is one symbol followed by the emoji variation selector U+FE0F |
| `WeatherIcon.GlyphInjective` | screens/ARScreen.js:516-522 | different icons show different emoji |
| `WeatherIcon.ConditionEmoji` | screens/ARScreen.js:514-523 | the emoji is rule j's iff rule j is the first rule that fires, and the default emoji iff no rule fires |
| `WeatherIcon.RainBeforeCloud` | screens/ARScreen.js:516-517 | "Lluvia y nubes" gets the rain icon |
| `Controller.ARScreenController.constructor` | screens/ARScreen.js:19-52 | the initial tracker, pose and refresher state, with the invariants |
| `Controller.ARScreenController.SetCurrentPositionAsAnchor` | screens/ARScreen.js:98-110 | the tracker becomes `AnchorHere` of the old one; pose and refresher unchanged |
| `Controller.ARScreenController.OnDeviceMotion` | screens/ARScreen.js:178-211 | the tracker becomes `Sampled`, the fade returned is `SampleFade`, the pose is `PoseAfterMotion` (unchanged without rotation); the refresher is unchanged |
| `Controller.ARScreenController.OnAccelerometer` | screens/ARScreen.js:163-170 | the pose becomes `PoseAfterAcceleration`; nothing else changes |
| `Controller.ARScreenController.RefreshWeather` | screens/ARScreen.js:232-243 | the refresher becomes `Request` of the old one; the location is returned iff a fetch starts |
| `Controller.ARScreenController.ManualRefresh` | screens/ARScreen.js:316-320 | the refresher becomes `RequestIfIdle` of the old one |
| `Controller.ARScreenController.IntervalTick` | screens/ARScreen.js:296-301 | a tick of a running interval is a guarded refresh |
| `Controller.ARScreenController.FetchCompleted` | screens/ARScreen.js:243-279 | the refresher becomes `Complete` of the old one and the outcome |
| `Controller.ARScreenController.SettleTimerFired` | screens/ARScreen.js:276-278 | the refresher becomes `Settle` of the old one |
| `Controller.ARScreenController.SetupDataUpdateInterval` | screens/ARScreen.js:289-302 | the refresher becomes `SetupInterval` of the old one |
| `Controller.ARScreenController.Mount` | screens/ARScreen.js:283-304 | the refresher becomes `Activate` of the old one |
| `Controller.ARScreenController.Unmount` | screens/ARScreen.js:307-311 | the refresher becomes `Teardown` of the old one: no interval, no handle |
| `Controller.ARScreenController.EntryCleanup` | screens/ARScreen.js:90-94 | the refresher becomes `EntryEffectCleanup` of the old one: no interval, handle kept |
| `Controller.RefreshScenario` | screens/ARScreen.js:232-320 | on a fresh screen with a location: the mount refresh starts a fetch, manual refreshes while it runs and right after it ends start nothing, and after the settle timer one starts a fetch again |
| `Controller.AnchorAwayAndBack` | screens/ARScreen.js:98-202 | anchored at a sample, turning 25 degrees in beta hides the panel and starts the fade to 0; turning back sets the flag again but, at a non-zero opacity, starts no fade-in |

## Left out

- Camera permission request, the permission screens, and `abrirConfiguracion` with its platform branches (lines 55-61, 323-355). These are operating-system wrappers.
- `obtenerDatosMeteorologicos` is not part of this model. It is a remote call. Its result is the `FetchOutcome` passed to `FetchCompleted`. A fetch that never ends is a `FetchCompleted` that never happens, and the guard then stays set.
- Haptic feedback, `Alert.alert` and console logging are left out. They are fire-and-forget side effects.
- Animation internals are left out: the entry fade and spring (lines 64-87), the 0.98 → 1 scale pulse after a refresh (lines 252-263), durations and the native driver. The model records only which fade target a call chooses. The opacity the animated value reads is an input.
- React hook semantics are left out. The model applies events one at a time to the latest state. In the code, a listener sees the values from when its effect last subscribed. For example, the accelerometer listener keeps the `depthFactor` of its subscription time, because `depthFactor` is not among the effect's dependencies (line 229).
- Sensor availability checks, `setUpdateInterval(16)`, and subscribing and unsubscribing the listeners (lines 152-228) are left out. They are platform plumbing.
- Real time is left out. The 10 s interval and the 300 ms settle delay are events (`IntervalTick`, `SettleTimerFired`).
- `toFixed` and `toLocaleTimeString` formatting, all rendering and the style sheet (lines 357-511, 525-783), and App.js navigation are left out.
- Numbers are `real`, with no IEEE rounding. π is the decimal 3.141592653589793.
- The location is a constant. The screen never calls `setUbicacion`.
- `WeatherIcon.LowerChar`: maps ASCII capitals only; see the next line.
- `WeatherIcon.Lower`: lower-cases ASCII capitals only, where `toLowerCase` maps all of Unicode. This cannot change a match: every keyword is ASCII lower case, and the only non-ASCII characters that lower-case to ASCII letters are the Kelvin sign (to `k`, in no keyword) and U+0130 (to `i` followed by U+0307, and no keyword has an `i` followed by that mark or ends in `i`).
- `Transform.RotationInterpolation`, `Transform.ParallaxInterpolation`, `Transform.Lerp`: defined only inside the declared input range −30..30. The behaviour outside that range belongs to the animation library. The rotation output is in degrees as a number, not the `"deg"` string.
- The motion listener's `rotation` check treats any present value as a sample. A partially filled rotation object is not modelled.

## Findings

| source | as written | input that shows it | evidently intended | confidence | as-written member | corrected member |
|---|---|---|---|---|---|---|
| screens/ARScreen.js:89-94 | the entry effect's cleanup, re-run whenever the permission flag changes, clears the refresh interval but keeps its handle | mount the screen, then let the camera permission flag change (for example from loading to granted): no 10 s refresh runs afterwards while the screen stays shown | a cleanup for unmounting, as the comment above it says, that leaves the interval to the interval effect, so periodic refreshes continue while mounted | medium, not executed | `Refresh.EntryEffectCleanup`, `Refresh.EntryCleanupCounterexample` | `Refresh.IntendedEntryEffectCleanup`, `Refresh.IntendedKeepsTicking` |
