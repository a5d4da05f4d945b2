# Robot dashboard telemetry core, in Dafny

A model of the telemetry-to-display logic of a single-page dashboard (`app.py`)
that shows a MiRo robot's internal state. Three timer callbacks poll the robot's
core and perception clients and turn what they read into chart data and image
sources:

- the **fast cycle** (`callback_fast`) draws the action-selection bars
  (priorities negated, inhibitions as read), the affect scatter plots with a
  background face picked from the mood and wakefulness values, and the
  motivation history, a persisted store of "social" and "ball" drive levels
  that each tick with data extends and trims;
- the **medium cycle** (`callback_medium`) decides, for the nine camera and
  attention widgets, whether each shows an encoded frame, a placeholder image
  or nothing;
- the **slow cycle** (`callback_slow`) picks the clock face asset for the hour;
- five **dialog toggles** (`modal_*`) open and close the information dialogs.

Files and modules: `wrappers.dfy` (`Option`, `Result`), `assets.dfy` (asset
path), `bands.dfy` (the left-open, right-closed band test and band lookup),
`faces.dfy` (face tables, the nested-loop lookups and their reference
functions), `action.dfy` (action series), `motivation.dfy` (the store as a
class, the window as functions on sequences), `fast_cycle.dfy`,
`medium_cycle.dfy`, `slow_cycle.dfy`, `modals.dfy`.

Behaviour modelled as the code has it:

- The motivation store trims when "social" has *reached* 30 samples after an
  append, so it never holds more than 29 samples, one fewer than the 30-point
  x axis it is drawn against (`Motivation.SlideAllKeepsLast`). The trim
  decision is taken on "social" alone and pops both series.
- The face lookups use `lower < v <= lower + width`. Valence or arousal of 0
  or below, valence above 1, arousal above 1.2 and wakefulness outside (0, 1]
  match no band. There is no clamping. The face variable is then never
  assigned, and the tick raises when the figure is built. The model returns
  `Err(MoodFaceUnassigned)` or `Err(SleepFaceUnassigned)`.
- When there is no left camera frame, the medium cycle picks the camera test
  patterns, but it never assigns the wide attention source. The tick raises
  (`Err(PriwUnassigned)`). A missing right camera frame, or a missing right
  attention map while the left one is shown, reaches the frame encoder and
  raises as well.
- A tick that raises publishes nothing. The framework then keeps the previous
  figures and the previous store contents, so `CallbackFast` leaves the store
  unchanged on every error.

Parameters and abstractions: the robot's core and perception clients become
snapshot records whose fields are `Option`s (`CoreSnapshot`, `Perception`).
Frame encoding (`process_frame`) is the function parameter
`processFrame(frame, scale)`. The hour is an `int`, rendered as Python's
`str` renders it.

## Model

| member | source | states |
|---|---|---|
| Bands.BandOf | app.py:2285-2293 | the band found holds the value under `lower < v <= lower + width`; some band is found exactly when v lies above 0 and no higher than the top of the last band |
| Bands.BandUnique | app.py:2285-2293 | no value lies in two bands of one width |
| Bands.BandOfExact | app.py:2285-2293 | whenever a band's test holds, the lookup returns that band |
| Faces.MoodFace | app.py:2285-2289 | reference mood face: defined exactly when 0 < valence <= 1 and 0 < arousal <= 1.2 |
| Faces.SleepFace | app.py:2291-2293 | reference sleep face: defined exactly when 0 < wakefulness <= 1 |
| Faces.LookupMoodFace | app.py:2285-2289 | the nested scan over the 5x4 grid assigns exactly the reference mood face, or nothing |
| Faces.LookupSleepFace | app.py:2291-2293 | the scan over the four quarter bands assigns exactly the reference sleep face, or nothing |
| Faces.MoodCellExactlyOne | app.py:2285-2289 | on the valid domain exactly one grid cell holds the mood, and its `affect_faces` entry is the face |
| Faces.MoodFaceOfCell | app.py:154-185 | the face is the table entry of whichever cell holds the mood |
| Faces.HighArousalSameFace | app.py:154-185 | arousal bands 0.6 and 0.9 give the same face for every valence |
| Faces.SleepBandExactlyOne | app.py:2291-2293 | on (0, 1] exactly one wakefulness band holds the input, and its `sleep_faces` entry is the face |
| Faces.AwakeFaceHasNoMouth | app.py:187-192 | wakefulness in (0.5, 1] gives `face_no_mouth` (bands 0.50 and 0.75) |
| Action.Negated | app.py:2197 | same length as the input, element i is minus input element i |
| Action.NegatedTwice | app.py:2197 | negation is its own inverse |
| Action.SeriesOf | app.py:2194-2200 | both vectors present: priorities negated elementwise, inhibitions unchanged; otherwise both series are `[0]` |
| Action.SeriesRecoverInputs | app.py:2194-2200 | with both vectors present the drawn series give back the inputs |
| Motivation.SlideStep | app.py:2360-2366 | one tick on a history under 30 samples: new sample last, oldest dropped exactly when 29 were held, at most 29 after |
| Motivation.SlideAllKeepsLast | app.py:2360-2366 | any run of ticks keeps exactly the last 29 samples, oldest first |
| Motivation.MotivationMemory.constructor | app.py:2139-2145 | the store starts with both lists empty |
| Motivation.MotivationMemory.Update | app.py:2357-2366 | no sample: store unchanged; a sample: both series appended, both popped when "social" reaches 30; equal lengths stay equal and then both series slide as one window (`Slide`); the bound stays |
| FastCycle.MotivationAxis | app.py:2379 | the motivation x axis is 0 .. 29, 30 points |
| FastCycle.CallbackFast | app.py:2170-2429 | error exactly when a face lookup misses or the drive vector is short, store untouched then; action, affect and motivation figures as drawn; large figures equal small ones; with a valid store each plotted motivation series is shorter than the 30-point axis |
| MediumCycle.CallbackMedium | app.py:2460-2500 | succeeds exactly when left and right cameras are present and, when an overlay is shown, both maps are; overlays shown iff left map present and a toggle on; wide placeholder iff no wide map; large outputs equal small ones |
| MediumCycle.OverlaysNeedToggle | app.py:2468-2473 | with both toggles off no overlay is shown |
| SlowCycle.IntToStringRoundTrip | app.py:2577 | the decimal rendering of an hour parses back to that hour |
| SlowCycle.ClockSource | app.py:2523-2526 | the clock source has the `assets/clock_` prefix and `.png` suffix |
| SlowCycle.ClockSourceRoundTrip | app.py:2577 | the hour can be read back from the asset name, 0 when no time was read |
| SlowCycle.ClockSourceSameIffSameHour | app.py:2523-2577 | two ticks show the same clock exactly when they read the same hour (absent counts as 0) |
| SlowCycle.ClockSourceDefault | app.py:2523-2526 | without a time reading the source is `assets/clock_0.png` |
| Modals.ToggleModal | app.py:2624-2671 | the dialog state flips exactly when either click count is truthy, else stays |
| Modals.ToggleModalTwice | app.py:2624-2627 | the same clicks applied twice restore the state |

## Left out

- Page layout, style dictionaries, tooltips, dialog markup and the
  explanatory text: declarative UI without behaviour.
- App construction, callback registration, the interval timers and the
  threaded server: framework scheduling and concurrency.
- The robot middleware clients: external code. Their readings are `Option`
  inputs of each cycle.
- `process_frame` (resize, PNG encoding, base64): foreign library calls. It is
  the function parameter `processFrame`.
- Rounding of the affect values to three decimals and `np.arange`'s float
  stepping: floating-point detail. Values are reals, and the grid uses exact
  constants.
- FastCycle.CallbackFast: does not model the write of the chosen faces into
  the shared `dashboard_layouts` entries. The faces are returned in the
  figure's layout instead. The model therefore does not show that a tick
  without affect data redraws the layout with the previous tick's face, or
  that a missing wakefulness band raises only after the mood face has been
  written.
- FastCycle.CallbackFast: the partial append to "social" before a short drive
  vector raises is not modelled, because the framework discards the store of a
  tick that raises.
- Plot styling (colours, marker sizes, opacity, hover settings): traces are
  records of name and data only.
- Python's signed zero (`-0.0` from negating 0) is not distinguished: reals
  have one zero.
- The toggles are modelled as booleans and click counts as optional
  integers; only their Python truthiness matters to the code.
