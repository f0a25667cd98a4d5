# Mapty workouts in Dafny

A Dafny model of the structured logic of Mapty, a browser application that
records running and cycling workouts on a map (`script.js`). It covers:

- the workout records: the `Running` and `Cycling` variants with their derived
  pace (min/km) or speed (km/h), the description built from the capitalised
  type and the creation month and day ("Running on April 14"), and the click
  counter;
- the decision `_newWorkout` takes on a form submission: the asymmetric
  validation of running and cycling inputs, the construction of the workout,
  and its append to the collection followed by saving the collection;
- the lookup of a clicked list row by id in `_moveToPopup`, and the
  replace-if-present step of `_getLocalStorage`;
- a session as a sequence of events (map located, map clicked, form submitted,
  row clicked) with the invariants the collection keeps across it.

Modules: `Wrappers` (Option, Result), `Numbers` (numbers as the form yields
them: a finite real, an infinity or NaN, and JavaScript division), `Text`
(decimal rendering and parsing, capitalisation, character search), `Workouts`
(the record types) and `App` (the controller's decisions and state).

Numbers are exact `real`s. Finiteness is a property of the parsed form value
(`Num`), not of floating point. The clock is not read: each workout receives
its id and creation date as a `Stamp` parameter. The browser's storage is an
optional snapshot of the collection.

Points where the domain suggests one thing and the code does another; the
model follows the code:

- An elevation gain reads as non-negative, but the cycling check at
  script.js:184-191 only asks that it be finite, so a negative gain is
  accepted (`App.NegativeElevationAccepted`).
- Cadence is accepted as any positive finite number, not only an integer
  (script.js:169-179), and so it is in the model.
- Ids are the last ten digits of `Date.now()` (script.js:13) and are not
  guaranteed unique, so the row lookup returns the first workout with the
  clicked id (`App.FindById`).
- The code reads the duration from the distance input (script.js:165). The
  model keeps that reading as `App.SubmitAsWritten`, drives sessions with the
  corrected `App.Submit`, and proves the first is the second applied to a form
  whose duration field holds the distance (`App.AsWrittenIsCorrectedOnDistance`),
  and that a whole session run as written is the corrected session on the
  events with their duration fields so replaced (`App.RunAsWrittenIsRun`), so
  every session result carries over to the code as written; see "Findings".

## Model

| member | source | states |
|---|---|---|
| Numbers.Divide | script.js:44 | JavaScript `/`: the quotient is finite exactly when the divisor is not zero; a zero divisor gives +Infinity, -Infinity or NaN by the dividend's sign |
| Numbers.DivideInverts | script.js:44 | a finite quotient times the divisor gives back the dividend |
| Text.DecimalString | script.js:23-25 | the day of the month is rendered as a non-empty string of decimal digits with no leading zero |
| Text.ParseDecimalInverts | script.js:23-25 | reading the rendered day back gives the same number, so the rendering loses nothing |
| Text.Upper | script.js:23 | `toUpperCase` on a character maps each lower-case ASCII letter to the upper-case letter at the same alphabet position and leaves every other character alone |
| Text.Capitalize | script.js:23 | the type name keeps its length and tail and has its first letter upper-cased |
| Workouts.LeadsSpelled | script.js:23 | the capitalised types followed by " on " are "Running on " and "Cycling on " |
| Workouts.MonthsDistinct | script.js:22 | the twelve month names of the table are pairwise different |
| Workouts.Description | script.js:20-26 | the description begins with the capitalised type and " on ", is as long as those, the month name, one space and the day together, and ends with the day's digits; that it loses nothing is `Workouts.DescriptionRoundTrip` |
| Workouts.DescriptionRoundTrip | script.js:20-26 | a description reads back as the type and creation date it was built from |
| Workouts.DescriptionInjective | script.js:20-26 | two descriptions are equal exactly when they come from the same type and the same month and day |
| Workouts.DescriptionExample | script.js:20-26 | running in month 3 on day 14 is described as "Running on April 14" |
| Workouts.NewRunning | script.js:33-47 | a new running workout keeps its id, date, position, distance, duration and cadence, starts with zero clicks, has pace duration/distance (not finite for a zero distance) and the description built from 'running' and its date |
| Workouts.NewCycling | script.js:49-62 | a new cycling workout keeps its inputs, starts with zero clicks, has speed distance/(duration/60) (not finite for a zero duration) and the description built from 'cycling' and its date |
| Workouts.Click | script.js:27-30 | a click raises the counter by exactly one and leaves every other field as it was |
| Workouts.RunningExample | script.js:42-46 | 5 km in 25 minutes is a pace of 5 min/km |
| Workouts.CyclingExample | script.js:57-61 | 20 km in 60 minutes is a speed of 20 km/h |
| App.ValidInputs | script.js:157-158 | `validInputs` holds exactly when every input is finite |
| App.AllPositive | script.js:160 | `allPositive` holds exactly when every input compares above zero |
| App.RunningInputsOk | script.js:169-179 | a running submission passes exactly when distance, duration and cadence are all finite and all above zero |
| App.CyclingInputsOk | script.js:184-191 | a cycling submission passes exactly when all three are finite and distance and duration are above zero, whatever the elevation's sign |
| App.NewRunningFresh | script.js:33-47 | a running workout built from positive inputs is positive in distance, duration and cadence, has a finite pace and a matching description |
| App.NewCyclingFresh | script.js:49-62 | a cycling workout built from a positive distance and duration has a finite speed and a matching description |
| App.Decide | script.js:154-194 | without a map click the submission fails before validation; otherwise it yields a workout exactly when the inputs are acceptable, of the chosen type, at the clicked position, holding the form's numbers, and else the not-a-positive-number rejection |
| App.Persist | script.js:305-309 | the snapshot becomes the whole current collection, so it reloads as exactly that collection, and nothing else changes |
| App.Commit | script.js:196-218 | an accepted workout is appended at the end and the collection saved; a rejection leaves the state unchanged |
| App.Submit | script.js:154-219 | an acceptable submission after a map click appends exactly one fresh (valid, unclicked) workout of the chosen type, at the clicked position, with the stamp's id and date and the form's distance, duration and cadence or elevation, keeps earlier entries and the last clicked position, so a later submission without a new click reuses it; any other leaves the state unchanged |
| App.SubmitAsWritten | script.js:163-197 | as written, acceptance depends on the distance field standing in for the duration, and every accepted workout has duration equal to distance |
| App.AsWrittenMetricIsConstant | script.js:164-165 | as written, every accepted running workout has pace 1 and every cycling one speed 60 in exact arithmetic (60 up to floating-point rounding in JavaScript) |
| App.EqualDurationMetric | script.js:42-61 | a fresh record whose duration equals its distance has pace 1 min/km or speed 60 km/h |
| App.AsWrittenIsCorrectedOnDistance | script.js:163-165 | the submission as written equals the corrected submission of the same form with the distance copied into the duration field |
| App.AsWrittenIgnoresDuration | script.js:165 | as written, changing the duration field never changes the outcome |
| App.AsWrittenRecordsWrongDuration | script.js:164-165 | a 5 km run typed as 25 minutes is stored as written with duration 5 and pace 1, and corrected with duration 25 and pace 5 |
| App.AsWrittenAcceptsMissingDuration | script.js:184-191 | as written, a cycling form with an empty duration field (0 after `+`) is accepted; the corrected reading rejects it, as 0 is not above zero |
| App.NegativeElevationAccepted | script.js:184-193 | a cycling submission with elevation -5 is accepted and stores the gain as -5, both as written (speed 60, the distance read as duration) and corrected (speed 20) |
| App.LoadStorage | script.js:310-314 | without a snapshot nothing changes; with one, the collection is replaced by it wholesale |
| App.Init | script.js:74-76 | a fresh controller has no map and no click and holds the stored collection, or an empty one |
| App.FindById | script.js:294-296 | the lookup returns the first position holding the id, or nothing exactly when no workout has it |
| App.MoveToPopup | script.js:290-301 | a click outside a row does nothing; without a map it fails; an unknown id fails; otherwise the map is re-centred at zoom 13 on the first workout with that id |
| App.NewRowPansToItsWorkout | script.js:294-301 | clicking the row of a just-added workout with a fresh id re-centres the map on exactly the clicked position it was created at |
| App.Step | script.js:74-82 | every event keeps the collection as a prefix of the new one and adds at most one workout |
| App.Run | script.js:197 | over a whole session the collection only grows at its end, by at most one workout per event |
| App.RunKeepsMirrored | script.js:217-218 | after every event the snapshot holds exactly the collection, or both are still empty |
| App.ReloadRestoresSession | script.js:305-314 | whatever events follow a page load, loading again restores the collection the session ended with |
| App.StepAsWritten | script.js:74-82 | as written, every event keeps the collection as a prefix and adds at most one workout |
| App.RunAsWritten | script.js:197 | as written, the collection only grows at its end, by at most one workout per event |
| App.RunAsWrittenIsRun | script.js:163-165 | a session run as written equals the corrected session on the same events with each duration field replaced by the distance |
| App.ReloadRestoresSessionAsWritten | script.js:305-314 | as written too, reloading after any session restores its final collection |
| App.SubmitKeepsFresh | script.js:168-197 | a submission, accepted or not, keeps every workout of a fresh collection fresh: positive, correctly described, unclicked, with its metric derived from its own numbers |
| App.RunKeepsFresh | script.js:168-197 | if every stored workout is fresh, every workout after any session is fresh (no event clicks a workout) |

## Left out

- The map widget: creating the map, tiles, markers and popups (`_loadPosition`, `_renderWorkoutMarker`, `setView` itself). The model records only whether the map exists and which view a row click asks for.
- The geolocation request and its failure alert. Its success is the `Located` event.
- DOM form handling: showing and hiding the form, `_toggleElevationField`, the `setTimeout` in `_hideForm`, focus and clearing the inputs.
- HTML generation in `_renderWorkout`, including the `toFixed(1)` formatting and the hard-coded title at script.js:241.
- `JSON.stringify`/`JSON.parse` and the storage API. The snapshot is the collection itself, so the loss of the class prototype and the conversion of `date` to a string on reload are not represented. `reset` and `location.reload` are not modelled either.
- Id and date generation from `Date.now()` and `new Date()`. Both are parameters (`Stamp`).
- The coercion `+input.value` from text to number. Each field is an already-parsed `Num`.
- A type value other than 'running' or 'cycling'. The form's select offers only these two.
- Numbers.Divide: exact real division, without floating-point rounding or the sign of zero (in JavaScript a positive number divided by -0 is -Infinity).
- Text.Upper: upper-cases ASCII letters only. The type names are plain ASCII.
- Workouts.Click: the counter is unbounded and never wired to an event, as in the source (script.js:303 is commented out).

## Findings

| source | as written | input that shows it | evidently intended | confidence | as-written member | corrected member |
|---|---|---|---|---|---|---|
| script.js:165 | `duration` is read from the distance input, so every workout stores its distance as its duration, running pace is always 1 and cycling speed always 60 (up to rounding: `11/(11/60)` shows as 60.0), and the duration field is never validated | running form with distance 5, duration 25, cadence 150: stored with duration 5 and pace 1 | read `duration` from the duration input | high; not executed | App.SubmitAsWritten, App.AsWrittenRecordsWrongDuration | App.Submit |
