/**
 The App controller of script.js, reduced to its decisions: which form
 submissions become workouts, how the collection grows, how a clicked list row
 is resolved to a workout, and how the stored snapshot is saved and reloaded.
 The map, the form's DOM and the rendered list are left to the browser.
 */
module App {
  import opened Wrappers
  import opened Numbers
  import opened Workouts

  /** The zoom the map is shown at and re-centred with. */
  const MapZoom := 13

  /** The form's fields after `+input.value`; the select gives the type. */
  datatype Form = Form(kind: Kind, distance: Num, duration: Num, cadence: Num, elevation: Num)

  /** Why a submission creates no workout: the alert for a field that is not a
      positive number, or the TypeError of reading the clicked position when the
      map was never clicked. */
  datatype Rejection = NotPositiveNumber | NoMapClick

  /** The controller's state: whether the map exists yet, the last map click
      (`#mapEvent`), the collection (`#workouts`) and the snapshot kept under the
      'workouts' key of the browser's storage. */
  datatype State = State(mapReady: bool, pending: Option<Coords>, workouts: seq<Workout>,
                         store: Option<seq<Workout>>)

  // ---------------------------------------------------------------------------
  // Validation, as `_newWorkout` writes it.

  /** `validInputs(...xs)`: every input is a finite number. */
  predicate ValidInputs(xs: seq<Num>)
    ensures ValidInputs(xs) <==> forall i | 0 <= i < |xs| :: IsFinite(xs[i])
    decreases |xs|
  {
    |xs| == 0 || (IsFinite(xs[0]) && ValidInputs(xs[1..]))
  }

  /** `allPositive(...xs)`: every input compares above zero. */
  predicate AllPositive(xs: seq<Num>)
    ensures AllPositive(xs) <==> forall i | 0 <= i < |xs| :: IsPositive(xs[i])
    decreases |xs|
  {
    |xs| == 0 || (IsPositive(xs[0]) && AllPositive(xs[1..]))
  }

  /** The running check: all three inputs finite and all three above zero. */
  predicate RunningInputsOk(distance: Num, duration: Num, cadence: Num)
    ensures RunningInputsOk(distance, duration, cadence) <==>
              && distance.Finite? && distance.value > 0.0
              && duration.Finite? && duration.value > 0.0
              && cadence.Finite? && cadence.value > 0.0
  {
    var inputs := [distance, duration, cadence];
    assert inputs[1] == duration && inputs[2] == cadence;
    ValidInputs(inputs) && AllPositive(inputs)
  }

  /** The cycling check: all three inputs finite, but only distance and duration
      need be above zero. */
  predicate CyclingInputsOk(distance: Num, duration: Num, elevation: Num)
    ensures CyclingInputsOk(distance, duration, elevation) <==>
              && distance.Finite? && distance.value > 0.0
              && duration.Finite? && duration.value > 0.0
              && elevation.Finite?
  {
    var inputs := [distance, duration, elevation];
    assert inputs[1] == duration && inputs[2] == elevation;
    assert [distance, duration][1] == duration;
    ValidInputs(inputs) && AllPositive([distance, duration])
  }

  /** What a submission needs to be accepted, stated on the values: distance and
      duration finite and above zero; for running also the cadence, for cycling
      only a finite elevation, whatever its sign. */
  predicate Acceptable(kind: Kind, distance: Num, duration: Num, cadence: Num, elevation: Num) {
    && distance.Finite? && distance.value > 0.0
    && duration.Finite? && duration.value > 0.0
    && match kind
       case Running => cadence.Finite? && cadence.value > 0.0
       case Cycling => elevation.Finite?
  }

  /** What every workout the form creates satisfies before it is ever clicked:
      positive distance and duration, the description of its type and date, no
      clicks, and the metric derived from its own numbers. */
  predicate Fresh(w: Workout) {
    && w.distance > 0.0 && w.duration > 0.0
    && w.description == Description(KindOf(w), w.date)
    && w.clicks == 0
    && (w.RunningWorkout? ==> w.cadence > 0.0 && w.pace == Finite(w.duration / w.distance))
    && (w.CyclingWorkout? ==> w.speed == Finite(w.distance / (w.duration / 60.0)))
  }

  lemma NewRunningFresh(stamp: Stamp, coords: Coords, distance: real, duration: real, cadence: real)
    requires distance > 0.0 && duration > 0.0 && cadence > 0.0
    ensures Fresh(NewRunning(stamp, coords, distance, duration, cadence))
  {
    var w := NewRunning(stamp, coords, distance, duration, cadence);
    assert w.RunningWorkout? && KindOf(w) == Running && w.date == stamp.date;
    assert w.distance == distance && w.duration == duration;
    assert w.pace == Finite(duration / distance);
  }

  lemma NewCyclingFresh(stamp: Stamp, coords: Coords, distance: real, duration: real, elevation: real)
    requires distance > 0.0 && duration > 0.0
    ensures Fresh(NewCycling(stamp, coords, distance, duration, elevation))
  {
    var w := NewCycling(stamp, coords, distance, duration, elevation);
    assert w.CyclingWorkout? && KindOf(w) == Cycling && w.date == stamp.date;
    assert w.distance == distance && w.duration == duration;
    assert w.speed == Finite(distance / (duration / 60.0));
  }

  /** The decision `_newWorkout` takes once it has read its inputs: the clicked
      position is read first, then the type's three numbers are checked, then the
      workout is built. */
  function Decide(kind: Kind, distance: Num, duration: Num, cadence: Num, elevation: Num,
                  pending: Option<Coords>, stamp: Stamp): (r: Result<Workout, Rejection>)
    ensures pending.None? ==> r == Failure(NoMapClick)
    ensures pending.Some? ==> (r.Success? <==> Acceptable(kind, distance, duration, cadence, elevation))
    ensures pending.Some? && r.Failure? ==> r.error == NotPositiveNumber
    ensures r.Success? ==> && KindOf(r.value) == kind
                           && r.value.coords == pending.value
                           && Finite(r.value.distance) == distance
                           && Finite(r.value.duration) == duration
                           && r.value.id == stamp.id && r.value.date == stamp.date
                           && Fresh(r.value)
    ensures r.Success? && kind == Running ==> Finite(r.value.cadence) == cadence
    ensures r.Success? && kind == Cycling ==> Finite(r.value.elevationGain) == elevation
  {
    if pending.None? then Failure(NoMapClick)
    else
      match kind
      case Running =>
        if !RunningInputsOk(distance, duration, cadence) then Failure(NotPositiveNumber)
        else
          NewRunningFresh(stamp, pending.value, distance.value, duration.value, cadence.value);
          Success(NewRunning(stamp, pending.value, distance.value, duration.value, cadence.value))
      case Cycling =>
        if !CyclingInputsOk(distance, duration, elevation) then Failure(NotPositiveNumber)
        else
          NewCyclingFresh(stamp, pending.value, distance.value, duration.value, elevation.value);
          Success(NewCycling(stamp, pending.value, distance.value, duration.value, elevation.value))
  }

  // ---------------------------------------------------------------------------
  // The collection and its stored snapshot.

  /** `_setLocalStorage`: the whole collection overwrites the snapshot. */
  function Persist(s: State): (r: State)
    ensures r.store == Some(s.workouts)
    ensures Init(r.store).workouts == s.workouts
    ensures r.(store := s.store) == s
  {
    s.(store := Some(s.workouts))
  }

  /** The outcome of a decision: an accepted workout is appended and the
      collection saved; a rejected one leaves everything as it was. */
  function Commit(s: State, d: Result<Workout, Rejection>): (r: State)
    ensures d.Failure? ==> r == s
    ensures d.Success? ==> && r.workouts == s.workouts + [d.value]
                           && r.store == Some(r.workouts)
                           && r.mapReady == s.mapReady && r.pending == s.pending
  {
    match d
    case Failure(_) => s
    case Success(w) => Persist(s.(workouts := s.workouts + [w]))
  }

  /** A form submission, reading each field from its own input. */
  function Submit(s: State, form: Form, stamp: Stamp): (r: State)
    ensures var ok := s.pending.Some? && Acceptable(form.kind, form.distance, form.duration, form.cadence, form.elevation);
            && (ok ==> |r.workouts| == |s.workouts| + 1)
            && (!ok ==> r == s)
    ensures |r.workouts| == |s.workouts| + 1 ==>
              && r.workouts[..|s.workouts|] == s.workouts
              && var w := r.workouts[|s.workouts|];
                 && KindOf(w) == form.kind && Some(w.coords) == s.pending
                 && Finite(w.distance) == form.distance && Finite(w.duration) == form.duration
                 && w.id == stamp.id && w.date == stamp.date && Fresh(w)
                 && (form.kind == Running ==> Finite(w.cadence) == form.cadence)
                 && (form.kind == Cycling ==> Finite(w.elevationGain) == form.elevation)
                 && r.store == Some(r.workouts)
    ensures r.pending == s.pending && r.mapReady == s.mapReady
  {
    Commit(s, Decide(form.kind, form.distance, form.duration, form.cadence, form.elevation, s.pending, stamp))
  }

  /** A form submission as script.js:164-165 reads it: the duration is taken from
      the distance input, so the duration field is never looked at. */
  function SubmitAsWritten(s: State, form: Form, stamp: Stamp): (r: State)
    ensures var ok := s.pending.Some? && Acceptable(form.kind, form.distance, form.distance, form.cadence, form.elevation);
            && (ok ==> |r.workouts| == |s.workouts| + 1)
            && (!ok ==> r == s)
    ensures |r.workouts| == |s.workouts| + 1 ==>
              && r.workouts[..|s.workouts|] == s.workouts
              && var w := r.workouts[|s.workouts|];
                 && Finite(w.distance) == form.distance
                 && w.duration == w.distance
                 && Fresh(w)
  {
    Commit(s, Decide(form.kind, form.distance, form.distance, form.cadence, form.elevation, s.pending, stamp))
  }

  /** The as-written submission is the corrected one given a form whose duration
      field holds the distance, so every property of `Submit` and of sessions
      built from it carries over to the code as written. */
  lemma AsWrittenIsCorrectedOnDistance(s: State, form: Form, stamp: Stamp)
    ensures SubmitAsWritten(s, form, stamp) == Submit(s, form.(duration := form.distance), stamp)
  {
  }

  /** Since duration equals distance, every workout the as-written submission
      accepts runs at a pace of 1 min/km or rides at 60 km/h, whatever was typed
      as the duration. */
  lemma AsWrittenMetricIsConstant(s: State, form: Form, stamp: Stamp)
    requires |SubmitAsWritten(s, form, stamp).workouts| > |s.workouts|
    ensures var w := SubmitAsWritten(s, form, stamp).workouts[|s.workouts|];
            && (w.RunningWorkout? ==> w.pace == Finite(1.0))
            && (w.CyclingWorkout? ==> w.speed == Finite(60.0))
  {
    var w := SubmitAsWritten(s, form, stamp).workouts[|s.workouts|];
    assert Fresh(w) && w.duration == w.distance;
    EqualDurationMetric(w);
  }

  /** A fresh record whose duration equals its distance has pace 1 min/km or
      speed 60 km/h. */
  lemma EqualDurationMetric(w: Workout)
    requires Fresh(w) && w.duration == w.distance
    ensures w.RunningWorkout? ==> w.pace == Finite(1.0)
    ensures w.CyclingWorkout? ==> w.speed == Finite(60.0)
  {
    var d := w.distance;
    assert d / d == 1.0;
    assert d / (d / 60.0) == 60.0;
  }

  /** The as-written submission does not depend on the duration field at all. */
  lemma AsWrittenIgnoresDuration(s: State, form: Form, stamp: Stamp, other: Num)
    ensures SubmitAsWritten(s, form.(duration := other), stamp) == SubmitAsWritten(s, form, stamp)
  {
  }

  /** A run of 5 km in 25 minutes: as written it is recorded as 5 minutes at
      1 min/km; read from its own field, as 25 minutes at 5 min/km. */
  lemma AsWrittenRecordsWrongDuration(stamp: Stamp)
    ensures var s := State(true, Some(Coords(40.7, -74.0)), [], None);
            var form := Form(Running, Finite(5.0), Finite(25.0), Finite(150.0), NaN);
            var asWritten := SubmitAsWritten(s, form, stamp).workouts;
            var corrected := Submit(s, form, stamp).workouts;
            && |asWritten| == 1 && asWritten[0].duration == 5.0 && asWritten[0].pace == Finite(1.0)
            && |corrected| == 1 && corrected[0].duration == 25.0 && corrected[0].pace == Finite(5.0)
  {
    var s := State(true, Some(Coords(40.7, -74.0)), [], None);
    var form := Form(Running, Finite(5.0), Finite(25.0), Finite(150.0), NaN);
    AsWrittenMetricIsConstant(s, form, stamp);
  }

  /** An empty duration field (0 after `+`, as is the hidden cadence field)
      slips through as written, and is rejected when the field is read, since 0
      is not above zero. */
  lemma AsWrittenAcceptsMissingDuration(stamp: Stamp)
    ensures var s := State(true, Some(Coords(40.7, -74.0)), [], None);
            var form := Form(Cycling, Finite(20.0), Finite(0.0), Finite(0.0), Finite(300.0));
            && |SubmitAsWritten(s, form, stamp).workouts| == 1
            && Submit(s, form, stamp) == s
  {
  }

  /** The cycling check leaves the elevation's sign alone: a negative gain is
      stored as given, both as written and when the duration field is read. The
      speed is 20 km/h when the duration is read, and 60 km/h as written. */
  lemma NegativeElevationAccepted(s: State, stamp: Stamp, at: Coords)
    requires s.pending == Some(at)
    ensures var form := Form(Cycling, Finite(20.0), Finite(60.0), NaN, Finite(-5.0));
            var r := Submit(s, form, stamp);
            var a := SubmitAsWritten(s, form, stamp);
            && |r.workouts| == |s.workouts| + 1
            && r.workouts[|s.workouts|].elevationGain == -5.0
            && r.workouts[|s.workouts|].speed == Finite(20.0)
            && |a.workouts| == |s.workouts| + 1
            && a.workouts[|s.workouts|].elevationGain == -5.0
            && a.workouts[|s.workouts|].speed == Finite(60.0)
  {
  }

  /** `_getLocalStorage`: a snapshot, when there is one, replaces the collection
      wholesale; without one nothing changes. */
  function LoadStorage(s: State): (r: State)
    ensures s.store.None? ==> r == s
    ensures s.store.Some? ==> r.workouts == s.store.value && r.(workouts := s.workouts) == s
  {
    match s.store
    case None => s
    case Some(data) => s.(workouts := data)
  }

  /** The controller as the page builds it: no map yet, no click, an empty
      collection, then the stored snapshot loaded. */
  function Init(store: Option<seq<Workout>>): (r: State)
    ensures !r.mapReady && r.pending.None? && r.store == store
    ensures r.workouts == if store.Some? then store.value else []
  {
    LoadStorage(State(false, None, [], store))
  }

  // ---------------------------------------------------------------------------
  // A click on the list.

  /** The error `_moveToPopup` raises when a row resolves to nothing it can show. */
  datatype Fault = MapNotCreated | WorkoutNotFound

  /** What a click on the list asks of the map. */
  datatype Pan = Ignored | SetView(center: Coords, zoom: int) | TypeError(fault: Fault)

  /** `i` is the first position in `ws` holding a workout with this id. */
  predicate FirstWithId(ws: seq<Workout>, id: string, i: int) {
    0 <= i < |ws| && ws[i].id == id && forall j | 0 <= j < i :: ws[j].id != id
  }

  /** `#workouts.find(work => work.id === id)`, as a position. */
  function FindById(ws: seq<Workout>, id: string): (r: Option<nat>)
    ensures r.Some? ==> FirstWithId(ws, id, r.value)
    ensures r.None? ==> forall j | 0 <= j < |ws| :: ws[j].id != id
    decreases |ws|
  {
    if |ws| == 0 then None
    else if ws[0].id == id then Some(0)
    else
      match FindById(ws[1..], id)
      case None => None
      case Some(i) => Some(i + 1)
  }

  /** `_moveToPopup`: `target` is the data-id of the row the click landed in,
      if it landed in one. The map is looked up before the workout. */
  function MoveToPopup(s: State, target: Option<string>): (p: Pan)
    ensures target.None? <==> p == Ignored
    ensures p == TypeError(MapNotCreated) <==> target.Some? && !s.mapReady
    ensures p == TypeError(WorkoutNotFound) <==>
              target.Some? && s.mapReady && forall j | 0 <= j < |s.workouts| :: s.workouts[j].id != target.value
    ensures p.SetView? ==>
              && p.zoom == MapZoom && target.Some?
              && exists i :: FirstWithId(s.workouts, target.value, i) && s.workouts[i].coords == p.center
  {
    match target
    case None => Ignored
    case Some(id) =>
      if !s.mapReady then TypeError(MapNotCreated)
      else
        match FindById(s.workouts, id)
        case None => TypeError(WorkoutNotFound)
        case Some(i) => SetView(s.workouts[i].coords, MapZoom)
  }

  /** Clicking the row of a workout just added, under an id no earlier workout
      has, re-centres the map on exactly that workout's position. */
  lemma NewRowPansToItsWorkout(s: State, form: Form, stamp: Stamp)
    requires s.mapReady
    requires forall j | 0 <= j < |s.workouts| :: s.workouts[j].id != stamp.id
    requires |Submit(s, form, stamp).workouts| > |s.workouts|
    ensures MoveToPopup(Submit(s, form, stamp), Some(stamp.id)) == SetView(s.pending.value, MapZoom)
  {
    var r := Submit(s, form, stamp);
    var n := |s.workouts|;
    assert r.workouts[..n] == s.workouts;
    assert forall j | 0 <= j < n :: r.workouts[j] == s.workouts[j];
    assert FirstWithId(r.workouts, stamp.id, n);
  }

  // ---------------------------------------------------------------------------
  // A session: the events the controller reacts to, in order.

  datatype Event =
    | Located                                 // the geolocation answered and the map was built
    | MapClicked(at: Coords)                  // `_showForm`
    | Submitted(form: Form, stamp: Stamp)     // `_newWorkout`
    | RowClicked(target: Option<string>)      // `_moveToPopup`

  function Step(s: State, e: Event): (r: State)
    ensures s.workouts <= r.workouts && |r.workouts| <= |s.workouts| + 1
  {
    match e
    case Located => s.(mapReady := true)
    case MapClicked(at) => if s.mapReady then s.(pending := Some(at)) else s
    case Submitted(form, stamp) => Submit(s, form, stamp)
    case RowClicked(_) => s
  }

  /** The collection only grows during a session, by at most one workout per
      event, and what was there stays in place. */
  function Run(s: State, events: seq<Event>): (r: State)
    ensures s.workouts <= r.workouts
    ensures |r.workouts| <= |s.workouts| + |events|
    decreases |events|
  {
    if |events| == 0 then s else Run(Step(s, events[0]), events[1..])
  }

  /** An event with the duration field overwritten by the distance: what the
      code as written effectively submits. */
  function AsWrittenEvent(e: Event): (r: Event)
    ensures !e.Submitted? ==> r == e
    ensures e.Submitted? ==> r.Submitted? && r.stamp == e.stamp
                             && r.form.duration == e.form.distance
                             && r.form.(duration := e.form.duration) == e.form
  {
    match e
    case Submitted(form, stamp) => Submitted(form.(duration := form.distance), stamp)
    case _ => e
  }

  function AsWrittenEvents(events: seq<Event>): (r: seq<Event>)
    ensures |r| == |events|
    ensures forall i | 0 <= i < |events| :: r[i] == AsWrittenEvent(events[i])
  {
    seq(|events|, i requires 0 <= i < |events| => AsWrittenEvent(events[i]))
  }

  /** `Step` with the submission as script.js:164-165 reads it. */
  function StepAsWritten(s: State, e: Event): (r: State)
    ensures s.workouts <= r.workouts && |r.workouts| <= |s.workouts| + 1
  {
    match e
    case Located => s.(mapReady := true)
    case MapClicked(at) => if s.mapReady then s.(pending := Some(at)) else s
    case Submitted(form, stamp) => SubmitAsWritten(s, form, stamp)
    case RowClicked(_) => s
  }

  /** A session run by the code as written. */
  function RunAsWritten(s: State, events: seq<Event>): (r: State)
    ensures s.workouts <= r.workouts
    ensures |r.workouts| <= |s.workouts| + |events|
    decreases |events|
  {
    if |events| == 0 then s else RunAsWritten(StepAsWritten(s, events[0]), events[1..])
  }

  /** A session run by the code as written is the corrected session on the
      events whose duration fields hold the distance, so every property proved
      of `Run` for all events holds of the code as written too. */
  lemma {:induction false} RunAsWrittenIsRun(s: State, events: seq<Event>)
    ensures RunAsWritten(s, events) == Run(s, AsWrittenEvents(events))
    decreases |events|
  {
    if |events| > 0 {
      var e := events[0];
      if e.Submitted? {
        AsWrittenIsCorrectedOnDistance(s, e.form, e.stamp);
      }
      assert StepAsWritten(s, e) == Step(s, AsWrittenEvent(e));
      assert AsWrittenEvents(events)[1..] == AsWrittenEvents(events[1..]);
      RunAsWrittenIsRun(StepAsWritten(s, e), events[1..]);
    }
  }

  /** As written, reloading after any session still restores its final
      collection. */
  lemma ReloadRestoresSessionAsWritten(store: Option<seq<Workout>>, events: seq<Event>)
    ensures var r := RunAsWritten(Init(store), events);
            Init(r.store).workouts == r.workouts
  {
    RunAsWrittenIsRun(Init(store), events);
    ReloadRestoresSession(store, AsWrittenEvents(events));
  }

  /** The snapshot mirrors the collection: either both are still empty or the
      snapshot holds exactly the collection. */
  predicate Mirrored(s: State) {
    s.store == Some(s.workouts) || (s.store.None? && s.workouts == [])
  }

  lemma {:induction false} RunKeepsMirrored(s: State, events: seq<Event>)
    requires Mirrored(s)
    ensures Mirrored(Run(s, events))
    decreases |events|
  {
    if |events| > 0 {
      RunKeepsMirrored(Step(s, events[0]), events[1..]);
    }
  }

  /** Whatever happens after the page loads, loading it again restores the
      collection it ended with. */
  lemma ReloadRestoresSession(store: Option<seq<Workout>>, events: seq<Event>)
    ensures var r := Run(Init(store), events);
            Init(r.store).workouts == r.workouts
  {
    RunKeepsMirrored(Init(store), events);
  }

  predicate AllFresh(ws: seq<Workout>) {
    forall i | 0 <= i < |ws| :: Fresh(ws[i])
  }

  /** A submission keeps every workout in the collection fresh. */
  lemma SubmitKeepsFresh(s: State, form: Form, stamp: Stamp)
    requires AllFresh(s.workouts)
    ensures AllFresh(Submit(s, form, stamp).workouts)
  {
    var r := Submit(s, form, stamp);
    if |r.workouts| != |s.workouts| {
      var n := |s.workouts|;
      assert forall i | 0 <= i < n :: r.workouts[i] == r.workouts[..n][i];
    }
  }

  lemma {:induction false} RunKeepsFresh(s: State, events: seq<Event>)
    requires AllFresh(s.workouts)
    ensures AllFresh(Run(s, events).workouts)
    decreases |events|
  {
    if |events| > 0 {
      if events[0].Submitted? {
        SubmitKeepsFresh(s, events[0].form, events[0].stamp);
      }
      RunKeepsFresh(Step(s, events[0]), events[1..]);
    }
  }
}
