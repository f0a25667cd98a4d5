/**
 The workout records of script.js: a `Workout` base with two variants,
 `Running` and `Cycling`, each deriving its metric and its description once,
 when it is built, and carrying a click counter.
 */
module Workouts {
  import opened Wrappers
  import opened Numbers
  import opened Text

  /** The workout type the form's select offers: 'running' or 'cycling'. */
  datatype Kind = Running | Cycling

  /** `getMonth()` (0 for January) and `getDate()` of the creation date. */
  type Month = m: int | 0 <= m < 12
  type Day = d: int | 1 <= d <= 31 witness 1
  datatype Date = Date(month: Month, day: Day)

  /** A `[lat, lng]` pair picked on the map. */
  datatype Coords = Coords(lat: real, lng: real)

  /** What a workout takes from the clock when it is built: its id (the tail of
      the millisecond timestamp) and its creation date. */
  datatype Stamp = Stamp(id: string, date: Date)

  datatype Workout =
    | RunningWorkout(id: string, date: Date, coords: Coords, distance: real, duration: real,
                     clicks: nat, description: string, cadence: real, pace: Num)
    | CyclingWorkout(id: string, date: Date, coords: Coords, distance: real, duration: real,
                     clicks: nat, description: string, elevationGain: real, speed: Num)

  function KindOf(w: Workout): Kind {
    if w.RunningWorkout? then Running else Cycling
  }

  /** The `type` field of each variant. */
  function KindName(k: Kind): string {
    match k
    case Running => "running"
    case Cycling => "cycling"
  }

  const Months: seq<string> := ["January", "February", "March", "April", "May", "June", "July",
                                "August", "September", "October", "November", "December"]

  /** The part of a description before the month: the type with its first letter
      upper-cased, then " on ". */
  function Lead(k: Kind): string {
    Capitalize(KindName(k)) + " on "
  }

  /** The description `_setDescription` builds, e.g. "Running on April 14". That
      it can be read back is `DescriptionRoundTrip`. */
  function Description(k: Kind, date: Date): (d: string)
    ensures Lead(k) <= d
    ensures |d| == |Lead(k)| + |Months[date.month]| + 1 + |DecimalString(date.day)|
    ensures d[|d| - |DecimalString(date.day)|..] == DecimalString(date.day)
  {
    Lead(k) + Months[date.month] + " " + DecimalString(date.day)
  }

  // ---------------------------------------------------------------------------
  // Reading a description back: the partner that shows nothing is lost in it.

  /** The month whose name is `name`, searching the table from `m` on. */
  function MonthFrom(name: string, m: nat): (r: Option<Month>)
    requires m <= 12
    ensures r.Some? ==> m <= r.value && Months[r.value] == name
    ensures r.Some? ==> forall j | m <= j < r.value :: Months[j] != name
    ensures r.None? ==> forall j | m <= j < 12 :: Months[j] != name
    decreases 12 - m
  {
    if m == 12 then None else if Months[m] == name then Some(m) else MonthFrom(name, m + 1)
  }

  function ParseDate(rest: string): Option<Date> {
    match IndexOf(rest, ' ')
    case None => None
    case Some(i) =>
      var digits := rest[i + 1..];
      match MonthFrom(rest[..i], 0)
      case None => None
      case Some(m) =>
        if |digits| > 0 && AllDigits(digits) && 1 <= ParseDecimal(digits) <= 31
        then Some(Date(m, ParseDecimal(digits)))
        else None
  }

  function ParseDescription(s: string): Option<(Kind, Date)> {
    if Lead(Running) <= s then
      match ParseDate(s[|Lead(Running)|..])
      case None => None
      case Some(d) => Some((Running, d))
    else if Lead(Cycling) <= s then
      match ParseDate(s[|Lead(Cycling)|..])
      case None => None
      case Some(d) => Some((Cycling, d))
    else None
  }

  lemma MonthsDistinct()
    ensures forall i, j | 0 <= i < j < 12 :: Months[i] != Months[j]
  {
  }

  lemma MonthsHaveNoSpace()
    ensures forall m | 0 <= m < 12 :: ' ' !in Months[m]
  {
  }

  lemma LeadsSpelled()
    ensures Lead(Running) == "Running on "
    ensures Lead(Cycling) == "Cycling on "
  {
  }

  /** Each month name is found at its own index. */
  lemma MonthFound(m: Month)
    ensures MonthFrom(Months[m], 0) == Some(m)
  {
    MonthsDistinct();
  }

  /** The text after the lead, "<month> <day>", reads back as its date. */
  lemma ParseDateRoundTrip(date: Date)
    ensures ParseDate(Months[date.month] + " " + DecimalString(date.day)) == Some(date)
  {
    var name := Months[date.month];
    var digits := DecimalString(date.day);
    var rest := name + " " + digits;
    MonthsHaveNoSpace();
    IndexOfAfter(name, ' ', digits);
    assert rest[..|name|] == name;
    assert rest[|name| + 1..] == digits;
    MonthFound(date.month);
    ParseDecimalInverts(date.day);
  }

  /** A description is read by the branch of its own type. */
  lemma ParseAfterLead(k: Kind, rest: string)
    ensures ParseDescription(Lead(k) + rest) ==
              match ParseDate(rest)
              case None => None
              case Some(d) => Some((k, d))
  {
    LeadsSpelled();
    var s := Lead(k) + rest;
    assert s[..|Lead(k)|] == Lead(k);
    assert s[|Lead(k)|..] == rest;
    if k == Cycling {
      assert s[0] == 'C';
    }
  }

  /** A description determines the workout type and creation date it was built from. */
  lemma DescriptionRoundTrip(k: Kind, date: Date)
    ensures ParseDescription(Description(k, date)) == Some((k, date))
  {
    var rest := Months[date.month] + " " + DecimalString(date.day);
    assert Description(k, date) == Lead(k) + rest;
    ParseAfterLead(k, rest);
    ParseDateRoundTrip(date);
  }

  /** Two workouts with the same description have the same type and date. */
  lemma DescriptionInjective(k1: Kind, d1: Date, k2: Kind, d2: Date)
    ensures Description(k1, d1) == Description(k2, d2) <==> k1 == k2 && d1 == d2
  {
    DescriptionRoundTrip(k1, d1);
    DescriptionRoundTrip(k2, d2);
  }

  /** The example the list's title hard-codes. */
  lemma DescriptionExample()
    ensures Description(Running, Date(3, 14)) == "Running on April 14"
  {
    LeadsSpelled();
  }

  // ---------------------------------------------------------------------------
  // Construction and the click counter.

  /** `new Running(coords, distance, duration, cadence)`: pace in min/km. */
  function NewRunning(stamp: Stamp, coords: Coords, distance: real, duration: real, cadence: real): (w: Workout)
    ensures w.RunningWorkout? && w.clicks == 0
    ensures w.id == stamp.id && w.date == stamp.date && w.coords == coords
    ensures w.distance == distance && w.duration == duration && w.cadence == cadence
    ensures distance != 0.0 ==> w.pace == Finite(duration / distance)
    ensures distance == 0.0 ==> !IsFinite(w.pace)
    ensures w.description == Description(Running, stamp.date)
  {
    RunningWorkout(stamp.id, stamp.date, coords, distance, duration, 0,
                   Description(Running, stamp.date), cadence, Divide(duration, distance))
  }

  /** `new Cycling(coords, distance, duration, elevationGain)`: speed in km/h
      from a duration in minutes. */
  function NewCycling(stamp: Stamp, coords: Coords, distance: real, duration: real, elevationGain: real): (w: Workout)
    ensures w.CyclingWorkout? && w.clicks == 0
    ensures w.id == stamp.id && w.date == stamp.date && w.coords == coords
    ensures w.distance == distance && w.duration == duration && w.elevationGain == elevationGain
    ensures duration != 0.0 ==> w.speed == Finite(distance / (duration / 60.0))
    ensures duration == 0.0 ==> !IsFinite(w.speed)
    ensures w.description == Description(Cycling, stamp.date)
  {
    CyclingWorkout(stamp.id, stamp.date, coords, distance, duration, 0,
                   Description(Cycling, stamp.date), elevationGain, Divide(distance, duration / 60.0))
  }

  /** Everything a record holds other than its click counter. */
  predicate SameExceptClicks(a: Workout, b: Workout) {
    && KindOf(a) == KindOf(b)
    && a.id == b.id && a.date == b.date && a.coords == b.coords
    && a.distance == b.distance && a.duration == b.duration && a.description == b.description
    && (a.RunningWorkout? && b.RunningWorkout? ==> a.cadence == b.cadence && a.pace == b.pace)
    && (a.CyclingWorkout? && b.CyclingWorkout? ==> a.elevationGain == b.elevationGain && a.speed == b.speed)
  }

  /** `click()`: one more click, nothing else touched. */
  function Click(w: Workout): (r: Workout)
    ensures r.clicks == w.clicks + 1
    ensures SameExceptClicks(w, r)
  {
    w.(clicks := w.clicks + 1)
  }

  lemma RunningExample(stamp: Stamp)
    ensures NewRunning(stamp, Coords(40.7, -74.0), 5.0, 25.0, 150.0).pace == Finite(5.0)
  {
  }

  lemma CyclingExample(stamp: Stamp)
    ensures NewCycling(stamp, Coords(40.7, -74.0), 20.0, 60.0, 300.0).speed == Finite(20.0)
  {
  }
}
