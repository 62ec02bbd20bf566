/**
 * The Flight record: construction from a payload with its timestamp
 * fallback, the attributes that hydration fills in later, and the
 * comparison operators, which order flights by `flight_time`.
 */
module Flights {
  import opened Wrappers
  import opened Json
  import opened Records

  // ---------------------------------------------------------------- timestamps

  /** A naive `datetime`. */
  datatype DateTime = DateTime(year: int, month: int, day: int, hour: int, minute: int, second: int, microsecond: int)

  /** `datetime(1970, 1, 1)`, the fallback for an unparseable date. */
  const Epoch := DateTime(1970, 1, 1, 0, 0, 0, 0)

  /** The tuple a `datetime` comparison looks at, most significant first. */
  function Fields(t: DateTime): (f: seq<int>)
    ensures |f| == 7
  {
    [t.year, t.month, t.day, t.hour, t.minute, t.second, t.microsecond]
  }

  lemma FieldsInjective(a: DateTime, b: DateTime)
    ensures Fields(a) == Fields(b) ==> a == b
  {
    if Fields(a) == Fields(b) {
      assert Fields(a)[0] == Fields(b)[0] && Fields(a)[1] == Fields(b)[1] && Fields(a)[2] == Fields(b)[2];
      assert Fields(a)[3] == Fields(b)[3] && Fields(a)[4] == Fields(b)[4];
      assert Fields(a)[5] == Fields(b)[5] && Fields(a)[6] == Fields(b)[6];
    }
  }

  /** Lexicographic three-way comparison of two equally long tuples: -1, 0 or 1. */
  function Compare(a: seq<int>, b: seq<int>): int
    requires |a| == |b|
  {
    if a == [] then 0
    else if a[0] < b[0] then -1
    else if a[0] > b[0] then 1
    else Compare(a[1..], b[1..])
  }

  lemma {:induction false} CompareFlip(a: seq<int>, b: seq<int>)
    requires |a| == |b|
    ensures Compare(b, a) == -Compare(a, b)
  {
    if a != [] && a[0] == b[0] {
      CompareFlip(a[1..], b[1..]);
    }
  }

  lemma {:induction false} CompareZero(a: seq<int>, b: seq<int>)
    requires |a| == |b|
    ensures Compare(a, b) == 0 <==> a == b
  {
    if a != [] {
      CompareZero(a[1..], b[1..]);
      if a[0] == b[0] {
        assert a == [a[0]] + a[1..] && b == [b[0]] + b[1..];
      }
    }
  }

  lemma {:induction false} CompareTransitive(a: seq<int>, b: seq<int>, c: seq<int>)
    requires |a| == |b| == |c|
    requires Compare(a, b) < 0 && Compare(b, c) < 0
    ensures Compare(a, c) < 0
  {
    if a[0] == b[0] == c[0] {
      CompareTransitive(a[1..], b[1..], c[1..]);
    }
  }

  /** `datetime._cmp`: the sign of `a - b`. */
  function CompareTimes(a: DateTime, b: DateTime): int
  {
    Compare(Fields(a), Fields(b))
  }

  /** Equal times compare equal, and only they do. */
  lemma CompareTimesZero(a: DateTime, b: DateTime)
    ensures CompareTimes(a, b) == 0 <==> a == b
  {
    CompareZero(Fields(a), Fields(b));
    FieldsInjective(a, b);
  }

  // ---------------------------------------------------------------- payload decoding

  /** The attributes `Flight.__init__` sets and nothing later changes. */
  datatype FlightRecord = FlightRecord(
    raw: Json, guid: Json, personnel: Json, weather: Json, duration: Json, placeName: Json,
    droneGuid: Json, placeGuid: Json, projectGuid: Json, flightTime: DateTime)

  /** What `flight.equipment` holds: the payload's guid list, or what `get_flight` fetched for it. */
  datatype EquipmentField = Ids(ids: Json) | Loaded(items: seq<Option<Equipment>>)

  /** A snapshot of every attribute of a Flight object. */
  datatype FlightView = FlightView(
    record: FlightRecord,
    equipment: EquipmentField,
    equiement: Option<seq<Option<Equipment>>>,   // the misspelt attribute `get_flights` sets; None while unset
    drone: Option<Drone>,
    place: Option<Place>,
    project: Option<Project>)

  /** The keys `Flight.__init__` reads before the date, in source order. */
  const FlightKeys: seq<string> := ["guid", "personnel", "weather_detail", "duration_seconds", "place_name",
                                    "drone_guid", "place_guid", "project_guid", "equipments"]

  /** `flight_time`: the parsed date, or the epoch when `strptime` rejects the text. */
  function TimeOrEpoch(parsed: Option<DateTime>): DateTime
  {
    match parsed
    case Some(t) => t
    case None => Epoch
  }

  /** The payload has every key `Flight.__init__` reads, and its date is text. */
  predicate Complete(data: Json)
  {
    && data.JObj?
    && "guid" in data.fields && "personnel" in data.fields && "weather_detail" in data.fields
    && "duration_seconds" in data.fields && "place_name" in data.fields && "drone_guid" in data.fields
    && "place_guid" in data.fields && "project_guid" in data.fields && "equipments" in data.fields
    && "flight_date_utc" in data.fields && data.fields["flight_date_utc"].JStr?
  }

  /**
   * The payload side of `Flight(data)`. A missing key raises; a date that is
   * not a string raises (`strptime` is only guarded against bad text); bad
   * text falls back to the epoch. The result is the state of the new object:
   * no related records yet, and `equipment` still the payload's guid list.
   */
  function DecodeFlight(data: Json, strptime: string -> Option<DateTime>): (r: Result<FlightView, Error>)
    ensures r.Ok? <==> Complete(data)
    ensures r.Ok? ==> r.value.record.flightTime == TimeOrEpoch(strptime(data.fields["flight_date_utc"].s))
    ensures r.Ok? ==> var rec := r.value.record;
                      && rec.raw == data && rec.guid == data.fields["guid"]
                      && rec.personnel == data.fields["personnel"] && rec.weather == data.fields["weather_detail"]
                      && rec.duration == data.fields["duration_seconds"] && rec.placeName == data.fields["place_name"]
                      && rec.droneGuid == data.fields["drone_guid"] && rec.placeGuid == data.fields["place_guid"]
                      && rec.projectGuid == data.fields["project_guid"]
    ensures r.Ok? ==> && r.value.equipment == Ids(data.fields["equipments"]) && r.value.equiement.None?
                      && r.value.drone.None? && r.value.place.None? && r.value.project.None?
  {
    var guid :- Index(data, "guid");
    var personnel :- Index(data, "personnel");
    var weather :- Index(data, "weather_detail");
    var duration :- Index(data, "duration_seconds");
    var placeName :- Index(data, "place_name");
    var droneGuid :- Index(data, "drone_guid");
    var placeGuid :- Index(data, "place_guid");
    var projectGuid :- Index(data, "project_guid");
    var equipment :- Index(data, "equipments");
    var date :- Index(data, "flight_date_utc");
    if !date.JStr? then Err(TypeError)
    else
      var rec := FlightRecord(data, guid, personnel, weather, duration, placeName,
                              droneGuid, placeGuid, projectGuid, TimeOrEpoch(strptime(date.s)));
      Ok(FlightView(rec, Ids(equipment), None, None, None, None))
  }

  /**
   * Indexing a payload that is not an object raises `TypeError`; otherwise
   * the `KeyError` names the first key missing in source order.
   */
  lemma DecodeErrors(data: Json, strptime: string -> Option<DateTime>, i: nat)
    ensures !data.JObj? ==> DecodeFlight(data, strptime) == Err(TypeError)
    ensures var keys := FlightKeys + ["flight_date_utc"];
            && data.JObj? && i < |keys| && keys[i] !in data.fields
            && (forall j :: 0 <= j < i ==> keys[j] in data.fields)
            ==> DecodeFlight(data, strptime) == Err(KeyError(JStr(keys[i])))
  {
    var keys := FlightKeys + ["flight_date_utc"];
    assert keys == ["guid", "personnel", "weather_detail", "duration_seconds", "place_name",
                    "drone_guid", "place_guid", "project_guid", "equipments", "flight_date_utc"];
    if data.JObj? && i < |keys| && keys[i] !in data.fields && (forall j :: 0 <= j < i ==> keys[j] in data.fields) {
      assert forall j :: 0 <= j < i ==> keys[j] in data.fields;
      if i >= 1 { assert keys[0] in data.fields; }
      if i >= 2 { assert keys[1] in data.fields; }
      if i >= 3 { assert keys[2] in data.fields; }
      if i >= 4 { assert keys[3] in data.fields; }
      if i >= 5 { assert keys[4] in data.fields; }
      if i >= 6 { assert keys[5] in data.fields; }
      if i >= 7 { assert keys[6] in data.fields; }
      if i >= 8 { assert keys[7] in data.fields; }
      if i >= 9 { assert keys[8] in data.fields; }
    }
  }

  /** A bad date string never makes construction fail: it yields the epoch. */
  lemma BadDateFallsBack(data: Json, strptime: string -> Option<DateTime>)
    requires Complete(data)
    requires strptime(data.fields["flight_date_utc"].s).None?
    ensures DecodeFlight(data, strptime).Ok? && DecodeFlight(data, strptime).value.record.flightTime == Epoch
  {
  }

  // ---------------------------------------------------------------- the Flight object

  class Flight {
    const raw: Json
    const guid: Json
    const personnel: Json
    const weather: Json
    const duration: Json
    const placeName: Json
    const droneGuid: Json
    const placeGuid: Json
    const projectGuid: Json
    const flightTime: DateTime
    var equipment: EquipmentField
    var equiement: Option<seq<Option<Equipment>>>
    var drone: Option<Drone>
    var place: Option<Place>
    var project: Option<Project>

    /** The attribute assignments of `Flight.__init__`, given the decoded payload. */
    constructor (rec: FlightRecord, equipmentIds: Json)
      ensures View() == FlightView(rec, Ids(equipmentIds), None, None, None, None)
    {
      raw, guid, personnel, weather, duration := rec.raw, rec.guid, rec.personnel, rec.weather, rec.duration;
      placeName, droneGuid, placeGuid, projectGuid := rec.placeName, rec.droneGuid, rec.placeGuid, rec.projectGuid;
      flightTime := rec.flightTime;
      equipment := Ids(equipmentIds);
      equiement := None;
      drone, place, project := None, None, None;
    }

    /** The attributes fixed at construction. */
    function Record(): FlightRecord
    {
      FlightRecord(raw, guid, personnel, weather, duration, placeName,
                   droneGuid, placeGuid, projectGuid, flightTime)
    }

    function View(): FlightView
      reads this
    {
      FlightView(Record(), equipment, equiement, drone, place, project)
    }

    /** `__lt__` */
    predicate Lt(other: Flight) {
      CompareTimes(flightTime, other.flightTime) < 0
    }

    /** `__gt__` */
    predicate Gt(other: Flight) {
      CompareTimes(flightTime, other.flightTime) > 0
    }

    /** `__eq__` as written: it compares this flight's time with itself. */
    predicate EqAsWritten(other: Flight) {
      CompareTimes(flightTime, flightTime) == 0
    }

    /** `__eq__` as evidently intended: the two flights' times are equal. */
    predicate Eq(other: Flight) {
      CompareTimes(flightTime, other.flightTime) == 0
    }
  }

  /** Flights that show given states, one per index, concatenate to flights that show the concatenated states. */
  lemma ShowsAppend(xs: seq<Flight>, ys: seq<Flight>, vs: seq<FlightView>, ws: seq<FlightView>)
    requires |xs| == |vs| && forall i :: 0 <= i < |xs| ==> xs[i].View() == vs[i]
    requires |ys| == |ws| && forall i :: 0 <= i < |ys| ==> ys[i].View() == ws[i]
    ensures |xs + ys| == |vs + ws| && forall i :: 0 <= i < |xs + ys| ==> (xs + ys)[i].View() == (vs + ws)[i]
  {
    forall i | 0 <= i < |xs + ys| ensures (xs + ys)[i].View() == (vs + ws)[i] {
      if i >= |xs| {
        assert (xs + ys)[i] == ys[i - |xs|] && (vs + ws)[i] == ws[i - |xs|];
      }
    }
  }

  /** `Flight(data)`: a new object in the state `DecodeFlight` describes, or the exception. */
  method NewFlight(data: Json, strptime: string -> Option<DateTime>) returns (r: Result<Flight, Error>)
    ensures r.Ok? <==> DecodeFlight(data, strptime).Ok?
    ensures r.Err? ==> r.error == DecodeFlight(data, strptime).error
    ensures r.Ok? ==> fresh(r.value) && r.value.View() == DecodeFlight(data, strptime).value
  {
    var v :- DecodeFlight(data, strptime);
    var f := new Flight(v.record, v.equipment.ids);
    r := Ok(f);
  }

  // ---------------------------------------------------------------- ordering

  /** `a < b` exactly when `b > a`. */
  lemma LtIffGt(a: Flight, b: Flight)
    ensures a.Lt(b) <==> b.Gt(a)
  {
    CompareFlip(Fields(a.flightTime), Fields(b.flightTime));
  }

  /** No flight is earlier than itself. */
  lemma LtIrreflexive(a: Flight)
    ensures !a.Lt(a)
  {
    CompareTimesZero(a.flightTime, a.flightTime);
  }

  lemma LtTransitive(a: Flight, b: Flight, c: Flight)
    requires a.Lt(b) && b.Lt(c)
    ensures a.Lt(c)
  {
    CompareTransitive(Fields(a.flightTime), Fields(b.flightTime), Fields(c.flightTime));
  }

  /** `__eq__` as written holds of every pair of flights, whatever their times. */
  lemma EqAsWrittenAlwaysTrue(a: Flight, b: Flight)
    ensures a.EqAsWritten(b)
  {
    CompareTimesZero(a.flightTime, a.flightTime);
  }

  /** With different times, `a == b` as written is True while `a < b` or `a > b` is True too. */
  lemma EqAsWrittenContradictsOrder(a: Flight, b: Flight)
    requires a.flightTime != b.flightTime
    ensures a.EqAsWritten(b) && (a.Lt(b) || a.Gt(b))
  {
    EqAsWrittenAlwaysTrue(a, b);
    CompareTimesZero(a.flightTime, b.flightTime);
  }

  /** The intended `__eq__` holds exactly for equal times, and exactly one of `<`, `==`, `>` holds. */
  lemma Trichotomy(a: Flight, b: Flight)
    ensures a.Eq(b) <==> a.flightTime == b.flightTime
    ensures a.Lt(b) || a.Eq(b) || a.Gt(b)
    ensures !(a.Lt(b) && a.Eq(b)) && !(a.Eq(b) && a.Gt(b)) && !(a.Lt(b) && a.Gt(b))
  {
    CompareTimesZero(a.flightTime, b.flightTime);
  }
}
