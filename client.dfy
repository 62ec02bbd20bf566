/**
 * The DLB client: the single-entity fetchers with their guid guard, the
 * flight fetcher with its status check and optional hydration, and the
 * hydration step the flight listing shares.
 *
 * The web service is a `Server` value. Every fetch reports the requests it
 * issued, in order, beside its result, so "no request" is something a
 * contract can say.
 */
module Client {
  import opened Wrappers
  import opened PyStr
  import opened Json
  import opened Records
  import opened Flights

  // ---------------------------------------------------------------- the service

  datatype Kind = DroneKind | EquipmentKind | FlightKind | PlaceKind

  datatype Request =
    | Get(kind: Kind, guid: Json)      // GET api.dronelogbook.com/<kind>/<guid>
    | ListFlights(page: int)           // GET api.dronelogbook.com/flight?num_page=<page>
    | PostLogData(flightId: Json)      // POST ou.dronelogbook.com/webservices/getOriginalLogData.php

  /** An HTTP response: the status code and the decoded JSON body. */
  datatype Response = Response(status: int, body: Json)

  /**
   * What the service answers. Single-entity GETs and the log POST are
   * answered by functions of the request; the JSON body of page `p` of the
   * listing is `pages[p - 1]`, and the model knows no other page.
   */
  datatype Server = Server(entity: (Kind, Json) -> Response, logData: Json -> Response, pages: seq<Json>)

  /** The outcome of a fetch and the requests it sent, in order. */
  datatype Fetched<T> = Fetched(result: Result<T, Error>, sent: seq<Request>)

  /** `requests.get(...).json()['data'][0]` for one entity. */
  function RecordOf(s: Server, kind: Kind, guid: Json): Result<Json, Error>
  {
    Record(s.entity(kind, guid).body)
  }

  // ---------------------------------------------------------------- single-entity fetchers

  /** `get_drone`: no request for a missing guid; otherwise one GET, whose status is never looked at. */
  function GetDrone(s: Server, guid: Json): (o: Fetched<Option<Drone>>)
    ensures Absent(guid) ==> o == Fetched(Ok(None), [])
    ensures !Absent(guid) ==> o.sent == [Get(DroneKind, guid)]
    ensures !Absent(guid) ==> (o.result.Ok? <==> RecordOf(s, DroneKind, guid).Ok? && DroneOf(RecordOf(s, DroneKind, guid).value).Ok?)
    ensures !Absent(guid) && o.result.Ok? ==> o.result.value == Some(DroneOf(RecordOf(s, DroneKind, guid).value).value)
    ensures !Absent(guid) && o.result.Err? ==> o.result.error == (if RecordOf(s, DroneKind, guid).Err? then RecordOf(s, DroneKind, guid).error else DroneOf(RecordOf(s, DroneKind, guid).value).error)
  {
    if Absent(guid) then Fetched(Ok(None), [])
    else
      var sent := [Get(DroneKind, guid)];
      match RecordOf(s, DroneKind, guid)
      case Err(e) => Fetched(Err(e), sent)
      case Ok(data) =>
        match DroneOf(data)
        case Err(e) => Fetched(Err(e), sent)
        case Ok(d) => Fetched(Ok(Some(d)), sent)
  }

  /** `get_equipment`: the same guard and the same unchecked GET as `get_drone`. */
  function GetEquipment(s: Server, guid: Json): (o: Fetched<Option<Equipment>>)
    ensures Absent(guid) ==> o == Fetched(Ok(None), [])
    ensures !Absent(guid) ==> o.sent == [Get(EquipmentKind, guid)]
    ensures !Absent(guid) ==> (o.result.Ok? <==> RecordOf(s, EquipmentKind, guid).Ok? && EquipmentOf(RecordOf(s, EquipmentKind, guid).value).Ok?)
    ensures !Absent(guid) && o.result.Ok? ==> o.result.value == Some(EquipmentOf(RecordOf(s, EquipmentKind, guid).value).value)
    ensures !Absent(guid) && o.result.Err? ==> o.result.error == (if RecordOf(s, EquipmentKind, guid).Err? then RecordOf(s, EquipmentKind, guid).error else EquipmentOf(RecordOf(s, EquipmentKind, guid).value).error)
  {
    if Absent(guid) then Fetched(Ok(None), [])
    else
      var sent := [Get(EquipmentKind, guid)];
      match RecordOf(s, EquipmentKind, guid)
      case Err(e) => Fetched(Err(e), sent)
      case Ok(data) =>
        match EquipmentOf(data)
        case Err(e) => Fetched(Err(e), sent)
        case Ok(e) => Fetched(Ok(Some(e)), sent)
  }

  /** `get_place`: no guard at all, so a missing guid is requested too; success always yields a Place. */
  function GetPlace(s: Server, guid: Json): (o: Fetched<Place>)
    ensures o.sent == [Get(PlaceKind, guid)]
    ensures o.result.Ok? <==> RecordOf(s, PlaceKind, guid).Ok? && PlaceOf(RecordOf(s, PlaceKind, guid).value).Ok?
    ensures o.result.Ok? ==> o.result.value == PlaceOf(RecordOf(s, PlaceKind, guid).value).value
    ensures o.result.Err? ==> o.result.error == (if RecordOf(s, PlaceKind, guid).Err? then RecordOf(s, PlaceKind, guid).error else PlaceOf(RecordOf(s, PlaceKind, guid).value).error)
  {
    var sent := [Get(PlaceKind, guid)];
    match RecordOf(s, PlaceKind, guid)
    case Err(e) => Fetched(Err(e), sent)
    case Ok(data) => Fetched(PlaceOf(data), sent)
  }

  /** `get_project`: the guard, then a bare `return`; it never sends a request nor builds a Project. */
  function GetProject(guid: Json): (o: Fetched<Option<Project>>)
    ensures o.result == Ok(None) && o.sent == []
  {
    if Absent(guid) then Fetched(Ok(None), []) else Fetched(Ok(None), [])
  }

  /** `get_binary`: the guard, then one POST whose response is handed back whatever its status. */
  function GetBinary(s: Server, guid: Json): (o: Fetched<Option<Response>>)
    ensures Absent(guid) ==> o == Fetched(Ok(None), [])
    ensures !Absent(guid) ==> o == Fetched(Ok(Some(s.logData(guid))), [PostLogData(guid)])
  {
    if Absent(guid) then Fetched(Ok(None), [])
    else Fetched(Ok(Some(s.logData(guid))), [PostLogData(guid)])
  }

  /** The single-entity fetchers do not look at the status: two answers with the same body give the same result. */
  lemma StatusIgnored(s1: Server, s2: Server, guid: Json)
    requires forall k :: s1.entity(k, guid).body == s2.entity(k, guid).body
    ensures GetDrone(s1, guid) == GetDrone(s2, guid)
    ensures GetEquipment(s1, guid) == GetEquipment(s2, guid)
    ensures GetPlace(s1, guid) == GetPlace(s2, guid)
  {
    assert RecordOf(s1, DroneKind, guid) == RecordOf(s2, DroneKind, guid);
    assert RecordOf(s1, EquipmentKind, guid) == RecordOf(s2, EquipmentKind, guid);
    assert RecordOf(s1, PlaceKind, guid) == RecordOf(s2, PlaceKind, guid);
  }

  // ---------------------------------------------------------------- hydration

  /** The GETs `[get_equipment(g) for g in ids]` sends when every one succeeds. */
  function EquipmentRequests(ids: seq<Json>): seq<Request>
  {
    if ids == [] then []
    else (if Absent(ids[0]) then [] else [Get(EquipmentKind, ids[0])]) + EquipmentRequests(ids[1..])
  }

  /** The requests a run of fetches sends when every one succeeds: each fetch's requests, in order. */
  function SentEach<T>(fetch: Json -> Fetched<T>, ids: seq<Json>): seq<Request>
  {
    if ids == [] then [] else fetch(ids[0]).sent + SentEach(fetch, ids[1..])
  }

  /**
   * A list comprehension over fetches, `[fetch(g) for g in ids]`: the fetches
   * run in order and the first exception ends the comprehension.
   */
  function FetchEach<T>(fetch: Json -> Fetched<T>, ids: seq<Json>): (o: Fetched<seq<T>>)
    decreases |ids|
    ensures o.result.Ok? <==> forall i :: 0 <= i < |ids| ==> fetch(ids[i]).result.Ok?
    ensures o.result.Ok? ==> |o.result.value| == |ids|
    ensures o.result.Ok? ==> forall i :: 0 <= i < |ids| ==> fetch(ids[i]).result == Ok(o.result.value[i])
    ensures o.result.Ok? ==> o.sent == SentEach(fetch, ids)
  {
    if ids == [] then Fetched(Ok([]), [])
    else
      var first := fetch(ids[0]);
      match first.result
      case Err(e) => Fetched(Err(e), first.sent)
      case Ok(item) =>
        var rest := FetchEach(fetch, ids[1..]);
        assert forall i :: 1 <= i < |ids| ==> ids[1..][i - 1] == ids[i];
        match rest.result
        case Err(e) => Fetched(Err(e), first.sent + rest.sent)
        case Ok(items) => Fetched(Ok([item] + items), first.sent + rest.sent)
  }

  /** `get_equipment` as a fetch of one guid. */
  function EquipmentFetch(s: Server): Json -> Fetched<Option<Equipment>>
  {
    guid => GetEquipment(s, guid)
  }

  /** The `get_equipment` calls send one GET per guid that is not missing, in order. */
  lemma {:induction false} EquipmentFetchSent(s: Server, ids: seq<Json>)
    decreases |ids|
    ensures SentEach(EquipmentFetch(s), ids) == EquipmentRequests(ids)
  {
    if ids != [] {
      EquipmentFetchSent(s, ids[1..]);
    }
  }

  /** `[self.get_equipment(guid) for guid in ids]`: same length and order, each guid mapped through `get_equipment`. */
  function GetEquipmentList(s: Server, ids: seq<Json>): (o: Fetched<seq<Option<Equipment>>>)
    ensures o.result.Ok? <==> forall i :: 0 <= i < |ids| ==> GetEquipment(s, ids[i]).result.Ok?
    ensures o.result.Ok? ==> |o.result.value| == |ids|
    ensures o.result.Ok? ==> forall i :: 0 <= i < |ids| ==> GetEquipment(s, ids[i]).result == Ok(o.result.value[i])
    ensures o.result.Ok? ==> o.sent == EquipmentRequests(ids)
  {
    EquipmentFetchSent(s, ids);
    FetchEach(EquipmentFetch(s), ids)
  }

  /** What hydration attaches to a flight. */
  datatype Related = Related(drone: Option<Drone>, place: Place, project: Option<Project>, equipment: seq<Option<Equipment>>)

  /**
   * The `if recursive:` block: drone, place and project in that order, then
   * the equipment guids. The first exception ends it.
   */
  function Hydration(s: Server, rec: FlightRecord, equipmentIds: Json): (o: Fetched<Related>)
    ensures o.result.Ok? <==> && GetDrone(s, rec.droneGuid).result.Ok? && GetPlace(s, rec.placeGuid).result.Ok?
                              && Elements(equipmentIds).Ok? && GetEquipmentList(s, Elements(equipmentIds).value).result.Ok?
    ensures o.result.Ok? ==> var rel := o.result.value;
                             && Ok(rel.drone) == GetDrone(s, rec.droneGuid).result
                             && Ok(rel.place) == GetPlace(s, rec.placeGuid).result
                             && rel.project.None?
                             && Ok(rel.equipment) == GetEquipmentList(s, Elements(equipmentIds).value).result
    ensures o.result.Ok? ==> o.sent == GetDrone(s, rec.droneGuid).sent + [Get(PlaceKind, rec.placeGuid)]
                                       + EquipmentRequests(Elements(equipmentIds).value)
    ensures |o.sent| >= 1 && (Absent(rec.droneGuid) <==> o.sent[0] == Get(PlaceKind, rec.placeGuid))
  {
    var d := GetDrone(s, rec.droneGuid);
    if d.result.Err? then Fetched(Err(d.result.error), d.sent)
    else
      var p := GetPlace(s, rec.placeGuid);
      if p.result.Err? then Fetched(Err(p.result.error), d.sent + p.sent)
      else
        var project := GetProject(rec.projectGuid);
        match Elements(equipmentIds)
        case Err(e) => Fetched(Err(e), d.sent + p.sent)
        case Ok(ids) =>
          var list := GetEquipmentList(s, ids);
          match list.result
          case Err(e) => Fetched(Err(e), d.sent + p.sent + list.sent)
          case Ok(items) =>
            Fetched(Ok(Related(d.result.value, p.result.value, project.result.value, items)), d.sent + p.sent + list.sent)
  }

  /**
   * The first three assignments of the `if recursive:` block on a Flight
   * object; the equipment list is returned for the caller to store.
   */
  method Hydrate(f: Flight, s: Server) returns (items: Result<seq<Option<Equipment>>, Error>, sent: seq<Request>)
    requires f.equipment.Ids?
    modifies f
    ensures var h := Hydration(s, f.Record(), old(f.equipment).ids);
            && sent == h.sent && (items.Ok? <==> h.result.Ok?)
            && (items.Err? ==> items.error == h.result.error)
            && (items.Ok? ==> && items.value == h.result.value.equipment
                              && f.drone == h.result.value.drone && f.place == Some(h.result.value.place)
                              && f.project == h.result.value.project)
    ensures f.equipment == old(f.equipment) && f.equiement == old(f.equiement)
  {
    var d := GetDrone(s, f.droneGuid);
    sent := d.sent;
    if d.result.Err? {
      return Err(d.result.error), sent;
    }
    f.drone := d.result.value;
    var p := GetPlace(s, f.placeGuid);
    sent := sent + p.sent;
    if p.result.Err? {
      return Err(p.result.error), sent;
    }
    f.place := Some(p.result.value);
    f.project := GetProject(f.projectGuid).result.value;
    var ids := Elements(f.equipment.ids);
    if ids.Err? {
      return Err(ids.error), sent;
    }
    var list := GetEquipmentList(s, ids.value);
    sent := sent + list.sent;
    items := list.result;
  }

  /** The state a flight reaches once the hydration results are stored. */
  function Attach(v: FlightView, rel: Related, misspelt: bool): (w: FlightView)
    ensures w.record == v.record && w.drone == rel.drone && w.place == Some(rel.place) && w.project == rel.project
    ensures misspelt ==> w.equipment == v.equipment && w.equiement == Some(rel.equipment)
    ensures !misspelt ==> w.equipment == Loaded(rel.equipment) && w.equiement == v.equiement
  {
    var w := v.(drone := rel.drone, place := Some(rel.place), project := rel.project);
    if misspelt then w.(equiement := Some(rel.equipment)) else w.(equipment := Loaded(rel.equipment))
  }

  // ---------------------------------------------------------------- get_flight

  /** `get_flight(guid, recursive)` as a value: guard, GET, status check, construction, hydration. */
  function FlightAt(s: Server, guid: Json, recursive: bool, strptime: string -> Option<DateTime>): (o: Fetched<Option<FlightView>>)
    ensures Absent(guid) ==> o == Fetched(Ok(None), [])
    ensures !Absent(guid) ==> |o.sent| >= 1 && o.sent[0] == Get(FlightKind, guid)
    ensures !Absent(guid) && s.entity(FlightKind, guid).status != 200 ==> o == Fetched(Ok(None), [Get(FlightKind, guid)])
    ensures !Absent(guid) && s.entity(FlightKind, guid).status == 200 && o.result.Ok? ==>
              && o.result.value.Some?
              && RecordOf(s, FlightKind, guid).Ok?
              && DecodeFlight(RecordOf(s, FlightKind, guid).value, strptime).Ok?
              && o.result.value.value.record == DecodeFlight(RecordOf(s, FlightKind, guid).value, strptime).value.record
    ensures !recursive && o.result.Ok? && o.result.value.Some? ==>
              o.sent == [Get(FlightKind, guid)] && o.result.value.value == DecodeFlight(RecordOf(s, FlightKind, guid).value, strptime).value
    ensures recursive && o.result.Ok? && o.result.value.Some? ==>
              var v := o.result.value.value;
              var ids := DecodeFlight(RecordOf(s, FlightKind, guid).value, strptime).value.equipment.ids;
              && v.equipment.Loaded? && v.equiement.None? && v.place.Some? && v.project.None?
              && Elements(ids).Ok? && |v.equipment.items| == |Elements(ids).value|
              && forall i :: 0 <= i < |v.equipment.items| ==>
                   GetEquipment(s, Elements(ids).value[i]).result == Ok(v.equipment.items[i])
  {
    if Absent(guid) then Fetched(Ok(None), [])
    else
      var req := Get(FlightKind, guid);
      if s.entity(FlightKind, guid).status != 200 then Fetched(Ok(None), [req])
      else
        match RecordOf(s, FlightKind, guid)
        case Err(e) => Fetched(Err(e), [req])
        case Ok(data) =>
          match DecodeFlight(data, strptime)
          case Err(e) => Fetched(Err(e), [req])
          case Ok(v) =>
            if !recursive then Fetched(Ok(Some(v)), [req])
            else
              var h := Hydration(s, v.record, v.equipment.ids);
              match h.result
              case Err(e) => Fetched(Err(e), [req] + h.sent)
              case Ok(rel) => Fetched(Ok(Some(Attach(v, rel, false))), [req] + h.sent)
  }

  /**
   * When `get_flight` returns a flight for a status-200 answer: exactly when
   * `data[0]` exists and decodes, and, when hydrating, every fetch succeeds.
   * A hydrated flight holds the drone and place the service returns.
   */
  lemma FlightAtSucceeds(s: Server, guid: Json, recursive: bool, strptime: string -> Option<DateTime>)
    requires !Absent(guid) && s.entity(FlightKind, guid).status == 200
    ensures var o := FlightAt(s, guid, recursive, strptime);
            o.result.Ok? <==> && RecordOf(s, FlightKind, guid).Ok?
                              && DecodeFlight(RecordOf(s, FlightKind, guid).value, strptime).Ok?
                              && (recursive ==>
                                    var v := DecodeFlight(RecordOf(s, FlightKind, guid).value, strptime).value;
                                    Hydration(s, v.record, v.equipment.ids).result.Ok?)
    ensures var o := FlightAt(s, guid, recursive, strptime);
            recursive && o.result.Ok? ==>
              var v := DecodeFlight(RecordOf(s, FlightKind, guid).value, strptime).value;
              && o.result.value.Some?
              && o.sent == [Get(FlightKind, guid)] + Hydration(s, v.record, v.equipment.ids).sent
              && Ok(o.result.value.value.drone) == GetDrone(s, v.record.droneGuid).result
              && Ok(o.result.value.value.place.value) == GetPlace(s, v.record.placeGuid).result
  {
    var data := RecordOf(s, FlightKind, guid);
    if data.Ok? && DecodeFlight(data.value, strptime).Ok? && recursive {
      var v := DecodeFlight(data.value, strptime).value;
      var h := Hydration(s, v.record, v.equipment.ids);
      if h.result.Ok? {
        assert FlightAt(s, guid, recursive, strptime) == Fetched(Ok(Some(Attach(v, h.result.value, false))), [Get(FlightKind, guid)] + h.sent);
      } else {
        assert FlightAt(s, guid, recursive, strptime).result.Err?;
      }
    }
  }

  /** `get_flight` on objects: builds the Flight and, when asked, hydrates it in place. */
  method GetFlight(s: Server, guid: Json, recursive: bool, strptime: string -> Option<DateTime>)
    returns (r: Result<Option<Flight>, Error>, sent: seq<Request>)
    ensures var o := FlightAt(s, guid, recursive, strptime);
            && sent == o.sent && (r.Ok? <==> o.result.Ok?)
            && (r.Err? ==> r.error == o.result.error)
            && (r.Ok? ==> (r.value.Some? <==> o.result.value.Some?))
            && (r.Ok? && r.value.Some? ==> fresh(r.value.value) && r.value.value.View() == o.result.value.value)
  {
    if Absent(guid) {
      return Ok(None), [];
    }
    var req := Get(FlightKind, guid);
    var response := s.entity(FlightKind, guid);
    sent := [req];
    if response.status != 200 {
      return Ok(None), sent;
    }
    var data := Record(response.body);
    if data.Err? {
      return Err(data.error), sent;
    }
    var made := NewFlight(data.value, strptime);
    if made.Err? {
      return Err(made.error), sent;
    }
    var flight := made.value;
    if recursive {
      ghost var v := flight.View();
      var items, more := Hydrate(flight, s);
      sent := sent + more;
      if items.Err? {
        return Err(items.error), sent;
      }
      flight.equipment := Loaded(items.value);
      ghost var h := Hydration(s, v.record, v.equipment.ids);
      assert flight.View() == Attach(v, h.result.value, false);
      assert FlightAt(s, guid, recursive, strptime) == Fetched(Ok(Some(flight.View())), sent);
    }
    r := Ok(Some(flight));
  }
}
