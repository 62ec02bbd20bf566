/**
 * The record classes a fetch builds from one JSON object: Drone, Place,
 * Project and Equipment. None of them is changed after construction in
 * the modelled core, so each is a value.
 */
module Records {
  import opened Wrappers
  import opened PyStr
  import opened Json

  /** The separator the service uses between note lines. */
  const LineBreak: string := "\r\n"

  /** `data[key].split(sep)`: the string field cut into pieces; a non-string has no `split`. */
  function SplitField(data: Json, key: string, sep: string): (r: Result<seq<string>, Error>)
    requires sep != []
    ensures r.Ok? <==> data.JObj? && key in data.fields && data.fields[key].JStr?
    ensures r.Ok? ==> |r.value| >= 1 && Join(r.value, sep) == data.fields[key].s
    ensures r.Ok? ==> forall k :: 0 <= k < |r.value| ==> !Contains(r.value[k], sep)
  {
    var field :- Index(data, key);
    if field.JStr? then
      JoinSplit(field.s, sep);
      Ok(Split(field.s, sep))
    else
      Err(AttributeError("split"))
  }

  // ---------------------------------------------------------------- Drone

  datatype Drone = Drone(raw: Json, guid: Json, brand: Json, model: Json, idNumber: Json, notes: seq<string>)

  /** `Drone(data)`: copies four fields and splits the notes into lines. */
  function DroneOf(data: Json): (r: Result<Drone, Error>)
    ensures r.Ok? <==> data.JObj? && "guid" in data.fields && "brand" in data.fields && "model" in data.fields
                       && "identification_number" in data.fields && "notes" in data.fields
                       && data.fields["notes"].JStr?
    ensures r.Ok? ==> && r.value.raw == data && r.value.guid == data.fields["guid"]
                      && r.value.brand == data.fields["brand"] && r.value.model == data.fields["model"]
                      && r.value.idNumber == data.fields["identification_number"]
    ensures r.Ok? ==> |r.value.notes| >= 1 && Join(r.value.notes, LineBreak) == data.fields["notes"].s
    ensures r.Ok? ==> forall k :: 0 <= k < |r.value.notes| ==> !Contains(r.value.notes[k], LineBreak)
  {
    var guid :- Index(data, "guid");
    var brand :- Index(data, "brand");
    var model :- Index(data, "model");
    var idNumber :- Index(data, "identification_number");
    var notes :- SplitField(data, "notes", LineBreak);
    Ok(Drone(data, guid, brand, model, idNumber, notes))
  }

  // ---------------------------------------------------------------- Place

  /** The three coordinates are kept as the payload gives them; see README for the float conversion. */
  datatype Place = Place(raw: Json, guid: Json, altitude: Json, latitude: Json, longitude: Json, name: Json, address: Json)

  /** `Place(data)`: reads six keys in source order. */
  function PlaceOf(data: Json): (r: Result<Place, Error>)
    ensures r.Ok? <==> data.JObj? && "guid" in data.fields && "altitude" in data.fields && "latitude" in data.fields
                       && "longitude" in data.fields && "name" in data.fields && "address" in data.fields
    ensures r.Ok? ==> && r.value.raw == data && r.value.guid == data.fields["guid"]
                      && r.value.altitude == data.fields["altitude"] && r.value.latitude == data.fields["latitude"]
                      && r.value.longitude == data.fields["longitude"]
                      && r.value.name == data.fields["name"] && r.value.address == data.fields["address"]
    ensures data.JObj? && "guid" !in data.fields ==> r == Err(KeyError(JStr("guid")))
  {
    var guid :- Index(data, "guid");
    var altitude :- Index(data, "altitude");
    var latitude :- Index(data, "latitude");
    var longitude :- Index(data, "longitude");
    var name :- Index(data, "name");
    var address :- Index(data, "address");
    Ok(Place(data, guid, altitude, latitude, longitude, name, address))
  }

  // ---------------------------------------------------------------- Project

  /** `Project(data)` keeps only the payload. */
  datatype Project = Project(raw: Json)

  // ---------------------------------------------------------------- Equipment

  datatype Equipment = Equipment(
    raw: Json,
    name: string,
    equipmentType: Json,
    notes: seq<string>,
    scoop: Option<string>,           // the `scoop` attribute; None when it is never set
    imetSn: Option<seq<string>>,     // the `imet_sn` attribute; None when it is never set
    hytSn: Option<seq<string>>)      // the `hyt_sn` attribute; None when it is never set

  /**
   * The `scoop` attribute: set when "scoop" occurs in the lower-cased name,
   * to the last space-separated word of the name (`name.split(' ')[-1]`).
   * That word is the longest suffix of the name free of spaces.
   */
  function ScoopOf(name: string): (r: Option<string>)
    ensures r.Some? <==> Contains(Lower(name), "scoop")
    ensures r.Some? ==> |r.value| <= |name| && name[|name| - |r.value|..] == r.value
    ensures r.Some? ==> !Contains(r.value, " ")
    ensures r.Some? ==> r.value == name || name[|name| - |r.value| - 1] == ' '
    ensures r.Some? && |name| > 0 && name[|name| - 1] == ' ' ==> r.value == ""
  {
    if Contains(Lower(name), "scoop") then
      var word := LastPiece(name, " ");
      assert " "[0] == ' ';
      Some(word)
    else None
  }

  /**
   * `[id for id in xs if id != ' ']`: only pieces equal to one space are
   * dropped; every other piece is kept as often as it occurs.
   */
  function DropSpaces(xs: seq<string>): (r: seq<string>)
    ensures |r| <= |xs|
    ensures forall x :: x in r <==> x in xs && x != " "
    ensures multiset(r) == multiset(xs)[" " := 0]
  {
    if xs == [] then []
    else
      assert xs == [xs[0]] + xs[1..];
      if xs[0] == " " then DropSpaces(xs[1..])
      else [xs[0]] + DropSpaces(xs[1..])
  }

  /** The comprehension keeps the order of the pieces: it filters a concatenation piecewise. */
  lemma {:induction false} DropSpacesAppend(xs: seq<string>, ys: seq<string>)
    decreases |xs|
    ensures DropSpaces(xs + ys) == DropSpaces(xs) + DropSpaces(ys)
  {
    if xs != [] {
      assert (xs + ys)[0] == xs[0] && (xs + ys)[1..] == xs[1..] + ys;
      DropSpacesAppend(xs[1..], ys);
    } else {
      assert xs + ys == ys;
    }
  }

  /**
   * The serial numbers of one note, `note.split(',')[1:]` without the pieces
   * equal to one space: every comma piece after the first (the first is the
   * text before the first comma), as often as it occurs.
   */
  function Serials(note: string): (r: seq<string>)
    ensures forall x :: x in r <==> x in Split(note, ",")[1..] && x != " "
    ensures multiset(r) == multiset(Split(note, ",")[1..])[" " := 0]
    ensures forall x :: x in r ==> x != " " && !Contains(x, ",")
    ensures |r| < |Split(note, ",")|
    ensures !Contains(note, ",") ==> r == []
    ensures r == DropSpaces(Split(note, ",")[1..])
  {
    var pieces := Split(note, ",");
    assert !Contains(note, ",") ==> pieces == [note];
    assert forall x :: x in pieces[1..] ==> x in pieces;
    DropSpaces(pieces[1..])
  }

  /** The note mentions `key` case-insensitively: `key in note.lower()`. */
  predicate Mentions(note: string, key: string) {
    Contains(Lower(note), key)
  }

  /** Note `i` mentions `key` and no later note does. */
  predicate LastMentionAt(notes: seq<string>, key: string, i: int)
  {
    0 <= i < |notes| && Mentions(notes[i], key) && forall j :: i < j < |notes| ==> !Mentions(notes[j], key)
  }

  /** The last note whose lower-cased form contains `key`, if any. */
  function LastMatching(notes: seq<string>, key: string): Option<string>
    decreases |notes|
  {
    if notes == [] then None
    else if Mentions(notes[|notes| - 1], key) then Some(notes[|notes| - 1])
    else LastMatching(notes[..|notes| - 1], key)
  }

  /** A note is picked exactly when some note mentions `key`. */
  lemma {:induction false} LastMatchingFound(notes: seq<string>, key: string)
    decreases |notes|
    ensures LastMatching(notes, key).Some? <==> exists i :: 0 <= i < |notes| && Mentions(notes[i], key)
  {
    if notes != [] && !Mentions(notes[|notes| - 1], key) {
      var init := notes[..|notes| - 1];
      LastMatchingFound(init, key);
      if LastMatching(init, key).Some? {
        var i :| 0 <= i < |init| && Mentions(init[i], key);
        assert init[i] == notes[i];
      } else {
        forall i | 0 <= i < |notes| ensures !Mentions(notes[i], key) {
          if i < |init| {
            assert init[i] == notes[i];
          }
        }
      }
    }
  }

  /** The note picked is the last one that mentions `key`. */
  lemma {:induction false} LastMatchingIsLast(notes: seq<string>, key: string)
    decreases |notes|
    ensures LastMatching(notes, key).Some? ==> exists i :: LastMentionAt(notes, key, i) && notes[i] == LastMatching(notes, key).value
  {
    if notes != [] {
      var last := |notes| - 1;
      if Mentions(notes[last], key) {
        assert LastMentionAt(notes, key, last);
      } else if LastMatching(notes, key).Some? {
        var init := notes[..last];
        LastMatchingIsLast(init, key);
        var i :| LastMentionAt(init, key, i) && init[i] == LastMatching(init, key).value;
        assert init[i] == notes[i];
        forall j | i < j < |notes| ensures !Mentions(notes[j], key) {
          if j < last {
            assert init[j] == notes[j];
          }
        }
        assert LastMentionAt(notes, key, i);
      }
    }
  }

  /** Appending one note: it wins if it mentions `key`, otherwise the earlier answer stands. */
  lemma LastMatchingSnoc(notes: seq<string>, note: string, key: string)
    ensures LastMatching(notes + [note], key) == if Mentions(note, key) then Some(note) else LastMatching(notes, key)
  {
    var all := notes + [note];
    assert all[|all| - 1] == note;
    assert all[..|all| - 1] == notes;
  }

  /** The serials of the last note mentioning `key`; None when no note does. */
  function SerialsFor(notes: seq<string>, key: string): Option<seq<string>>
  {
    match LastMatching(notes, key)
    case None => None
    case Some(note) => Some(Serials(note))
  }

  /**
   * `Equipment(data)` as a value. Key lookups happen in source order;
   * `name.lower()` fails on a non-string name after the notes are split.
   */
  function EquipmentOf(data: Json): (r: Result<Equipment, Error>)
    ensures r.Ok? <==> data.JObj? && "name" in data.fields && "equipment_type" in data.fields
                       && "notes" in data.fields && data.fields["notes"].JStr? && data.fields["name"].JStr?
    ensures r.Ok? ==> && r.value.raw == data && JStr(r.value.name) == data.fields["name"]
                      && r.value.equipmentType == data.fields["equipment_type"]
                      && |r.value.notes| >= 1 && Join(r.value.notes, LineBreak) == data.fields["notes"].s
    ensures r.Ok? ==> forall k :: 0 <= k < |r.value.notes| ==> !Contains(r.value.notes[k], LineBreak)
    ensures r.Ok? ==> && r.value.scoop == ScoopOf(r.value.name)
                      && r.value.imetSn == SerialsFor(r.value.notes, "imet")
                      && r.value.hytSn == SerialsFor(r.value.notes, "hyt")
    ensures r.Ok? ==> (r.value.scoop.Some? <==> Contains(Lower(r.value.name), "scoop"))
    ensures r.Ok? ==> (r.value.imetSn.Some? <==> exists i :: 0 <= i < |r.value.notes| && Mentions(r.value.notes[i], "imet"))
    ensures r.Ok? ==> (r.value.hytSn.Some? <==> exists i :: 0 <= i < |r.value.notes| && Mentions(r.value.notes[i], "hyt"))
  {
    var name :- Index(data, "name");
    var kind :- Index(data, "equipment_type");
    var notes :- SplitField(data, "notes", LineBreak);
    if !name.JStr? then Err(AttributeError("lower"))
    else
      LastMatchingFound(notes, "imet");
      LastMatchingFound(notes, "hyt");
      Ok(Equipment(data, name.s, kind, notes, ScoopOf(name.s), SerialsFor(notes, "imet"), SerialsFor(notes, "hyt")))
  }

  /** One more note: it replaces the serials if it mentions `key`. */
  lemma SerialsForStep(notes: seq<string>, i: nat, key: string)
    requires i < |notes|
    ensures SerialsFor(notes[..i + 1], key)
            == if Mentions(notes[i], key) then Some(Serials(notes[i])) else SerialsFor(notes[..i], key)
  {
    assert notes[..i + 1] == notes[..i] + [notes[i]];
    LastMatchingSnoc(notes[..i], notes[i], key);
  }

  /** The note pass of `Equipment.__init__`: each matching note overwrites the serials found so far. */
  method ScanNotes(notes: seq<string>) returns (imet: Option<seq<string>>, hyt: Option<seq<string>>)
    ensures imet == SerialsFor(notes, "imet") && hyt == SerialsFor(notes, "hyt")
  {
    imet, hyt := None, None;
    for i := 0 to |notes|
      invariant imet == SerialsFor(notes[..i], "imet")
      invariant hyt == SerialsFor(notes[..i], "hyt")
    {
      var note := notes[i];
      SerialsForStep(notes, i, "imet");
      SerialsForStep(notes, i, "hyt");
      if Mentions(note, "imet") {
        imet := Some(Serials(note));
      }
      if Mentions(note, "hyt") {
        hyt := Some(Serials(note));
      }
    }
    assert notes[..|notes|] == notes;
  }

  /**
   * `Equipment.__init__` as written: the key lookups, the scoop test, then
   * the pass over the notes.
   */
  method NewEquipment(data: Json) returns (r: Result<Equipment, Error>)
    ensures r == EquipmentOf(data)
  {
    var name :- Index(data, "name");
    var kind :- Index(data, "equipment_type");
    var notes :- SplitField(data, "notes", LineBreak);
    if !name.JStr? {
      return Err(AttributeError("lower"));
    }
    var scoop := None;
    if Contains(Lower(name.s), "scoop") {
      var words := Split(name.s, " ");
      scoop := Some(words[|words| - 1]);
    }
    assert scoop == ScoopOf(name.s);
    var imet, hyt := ScanNotes(notes);
    assert EquipmentOf(data) == Ok(Equipment(data, name.s, kind, notes, ScoopOf(name.s), SerialsFor(notes, "imet"), SerialsFor(notes, "hyt")));
    r := Ok(Equipment(data, name.s, kind, notes, scoop, imet, hyt));
  }

  /** `is_scoop()`: True when `scoop` was set; reading the unset attribute raises. */
  function IsScoop(e: Equipment): (r: Result<bool, Error>)
    ensures r.Ok? <==> e.scoop.Some?
    ensures r.Ok? ==> r.value
    ensures r.Err? ==> r.error == AttributeError("scoop")
  {
    match e.scoop
    case Some(_) => Ok(true)
    case None => Err(AttributeError("scoop"))
  }

  /** One note can set both serial lists, and both then hold the same serials. */
  lemma OneNoteSetsBoth(notes: seq<string>)
    requires |notes| >= 1
    requires Mentions(notes[|notes| - 1], "imet") && Mentions(notes[|notes| - 1], "hyt")
    ensures SerialsFor(notes, "imet") == SerialsFor(notes, "hyt") == Some(Serials(notes[|notes| - 1]))
  {
  }

  /** A later note mentioning `key` replaces what earlier notes gave. */
  lemma {:induction false} LastMatchWins(notes: seq<string>, extra: seq<string>, key: string)
    requires exists i :: 0 <= i < |extra| && Mentions(extra[i], key)
    ensures SerialsFor(notes + extra, key) == SerialsFor(extra, key)
    decreases |extra|
  {
    var init := extra[..|extra| - 1];
    var last := extra[|extra| - 1];
    assert extra == init + [last];
    assert notes + extra == (notes + init) + [last];
    LastMatchingSnoc(notes + init, last, key);
    LastMatchingSnoc(init, last, key);
    if !Mentions(last, key) {
      var i :| 0 <= i < |extra| && Mentions(extra[i], key);
      assert i < |extra| - 1 && init[i] == extra[i];
      LastMatchWins(notes, init, key);
    }
  }
}
