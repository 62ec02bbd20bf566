/**
 * `get_flights`: page `n`'s flights in payload order, each optionally
 * hydrated, followed by the flights from page `n + 1` when `has_more` is set.
 */
module Listing {
  import opened Wrappers
  import opened Json
  import opened Records
  import opened Flights
  import opened Client

  // ---------------------------------------------------------------- running fetches in order

  /**
   * Fetches run one after another, as a Python loop runs them: the results
   * in order, or the first exception; the requests of every fetch that ran.
   */
  function Collect<T>(steps: seq<Fetched<T>>): Fetched<seq<T>>
    decreases |steps|
  {
    if steps == [] then Fetched(Ok([]), [])
    else
      var init := steps[..|steps| - 1];
      var last := steps[|steps| - 1];
      var prev := Collect(init);
      match prev.result
      case Err(_) => prev
      case Ok(done) =>
        match last.result
        case Err(e) => Fetched(Err(e), prev.sent + last.sent)
        case Ok(v) => Fetched(Ok(done + [v]), prev.sent + last.sent)
  }

  /**
   * The run succeeds exactly when every fetch does, and then holds one value
   * per fetch, in order; fetches that send nothing make a run that sends nothing.
   */
  lemma {:induction false} CollectShape<T>(steps: seq<Fetched<T>>)
    decreases |steps|
    ensures var o := Collect(steps);
            && (o.result.Ok? <==> forall i :: 0 <= i < |steps| ==> steps[i].result.Ok?)
            && (o.result.Ok? ==> && |o.result.value| == |steps|
                                 && forall i :: 0 <= i < |steps| ==> steps[i].result == Ok(o.result.value[i]))
            && ((forall i :: 0 <= i < |steps| ==> steps[i].sent == []) ==> o.sent == [])
  {
    if steps != [] {
      var init := steps[..|steps| - 1];
      CollectShape(init);
      assert forall i :: 0 <= i < |init| ==> init[i] == steps[i];
    }
  }

  /** One more fetch after a prefix that succeeded. */
  lemma CollectStep<T>(steps: seq<Fetched<T>>, i: nat)
    requires i < |steps| && Collect(steps[..i]).result.Ok?
    ensures var prev := Collect(steps[..i]);
            Collect(steps[..i + 1]) == match steps[i].result
                                       case Err(e) => Fetched(Err(e), prev.sent + steps[i].sent)
                                       case Ok(v) => Fetched(Ok(prev.result.value + [v]), prev.sent + steps[i].sent)
  {
    assert steps[..i + 1][..i] == steps[..i];
    assert steps[..i + 1][i] == steps[i];
  }

  /** Once a prefix fails, the whole run fails the same way and sends nothing more. */
  lemma {:induction false} CollectFailureSticks<T>(steps: seq<Fetched<T>>, i: nat)
    requires i <= |steps| && Collect(steps[..i]).result.Err?
    decreases |steps| - i
    ensures Collect(steps) == Collect(steps[..i])
  {
    if i < |steps| {
      var init := steps[..|steps| - 1];
      assert init[..i] == steps[..i];
      CollectFailureSticks(init, i);
    } else {
      assert steps[..i] == steps;
    }
  }

  // ---------------------------------------------------------------- paging, for any turn

  /** The outcomes of one turn per record, in payload order. */
  function Turns<T>(turn: Json -> Fetched<T>, items: seq<Json>): seq<Fetched<T>>
  {
    seq(|items|, i requires 0 <= i < |items| => turn(items[i]))
  }

  /** `data['data']` of a page body, as the `for` loop iterates it. */
  function PageItems(body: Json): Result<seq<Json>, Error>
  {
    var d :- Index(body, "data");
    Elements(d)
  }

  /** `if data['has_more']:` on a page body. */
  function PageMore(body: Json): Result<bool, Error>
  {
    var more :- Index(body, "has_more");
    Ok(Truthy(more))
  }

  /**
   * One page of the listing: request page `n`, run a turn on each record of
   * its `data`, then read `has_more`. The result is the page's values and
   * the flag.
   */
  function OnePage<T>(pages: seq<Json>, turn: Json -> Fetched<T>, n: int): (o: Fetched<(seq<T>, bool)>)
  {
    if !(1 <= n <= |pages|) then Fetched(Err(NoSuchPage(n)), [ListFlights(n)])
    else
      match PageItems(pages[n - 1])
      case Err(e) => Fetched(Err(e), [ListFlights(n)])
      case Ok(items) =>
        var here := Collect(Turns(turn, items));
        var sent := [ListFlights(n)] + here.sent;
        match here.result
        case Err(e) => Fetched(Err(e), sent)
        case Ok(done) =>
          match PageMore(pages[n - 1])
          case Err(e) => Fetched(Err(e), sent)
          case Ok(more) => Fetched(Ok((done, more)), sent)
  }

  /** What a page turn yields: the page request first, then the requests of its loop; the error cases of the page itself. */
  lemma OnePageShape<T>(pages: seq<Json>, turn: Json -> Fetched<T>, n: int)
    ensures var o := OnePage(pages, turn, n);
            && |o.sent| >= 1 && o.sent[0] == ListFlights(n)
            && (!(1 <= n <= |pages|) ==> o == Fetched(Err(NoSuchPage(n)), [ListFlights(n)]))
            && (1 <= n <= |pages| && PageItems(pages[n - 1]).Err? ==> o == Fetched(Err(PageItems(pages[n - 1]).error), [ListFlights(n)]))
            && (o.result.Ok? ==> && 1 <= n <= |pages| && PageItems(pages[n - 1]).Ok?
                                 && PageMore(pages[n - 1]) == Ok(o.result.value.1)
                                 && Collect(Turns(turn, PageItems(pages[n - 1]).value)) == Fetched(Ok(o.result.value.0), o.sent[1..]))
  {
  }

  /**
   * The paging loop of `get_flights` from page `n`: one page, then the
   * listing from page `n + 1` while `has_more` is true.
   */
  function Paged<T>(pages: seq<Json>, turn: Json -> Fetched<T>, n: int): (o: Fetched<seq<T>>)
    decreases |pages| - n
    ensures |o.sent| >= 1 && o.sent[0] == ListFlights(n)
  {
    var page := OnePage(pages, turn, n);
    match page.result
    case Err(e) => Fetched(Err(e), page.sent)
    case Ok((done, more)) =>
      if !more then Fetched(Ok(done), page.sent)
      else
        var rest := Paged(pages, turn, n + 1);
        match rest.result
        case Err(e) => Fetched(Err(e), page.sent + rest.sent)
        case Ok(later) => Fetched(Ok(done + later), page.sent + rest.sent)
  }

  /** The listing from a page whose `has_more` is true: that page's values, then the rest. */
  lemma PagedNext<T>(pages: seq<Json>, turn: Json -> Fetched<T>, n: int)
    requires OnePage(pages, turn, n).result.Ok? && OnePage(pages, turn, n).result.value.1
    ensures var page := OnePage(pages, turn, n);
            var rest := Paged(pages, turn, n + 1);
            Paged(pages, turn, n) == match rest.result
                                     case Err(e) => Fetched(Err(e), page.sent + rest.sent)
                                     case Ok(later) => Fetched(Ok(page.result.value.0 + later), page.sent + rest.sent)
  {
  }

  /** The listing from a page that fails or whose `has_more` is false: that page alone. */
  lemma PagedLast<T>(pages: seq<Json>, turn: Json -> Fetched<T>, n: int)
    requires !(OnePage(pages, turn, n).result.Ok? && OnePage(pages, turn, n).result.value.1)
    ensures var page := OnePage(pages, turn, n);
            Paged(pages, turn, n) == match page.result
                                     case Err(e) => Fetched(Err(e), page.sent)
                                     case Ok(v) => Fetched(Ok(v.0), page.sent)
  {
  }

  /** A listing that succeeds: page `n`'s turns all succeed, then either `has_more` is false or the rest succeeds too. */
  lemma PagedOk<T>(pages: seq<Json>, turn: Json -> Fetched<T>, n: int)
    requires Paged(pages, turn, n).result.Ok?
    ensures 1 <= n <= |pages| && PageItems(pages[n - 1]).Ok? && PageMore(pages[n - 1]).Ok?
    ensures var here := Collect(Turns(turn, PageItems(pages[n - 1]).value));
            var o := Paged(pages, turn, n);
            && here.result.Ok?
            && (!PageMore(pages[n - 1]).value ==> o == Fetched(Ok(here.result.value), [ListFlights(n)] + here.sent))
            && (PageMore(pages[n - 1]).value ==>
                  && Paged(pages, turn, n + 1).result.Ok?
                  && o == Fetched(Ok(here.result.value + Paged(pages, turn, n + 1).result.value),
                                  [ListFlights(n)] + here.sent + Paged(pages, turn, n + 1).sent))
  {
    var page := OnePage(pages, turn, n);
    assert page.sent == [ListFlights(n)] + page.sent[1..];
  }

  /** The records of a page body; none when its `data` cannot be iterated. */
  function PageRecords(body: Json): seq<Json>
  {
    match PageItems(body)
    case Ok(items) => items
    case Err(_) => []
  }

  /** The records of consecutive page bodies, concatenated. */
  function Flatten(pages: seq<Json>): seq<Json>
  {
    if pages == [] then [] else PageRecords(pages[0]) + Flatten(pages[1..])
  }

  /** Page `p` exists, its `data` can be iterated and its `has_more` is true. */
  predicate HasMore(pages: seq<Json>, p: int)
  {
    1 <= p <= |pages| && PageItems(pages[p - 1]).Ok? && PageMore(pages[p - 1]) == Ok(true)
  }

  /** Page `k` is the first page from `n` on whose `has_more` is false, and its `data` can be iterated. */
  predicate Stops(pages: seq<Json>, n: int, k: int)
  {
    && 1 <= n <= k <= |pages|
    && PageItems(pages[k - 1]).Ok? && PageMore(pages[k - 1]) == Ok(false)
    && forall j :: n <= j < k ==> HasMore(pages, j)
  }

  /** The list requests made when paging runs from page `n` to page `k`. */
  function PageRequests(n: int, k: int): (r: seq<Request>)
    requires n <= k
    ensures |r| == k - n + 1
    ensures forall i :: 0 <= i < |r| ==> r[i] == ListFlights(n + i)
  {
    seq(k - n + 1, i => ListFlights(n + i))
  }

  lemma StopsNext(pages: seq<Json>, n: int, k: int)
    requires Stops(pages, n, k) && n < k
    ensures HasMore(pages, n) && Stops(pages, n + 1, k)
  {
    assert HasMore(pages, n);
  }

  lemma PageRequestsCons(n: int, k: int)
    requires n < k
    ensures PageRequests(n, k) == [ListFlights(n)] + PageRequests(n + 1, k)
  {
  }

  /** Running the turns of two lists one after the other. */
  lemma {:induction false} CollectAppend<T>(a: seq<Fetched<T>>, b: seq<Fetched<T>>)
    decreases |b|
    ensures Collect(a + b).result == match Collect(a).result
                                     case Err(e) => Err(e)
                                     case Ok(u) => match Collect(b).result
                                                   case Err(e) => Err(e)
                                                   case Ok(v) => Ok(u + v)
  {
    if b == [] {
      assert a + b == a;
      assert Collect(a).result.Ok? ==> Collect(a).result.value + [] == Collect(a).result.value;
    } else {
      var init, last := b[..|b| - 1], b[|b| - 1];
      CollectAppend(a, init);
      assert (a + b)[..|a + b| - 1] == a + init;
      assert (a + b)[|a + b| - 1] == last;
      match Collect(a).result
      case Err(_) =>
      case Ok(u) =>
        match Collect(init).result
        case Err(_) =>
        case Ok(v) =>
          match last.result
          case Err(_) =>
          case Ok(w) =>
            assert Collect(a + b).result.value == (u + v) + [w] == u + (v + [w]);
    }
  }

  lemma TurnsAppend<T>(turn: Json -> Fetched<T>, xs: seq<Json>, ys: seq<Json>)
    ensures Turns(turn, xs + ys) == Turns(turn, xs) + Turns(turn, ys)
  {
    var l, r := Turns(turn, xs + ys), Turns(turn, xs) + Turns(turn, ys);
    forall i | 0 <= i < |l| ensures l[i] == r[i] {
      if i >= |xs| {
        assert (xs + ys)[i] == ys[i - |xs|];
      }
    }
  }

  /**
   * Paging from `n` to the first page `k` without `has_more` gives the same
   * outcome as one loop over the records of pages `n`..`k` concatenated.
   */
  lemma {:induction false} PagedIsCollect<T>(pages: seq<Json>, turn: Json -> Fetched<T>, n: int, k: int)
    requires Stops(pages, n, k)
    decreases k - n
    ensures Paged(pages, turn, n).result == Collect(Turns(turn, Flatten(pages[n - 1..k]))).result
  {
    var items := PageRecords(pages[n - 1]);
    assert pages[n - 1..k][0] == pages[n - 1];
    assert pages[n - 1..k][1..] == pages[n..k];
    if n == k {
      assert pages[n..k] == [];
      assert Flatten(pages[n - 1..k]) == items + [] == items;
    } else {
      StopsNext(pages, n, k);
      PagedIsCollect(pages, turn, n + 1, k);
      TurnsAppend(turn, items, Flatten(pages[n..k]));
      CollectAppend(Turns(turn, items), Turns(turn, Flatten(pages[n..k])));
    }
  }

  /** When no turn sends a request, a listing that succeeds has sent exactly the page requests. */
  lemma {:induction false} PagedRequests<T>(pages: seq<Json>, turn: Json -> Fetched<T>, n: int, k: int)
    requires Stops(pages, n, k)
    requires forall x :: turn(x).sent == []
    decreases k - n
    ensures Paged(pages, turn, n).result.Ok? ==> Paged(pages, turn, n).sent == PageRequests(n, k)
  {
    if Paged(pages, turn, n).result.Ok? {
      var page := OnePage(pages, turn, n);
      assert page.result.Ok?;
      var steps := Turns(turn, PageItems(pages[n - 1]).value);
      CollectShape(steps);
      assert forall i :: 0 <= i < |steps| ==> steps[i].sent == [];
      assert page.sent[1..] == [];
      assert page.sent == [ListFlights(n)];
      if n < k {
        StopsNext(pages, n, k);
        PagedRequests(pages, turn, n + 1, k);
        PageRequestsCons(n, k);
      } else {
        assert !PageMore(pages[n - 1]).value;
      }
    }
  }

  /** Every element satisfies `p`. */
  predicate All<T>(xs: seq<T>, p: T -> bool)
  {
    forall i :: 0 <= i < |xs| ==> p(xs[i])
  }

  lemma AllAppend<T>(xs: seq<T>, ys: seq<T>, p: T -> bool)
    requires All(xs, p) && All(ys, p)
    ensures All(xs + ys, p)
  {
    forall i | 0 <= i < |xs + ys| ensures p((xs + ys)[i]) {
      if i >= |xs| {
        assert (xs + ys)[i] == ys[i - |xs|];
      }
    }
  }

  /** The turns of one page keep a property their values all have. */
  lemma TurnsAll<T>(turn: Json -> Fetched<T>, items: seq<Json>, p: T -> bool)
    requires forall x :: turn(x).result.Ok? ==> p(turn(x).result.value)
    ensures Collect(Turns(turn, items)).result.Ok? ==> All(Collect(Turns(turn, items)).result.value, p)
  {
    var steps := Turns(turn, items);
    CollectShape(steps);
    if Collect(steps).result.Ok? {
      var here := Collect(steps).result.value;
      forall i | 0 <= i < |here| ensures p(here[i]) {
        assert steps[i] == turn(items[i]);
      }
    }
  }

  /** A property every successful turn's value has holds of every value the listing returns. */
  lemma {:induction false} PagedAll<T>(pages: seq<Json>, turn: Json -> Fetched<T>, n: int, p: T -> bool)
    requires forall x :: turn(x).result.Ok? ==> p(turn(x).result.value)
    decreases |pages| - n
    ensures Paged(pages, turn, n).result.Ok? ==> All(Paged(pages, turn, n).result.value, p)
  {
    if Paged(pages, turn, n).result.Ok? {
      PagedOk(pages, turn, n);
      var items := PageItems(pages[n - 1]).value;
      TurnsAll(turn, items, p);
      if PageMore(pages[n - 1]).value {
        PagedAll(pages, turn, n + 1, p);
        AllAppend(Collect(Turns(turn, items)).result.value, Paged(pages, turn, n + 1).result.value, p);
      }
    }
  }

  /**
   * A service that reports `has_more` on every page it has keeps the listing
   * asking for the next page; in the model the first page it lacks ends the
   * listing with an error instead of a result.
   */
  lemma {:induction false} PagedNeverStopping<T>(pages: seq<Json>, turn: Json -> Fetched<T>, n: int)
    requires 1 <= n
    requires forall j :: n <= j <= |pages| ==> HasMore(pages, j)
    decreases |pages| - n
    ensures Paged(pages, turn, n).result.Err?
  {
    if n <= |pages| {
      assert HasMore(pages, n);
      PagedNeverStopping(pages, turn, n + 1);
    }
  }

  // ---------------------------------------------------------------- the flight listing as a value

  /** One turn of the page loop: construct the flight and, when asked, hydrate it into the misspelt attribute. */
  function OneFlight(s: Server, data: Json, recursive: bool, strptime: string -> Option<DateTime>): Fetched<FlightView>
  {
    match DecodeFlight(data, strptime)
    case Err(e) => Fetched(Err(e), [])
    case Ok(v) =>
      if !recursive then Fetched(Ok(v), [])
      else
        var h := Hydration(s, v.record, v.equipment.ids);
        match h.result
        case Err(e) => Fetched(Err(e), h.sent)
        case Ok(rel) => Fetched(Ok(Attach(v, rel, true)), h.sent)
  }

  /**
   * A flight as hydration leaves it: `equipment` is still the payload's guid
   * list, `equiement` holds the equipment fetched for those guids, `drone`
   * and `place` hold what the service returns for the flight's guids, and
   * no project is set.
   */
  predicate Hydrated(s: Server, v: FlightView)
  {
    && v.record.raw.JObj? && "equipments" in v.record.raw.fields
    && v.equipment == Ids(v.record.raw.fields["equipments"])
    && Elements(v.equipment.ids).Ok? && v.equiement.Some?
    && GetEquipmentList(s, Elements(v.equipment.ids).value).result == Ok(v.equiement.value)
    && GetDrone(s, v.record.droneGuid).result == Ok(v.drone)
    && v.place.Some? && GetPlace(s, v.record.placeGuid).result == Ok(v.place.value)
    && v.project.None?
  }

  /**
   * Without hydration a listed flight is just the constructed one and costs
   * no request; with it, the flight is the constructed one, hydrated.
   */
  lemma OneFlightShape(s: Server, data: Json, recursive: bool, strptime: string -> Option<DateTime>)
    ensures var o := OneFlight(s, data, recursive, strptime);
            && (o.result.Ok? ==> DecodeFlight(data, strptime).Ok? && o.result.value.record == DecodeFlight(data, strptime).value.record)
            && (!recursive ==> o == Fetched(DecodeFlight(data, strptime), []))
            && (recursive ==> (o.result.Ok? <==> && DecodeFlight(data, strptime).Ok?
                                                 && var v := DecodeFlight(data, strptime).value;
                                                    Hydration(s, v.record, v.equipment.ids).result.Ok?))
            && (recursive && o.result.Ok? ==> o.result.value.equipment == DecodeFlight(data, strptime).value.equipment
                                              && Hydrated(s, o.result.value))
  {
  }

  /** The page loop's turn. */
  function Turn(s: Server, recursive: bool, strptime: string -> Option<DateTime>): Json -> Fetched<FlightView>
  {
    data => OneFlight(s, data, recursive, strptime)
  }

  /** The loop over one page's records, as the value it builds. */
  function PageFlights(s: Server, items: seq<Json>, recursive: bool, strptime: string -> Option<DateTime>): Fetched<seq<FlightView>>
  {
    Collect(Turns(Turn(s, recursive, strptime), items))
  }

  /** One more turn of the page loop after a prefix that succeeded. */
  lemma PageStep(s: Server, items: seq<Json>, i: nat, recursive: bool, strptime: string -> Option<DateTime>)
    requires i < |items| && PageFlights(s, items[..i], recursive, strptime).result.Ok?
    ensures var prev := PageFlights(s, items[..i], recursive, strptime);
            var o := Turn(s, recursive, strptime)(items[i]);
            PageFlights(s, items[..i + 1], recursive, strptime)
              == match o.result
                 case Err(e) => Fetched(Err(e), prev.sent + o.sent)
                 case Ok(v) => Fetched(Ok(prev.result.value + [v]), prev.sent + o.sent)
  {
    var turn := Turn(s, recursive, strptime);
    var steps := Turns(turn, items);
    assert Turns(turn, items[..i]) == steps[..i];
    assert Turns(turn, items[..i + 1]) == steps[..i + 1];
    CollectStep(steps, i);
  }

  /** Once a prefix of the page loop fails, the whole loop fails the same way. */
  lemma PageFailureSticks(s: Server, items: seq<Json>, i: nat, recursive: bool, strptime: string -> Option<DateTime>)
    requires i <= |items| && PageFlights(s, items[..i], recursive, strptime).result.Err?
    ensures PageFlights(s, items, recursive, strptime) == PageFlights(s, items[..i], recursive, strptime)
  {
    var steps := Turns(Turn(s, recursive, strptime), items);
    assert Turns(Turn(s, recursive, strptime), items[..i]) == steps[..i];
    CollectFailureSticks(steps, i);
  }

  /** `get_flights(n, recursive)` as a value. */
  function FlightsFrom(s: Server, n: int, recursive: bool, strptime: string -> Option<DateTime>): Fetched<seq<FlightView>>
  {
    Paged(s.pages, Turn(s, recursive, strptime), n)
  }

  /** The flights of one page: one per record, in order. */
  lemma PageShape(s: Server, items: seq<Json>, recursive: bool, strptime: string -> Option<DateTime>)
    ensures var o := PageFlights(s, items, recursive, strptime);
            && (o.result.Ok? ==> && |o.result.value| == |items|
                                 && forall i :: 0 <= i < |items| ==> OneFlight(s, items[i], recursive, strptime).result == Ok(o.result.value[i]))
            && (o.result.Ok? <==> forall i :: 0 <= i < |items| ==> OneFlight(s, items[i], recursive, strptime).result.Ok?)
            && (!recursive ==> o.sent == [] && (o.result.Ok? <==> forall i :: 0 <= i < |items| ==> DecodeFlight(items[i], strptime).Ok?))
  {
    var steps := Turns(Turn(s, recursive, strptime), items);
    CollectShape(steps);
    if !recursive {
      forall i | 0 <= i < |items|
        ensures steps[i].sent == [] && (steps[i].result.Ok? <==> DecodeFlight(items[i], strptime).Ok?)
      {
        OneFlightShape(s, items[i], recursive, strptime);
      }
    }
  }

  /**
   * The listing from page `n` is one page loop over the records of pages
   * `n`..`k`, `k` the first page without `has_more`: one flight per record,
   * in order, hydrated or not. Without hydration a listing that succeeds has
   * sent exactly the page requests `n`..`k`.
   */
  lemma ListingIsConcatenation(s: Server, n: int, k: int, recursive: bool, strptime: string -> Option<DateTime>)
    requires Stops(s.pages, n, k)
    ensures FlightsFrom(s, n, recursive, strptime).result == PageFlights(s, Flatten(s.pages[n - 1..k]), recursive, strptime).result
    ensures !recursive && FlightsFrom(s, n, recursive, strptime).result.Ok? ==> FlightsFrom(s, n, recursive, strptime).sent == PageRequests(n, k)
  {
    var turn := Turn(s, recursive, strptime);
    PagedIsCollect(s.pages, turn, n, k);
    if !recursive {
      forall x ensures turn(x).sent == [] {
        OneFlightShape(s, x, recursive, strptime);
      }
      PagedRequests(s.pages, turn, n, k);
    }
  }

  /** A service whose every page says `has_more` never yields a listing. */
  lemma NeverStopping(s: Server, n: int, recursive: bool, strptime: string -> Option<DateTime>)
    requires 1 <= n
    requires forall j :: n <= j <= |s.pages| ==> HasMore(s.pages, j)
    ensures FlightsFrom(s, n, recursive, strptime).result.Err?
  {
    PagedNeverStopping(s.pages, Turn(s, recursive, strptime), n);
  }

  /** With hydration every listed flight is hydrated: the fetched equipment lands in `equiement`, `equipment` stays the guid list. */
  lemma ListingKeepsEquipmentIds(s: Server, n: int, strptime: string -> Option<DateTime>)
    ensures var o := FlightsFrom(s, n, true, strptime);
            o.result.Ok? ==> All(o.result.value, v => Hydrated(s, v))
  {
    var turn := Turn(s, true, strptime);
    forall x | turn(x).result.Ok? ensures Hydrated(s, turn(x).result.value) {
      OneFlightShape(s, x, true, strptime);
    }
    PagedAll(s.pages, turn, n, v => Hydrated(s, v));
  }

  // ---------------------------------------------------------------- the methods

  /** No object occurs twice. */
  predicate Distinct<T(==)>(xs: seq<T>)
  {
    forall k, m :: 0 <= k < m < |xs| ==> xs[k] != xs[m]
  }

  lemma DistinctSnoc<T>(xs: seq<T>, x: T)
    requires Distinct(xs) && x !in xs
    ensures Distinct(xs + [x])
  {
  }

  /** Two lists without repeats and without common objects concatenate to a list without repeats. */
  lemma DistinctAppend<T>(xs: seq<T>, ys: seq<T>)
    requires Distinct(xs) && Distinct(ys)
    requires forall k :: 0 <= k < |xs| ==> xs[k] !in ys
    ensures Distinct(xs + ys)
  {
    forall k, m | 0 <= k < m < |xs + ys| ensures (xs + ys)[k] != (xs + ys)[m] {
      if m >= |xs| && k < |xs| {
        assert (xs + ys)[m] == ys[m - |xs|];
      } else if k >= |xs| {
        assert (xs + ys)[k] == ys[k - |xs|] && (xs + ys)[m] == ys[m - |xs|];
      }
    }
  }

  /** One turn of the loop in `get_flights` on objects: construct, then hydrate into `equiement`. */
  method ListedFlight(s: Server, data: Json, recursive: bool, strptime: string -> Option<DateTime>)
    returns (r: Result<Flight, Error>, sent: seq<Request>)
    ensures var o := Turn(s, recursive, strptime)(data);
            && sent == o.sent && (r.Ok? <==> o.result.Ok?)
            && (r.Err? ==> r.error == o.result.error)
            && (r.Ok? ==> fresh(r.value) && r.value.View() == o.result.value)
  {
    sent := [];
    var made := NewFlight(data, strptime);
    if made.Err? {
      return Err(made.error), sent;
    }
    var flight := made.value;
    if recursive {
      var items, more := Hydrate(flight, s);
      sent := more;
      if items.Err? {
        return Err(items.error), sent;
      }
      flight.equiement := Some(items.value);
    }
    r := Ok(flight);
  }

  /** The `for flight_data in data['data']` loop: the page's flights, appended in payload order. */
  method PageLoop(s: Server, items: seq<Json>, recursive: bool, strptime: string -> Option<DateTime>)
    returns (r: Result<seq<Flight>, Error>, sent: seq<Request>)
    ensures var o := PageFlights(s, items, recursive, strptime);
            && sent == o.sent && (r.Ok? <==> o.result.Ok?)
            && (r.Err? ==> r.error == o.result.error)
            && (r.Ok? ==> && |r.value| == |o.result.value|
                          && forall i :: 0 <= i < |r.value| ==> r.value[i].View() == o.result.value[i])
    ensures r.Ok? ==> Distinct(r.value) && forall f :: f in r.value ==> fresh(f)
  {
    ghost var done: seq<FlightView> := [];
    var flights: seq<Flight> := [];
    sent := [];
    for i := 0 to |items|
      invariant PageFlights(s, items[..i], recursive, strptime) == Fetched(Ok(done), sent)
      invariant |flights| == i
      invariant |done| == i
      invariant forall k :: 0 <= k < i ==> flights[k].View() == done[k]
      invariant forall f :: f in flights ==> fresh(f)
      invariant Distinct(flights)
    {
      PageStep(s, items, i, recursive, strptime);
      var flight, more := ListedFlight(s, items[i], recursive, strptime);
      sent := sent + more;
      if flight.Err? {
        PageFailureSticks(s, items, i + 1, recursive, strptime);
        return Err(flight.error), sent;
      }
      DistinctSnoc(flights, flight.value);
      ShowsAppend(flights, [flight.value], done, [flight.value.View()]);
      flights := flights + [flight.value];
      done := done + [flight.value.View()];
    }
    assert items[..|items|] == items;
    r := Ok(flights);
  }

  /** One page of `get_flights` on objects: the page request, the loop over its `data`, and its `has_more`. */
  method ListPage(s: Server, pageNum: int, recursive: bool, strptime: string -> Option<DateTime>)
    returns (r: Result<(seq<Flight>, bool), Error>, sent: seq<Request>)
    ensures var o := OnePage(s.pages, Turn(s, recursive, strptime), pageNum);
            && sent == o.sent && (r.Ok? <==> o.result.Ok?)
            && (r.Err? ==> r.error == o.result.error)
            && (r.Ok? ==> && r.value.1 == o.result.value.1 && |r.value.0| == |o.result.value.0|
                          && forall i :: 0 <= i < |r.value.0| ==> r.value.0[i].View() == o.result.value.0[i])
    ensures r.Ok? ==> Distinct(r.value.0) && forall f :: f in r.value.0 ==> fresh(f)
  {
    sent := [ListFlights(pageNum)];
    if !(1 <= pageNum <= |s.pages|) {
      return Err(NoSuchPage(pageNum)), sent;
    }
    var body := s.pages[pageNum - 1];
    var items := PageItems(body);
    if items.Err? {
      return Err(items.error), sent;
    }
    var flights, more := PageLoop(s, items.value, recursive, strptime);
    sent := sent + more;
    if flights.Err? {
      return Err(flights.error), sent;
    }
    var hasMore := PageMore(body);
    if hasMore.Err? {
      return Err(hasMore.error), sent;
    }
    r := Ok((flights.value, hasMore.value));
  }

  /** `get_flights(page_num, recursive)` on objects: this page's flights, then the next page's when `has_more` is set. */
  method GetFlights(s: Server, pageNum: int, recursive: bool, strptime: string -> Option<DateTime>)
    returns (r: Result<seq<Flight>, Error>, sent: seq<Request>)
    decreases |s.pages| - pageNum, 1
    ensures var o := FlightsFrom(s, pageNum, recursive, strptime);
            && sent == o.sent && (r.Ok? <==> o.result.Ok?)
            && (r.Err? ==> r.error == o.result.error)
            && (r.Ok? ==> && |r.value| == |o.result.value|
                          && forall i :: 0 <= i < |r.value| ==> r.value[i].View() == o.result.value[i])
    ensures r.Ok? ==> Distinct(r.value) && forall f :: f in r.value ==> fresh(f)
  {
    ghost var turn := Turn(s, recursive, strptime);
    var page, first := ListPage(s, pageNum, recursive, strptime);
    if page.Err? || !page.value.1 {
      PagedLast(s.pages, turn, pageNum);
      r := if page.Err? then Err(page.error) else Ok(page.value.0);
      return r, first;
    }
    var more;
    r, more := MorePages(s, pageNum, recursive, strptime, page.value.0);
    sent := first + more;
  }

  /**
   * The `has_more` branch of `get_flights`: the flights already built from page `pageNum`,
   * followed by those from page `pageNum + 1` on. `sent` holds the later pages' requests only.
   */
  method MorePages(s: Server, pageNum: int, recursive: bool, strptime: string -> Option<DateTime>, flights: seq<Flight>)
    returns (r: Result<seq<Flight>, Error>, sent: seq<Request>)
    requires var page := OnePage(s.pages, Turn(s, recursive, strptime), pageNum);
             && page.result.Ok? && page.result.value.1 && |flights| == |page.result.value.0|
             && forall i :: 0 <= i < |flights| ==> flights[i].View() == page.result.value.0[i]
    requires Distinct(flights)
    decreases |s.pages| - pageNum, 0
    ensures var o := FlightsFrom(s, pageNum, recursive, strptime);
            && OnePage(s.pages, Turn(s, recursive, strptime), pageNum).sent + sent == o.sent
            && (r.Ok? <==> o.result.Ok?)
            && (r.Err? ==> r.error == o.result.error)
            && (r.Ok? ==> && |r.value| == |o.result.value|
                          && forall i :: 0 <= i < |r.value| ==> r.value[i].View() == o.result.value[i])
    ensures r.Ok? ==> Distinct(r.value) && forall f :: f in r.value ==> f in flights || fresh(f)
  {
    ghost var turn := Turn(s, recursive, strptime);
    ghost var here := OnePage(s.pages, turn, pageNum).result.value.0;
    PagedNext(s.pages, turn, pageNum);
    var rest;
    rest, sent := GetFlights(s, pageNum + 1, recursive, strptime);
    if rest.Err? {
      return Err(rest.error), sent;
    }
    ghost var there := FlightsFrom(s, pageNum + 1, recursive, strptime).result.value;
    assert forall k :: 0 <= k < |flights| ==> flights[k] !in rest.value by {
      forall k | 0 <= k < |flights| ensures flights[k] !in rest.value {
        assert flights[k] in flights;
      }
    }
    DistinctAppend(flights, rest.value);
    ShowsAppend(flights, rest.value, here, there);
    r := Ok(flights + rest.value);
  }
}
