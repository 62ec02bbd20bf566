# DroneLogbook client core, modelled in Dafny

This project models the client in `dronelogbook/dronelogbook.py`. The client fetches records from the DroneLogbook web service and turns each JSON record into an object:

- `get_drone`, `get_equipment`, `get_place` and `get_project` fetch single entities. `get_drone`, `get_equipment` and `get_project` return None for a missing or empty guid; `get_place` has no such guard.
- `get_binary` downloads the original flight log.
- `get_flight` checks the response status. It then builds a `Flight` and, when asked, hydrates it with the drone, the place, the project and the equipment.
- `get_flights` is the paginated listing. It builds one `Flight` per record of each page. It follows `has_more` from page to page by recursion.
- The record constructors are `Flight`, `Drone`, `Place`, `Project` and `Equipment`. `Equipment` derives the scoop label and the iMet/HYT serial lists. `Flight` supplies the comparison operators.

The modules follow the program's structure:

| file | module | what it holds |
|---|---|---|
| `wrappers.dfy` | `Wrappers` | `Option` and `Result`, with the failure-propagation members that `:-` uses |
| `pystr.dfy` | `PyStr` | the Python `str` operations the constructors rely on: `sub in s`, `lower()`, `split(sep)` and `sep.join` |
| `json.dfy` | `Json` | decoded JSON bodies and the Python exceptions a subscript raises (`KeyError`, `IndexError`, `TypeError`, `AttributeError`) |
| `records.dfy` | `Records` | `Drone`, `Place`, `Project` and `Equipment` as values; `Equipment.__init__` also as a method with its note loop |
| `flights.dfy` | `Flights` | the `Flight` class: payload decoding, the timestamp fallback, the object, and the ordering operators |
| `client.dfy` | `Client` | the web service as a value, the single-entity fetchers, hydration, and `get_flight` |
| `listing.dfy` | `Listing` | `get_flights`: a generic paging function with its lemmas, the flight listing as a value, and the methods that build the objects |

## How the model works

- **The web service is a value.** `Server` holds three things:
  - a function that answers the single-entity GETs;
  - a function that answers the log POST;
  - `pages`, the JSON bodies of the list endpoint. Page `p` is `pages[p - 1]`.

  Each fetch returns a `Fetched` value. It holds the result and every request sent, in order. This lets a contract say "no request is sent" or "exactly these pages are requested".
- **Exceptions are values.** A Python exception becomes an `Err` value.
  - A subscript on a missing key gives `KeyError`, and a subscript on a value that is not a dict gives `TypeError`.
  - `[0]` on an empty list gives `IndexError`.
  - An unset attribute, or a method missing on a non-string, gives `AttributeError`.
  - Every fetch stops at the first exception, as Python does.
- **Flights are objects; the other records are values.** `Flight` is a class because hydration assigns its attributes in place. The other records are datatypes because nothing in the core changes them after construction.
  - `Flight.View()` takes a snapshot of all of a flight's attributes.
  - The methods `NewFlight`, `Hydrate`, `GetFlight`, `ListedFlight`, `PageLoop`, `ListPage` and `GetFlights` each build or update objects. Each is proved against a function on values: `DecodeFlight`, `Hydration`, `FlightAt`, `OneFlight`, `PageFlights`, `OnePage` or `FlightsFrom`. It sends the same requests and succeeds exactly when that function does. On failure it raises the same exception. On success its objects are in the states the function gives. `GetFlights` hands the `has_more` branch to `MorePages`, and the two recurse into each other.
  - The listing methods also prove three more things: every flight is a new object; the snapshots, in order, are the value the function gives; and no object appears twice.
- **Paging is proved once, for any page turn.** `Collect`, `OnePage` and `Paged` take any `turn: Json -> Fetched<T>`. They describe the loop and the recursion of `get_flights`. The lemmas about them are instantiated with the flight turn `Turn`.

## Model

| member | source | states |
|---|---|---|
| PyStr.Find | dronelogbook/dronelogbook.py:335 | the index found is an occurrence of the substring at or after the start, with no earlier one; None means no occurrence at all |
| PyStr.Contains | dronelogbook/dronelogbook.py:335 | definition of `sub in s` as a successful `Find` from index 0; `ContainsIff` states what it means |
| PyStr.ContainsIff | dronelogbook/dronelogbook.py:335 | `sub in s` holds exactly when `sub` occurs at some index of `s` |
| PyStr.Lower | dronelogbook/dronelogbook.py:335 | `lower()` keeps the length and lower-cases each character in place |
| PyStr.NoOccurrenceBefore | dronelogbook/dronelogbook.py:278 | a prefix that ends before the first separator contains no separator |
| PyStr.Split | dronelogbook/dronelogbook.py:278 | `split(sep)` yields at least one piece, and no piece contains the separator |
| PyStr.JoinSplit | dronelogbook/dronelogbook.py:333 | joining the pieces of `split(sep)` with `sep` gives back the original string |
| PyStr.JoinLast | dronelogbook/dronelogbook.py:336 | a join equals the join of all but the last piece, then the separator, then the last piece |
| PyStr.FirstPieceOfSplit | dronelogbook/dronelogbook.py:341 | `s.split(sep)[0]` is the prefix of `s` before the first separator, free of it, or all of `s` when there is no separator |
| PyStr.LastPieceOfSplit | dronelogbook/dronelogbook.py:336 | `s.split(c)[-1]` is a suffix of `s` free of `c`, and it is either all of `s` or preceded by `c` |
| PyStr.TrailingSeparator | dronelogbook/dronelogbook.py:336 | when `s` ends with the separator, `s.split(c)[-1]` is the empty string |
| PyStr.LastPiece | dronelogbook/dronelogbook.py:336 | the longest separator-free suffix: a suffix, free of the separator, either all of `s` or preceded by it, and empty after a trailing separator |
| Json.Index | dronelogbook/dronelogbook.py:213-222 | `data[key]` succeeds exactly on a dict holding the key and yields its value; a dict without it raises `KeyError(key)` |
| Json.Record | dronelogbook/dronelogbook.py:86 | `body['data'][0]` yields the first element of a non-empty `data` list; an empty list raises `IndexError` |
| Json.First | dronelogbook/dronelogbook.py:86 | definition of `x[0]`: the first element of a non-empty list or the first character of a non-empty string, `IndexError` when empty, `KeyError(0)` on a dict, `TypeError` otherwise |
| Json.Elements | dronelogbook/dronelogbook.py:133 | `for x in j` visits a list's elements, or a string's characters one by one |
| Json.Truthy | dronelogbook/dronelogbook.py:175 | definition of Python truthiness for `if data['has_more']`: null, false, zero and empty strings, lists and dicts are false |
| Records.SplitField | dronelogbook/dronelogbook.py:278 | `data[key].split(sep)` succeeds exactly on a string field; its pieces join back to the field and contain no separator |
| Records.DroneOf | dronelogbook/dronelogbook.py:273-278 | `Drone(data)` succeeds exactly when the five keys are present and `notes` is a string; it copies the four fields and splits `notes` on CR LF losslessly |
| Records.PlaceOf | dronelogbook/dronelogbook.py:290-298 | `Place(data)` succeeds exactly when the six keys are present and copies each one, the coordinates unconverted (`float()` is not modelled); a missing `guid` raises `KeyError('guid')` first |
| Records.ScoopOf | dronelogbook/dronelogbook.py:335-336 | `scoop` is set exactly when the lower-cased name contains "scoop", and then it is the name's last space-separated word (empty after a trailing space) |
| Records.DropSpaces | dronelogbook/dronelogbook.py:343 | the comprehension keeps every piece other than a single space as often as it occurs (equal multisets once the single-space pieces are removed), and adds none |
| Records.DropSpacesAppend | dronelogbook/dronelogbook.py:343 | the comprehension filters a concatenation piece by piece, so the kept pieces stay in their original order |
| Records.Serials | dronelogbook/dronelogbook.py:341-343 | a note's serials are `DropSpaces` of its comma pieces after the first, so they keep their order (the first piece is the text before the first comma). Each piece occurs as often as in the note, except pieces equal to one space, which are dropped. They contain no comma, and a note without a comma has none |
| Records.LastMatching | dronelogbook/dronelogbook.py:338-348 | definition: the last note whose lower-cased form contains the key, found from the end; `LastMatchingFound` and `LastMatchingIsLast` state what it picks |
| Records.LastMatchingFound | dronelogbook/dronelogbook.py:338-348 | a note is picked exactly when some note mentions the key |
| Records.LastMatchingIsLast | dronelogbook/dronelogbook.py:338-348 | the note picked mentions the key and no later note does |
| Records.LastMatchingSnoc | dronelogbook/dronelogbook.py:338-348 | one more note wins when it mentions the key; otherwise the earlier pick stands |
| Records.EquipmentOf | dronelogbook/dronelogbook.py:330-348 | `Equipment(data)` succeeds exactly when the keys are present and `notes` and `name` are strings. Then no note contains CR LF, `scoop` is `ScoopOf(name)`, and `imet_sn` and `hyt_sn` are `SerialsFor` the notes with `imet` and `hyt`. Each of those is set exactly when the name or some note qualifies |
| Records.SerialsFor | dronelogbook/dronelogbook.py:338-348 | definition: the serials of the last note mentioning the key, or unset; `ScanNotes`, `SerialsForStep` and `LastMatchWins` state its properties |
| Records.SerialsForStep | dronelogbook/dronelogbook.py:338-348 | one turn of the note loop: a matching note replaces the serials found so far, and any other note leaves them |
| Records.ScanNotes | dronelogbook/dronelogbook.py:338-348 | the `for note in self.notes` loop leaves `imet_sn` and `hyt_sn` as the serials of the last matching note, or unset |
| Records.NewEquipment | dronelogbook/dronelogbook.py:328-350 | the constructor as written, with its scoop test and note loop, builds exactly `EquipmentOf(data)`, including every exception |
| Records.IsScoop | dronelogbook/dronelogbook.py:352-356 | `is_scoop()` returns True exactly when `scoop` was set; otherwise reading the attribute raises `AttributeError` |
| Records.OneNoteSetsBoth | dronelogbook/dronelogbook.py:340-348 | a last note mentioning both "imet" and "hyt" gives both lists the same serials |
| Records.LastMatchWins | dronelogbook/dronelogbook.py:338-348 | notes appended after the earlier ones decide the serials whenever one of them mentions the key |
| Flights.FieldsInjective | dronelogbook/dronelogbook.py:244-251 | two datetimes with the same field tuple are equal |
| Flights.CompareFlip | dronelogbook/dronelogbook.py:244-248 | swapping the operands of the tuple comparison negates it |
| Flights.CompareZero | dronelogbook/dronelogbook.py:244-251 | the tuple comparison is zero exactly for equal tuples |
| Flights.CompareTransitive | dronelogbook/dronelogbook.py:247-248 | the tuple order is transitive |
| Flights.CompareTimesZero | dronelogbook/dronelogbook.py:250-251 | two datetimes compare equal exactly when they are the same datetime |
| Flights.DecodeFlight | dronelogbook/dronelogbook.py:205-234 | `Flight(data)` succeeds exactly on a dict with all ten keys and a string date; it copies every field, sets `flight_time` to the parsed date or the epoch, and leaves the related records unset |
| Flights.DecodeErrors | dronelogbook/dronelogbook.py:212-229 | a payload that is not a dict raises `TypeError`; otherwise the `KeyError` names the first key missing in source order |
| Flights.BadDateFallsBack | dronelogbook/dronelogbook.py:228-232 | an unparseable date never makes construction fail: `flight_time` becomes 1970-01-01 |
| Flights.Flight.Gt | dronelogbook/dronelogbook.py:244-245 | definition of `__gt__`: this flight's time is later than the other's; `LtIffGt` relates it to `<` |
| Flights.Flight.Lt | dronelogbook/dronelogbook.py:247-248 | definition of `__lt__`: this flight's time is earlier than the other's; `LtIrreflexive` and `LtTransitive` state its order properties |
| Flights.Flight.EqAsWritten | dronelogbook/dronelogbook.py:250-251 | definition of `__eq__` as written, comparing this flight's time with itself; `EqAsWrittenAlwaysTrue` and `EqAsWrittenContradictsOrder` state what follows |
| Flights.Flight.Eq | dronelogbook/dronelogbook.py:250-251 | definition of `__eq__` as evidently intended, comparing the two flights' times; `Trichotomy` states its properties |
| Flights.Flight.constructor | dronelogbook/dronelogbook.py:212-226 | a new flight holds the payload fields, the guid list in `equipment`, and no drone, place, project or `equiement` |
| Flights.ShowsAppend | dronelogbook/dronelogbook.py:176 | concatenating two flight lists concatenates their snapshots, index by index |
| Flights.NewFlight | dronelogbook/dronelogbook.py:205-234 | the constructor succeeds exactly when `DecodeFlight` does. It then yields a new object in exactly the state `DecodeFlight` describes; otherwise it raises the same exception |
| Flights.LtIffGt | dronelogbook/dronelogbook.py:244-248 | `a < b` holds exactly when `b > a` |
| Flights.LtIrreflexive | dronelogbook/dronelogbook.py:247-248 | no flight is earlier than itself |
| Flights.LtTransitive | dronelogbook/dronelogbook.py:247-248 | `<` on flights is transitive |
| Flights.EqAsWrittenAlwaysTrue | dronelogbook/dronelogbook.py:250-251 | `__eq__` as written holds for every pair of flights |
| Flights.EqAsWrittenContradictsOrder | dronelogbook/dronelogbook.py:244-251 | for flights at different times, `__eq__` as written is True while `<` or `>` is True too |
| Flights.Trichotomy | dronelogbook/dronelogbook.py:244-251 | the intended `__eq__` holds exactly for equal times, and exactly one of `<`, `==`, `>` holds for any two flights |
| Client.RecordOf | dronelogbook/dronelogbook.py:86 | definition of `response.json()['data'][0]` on the service's answer to a GET, whatever its status; `Json.Record` states what it yields |
| Client.GetDrone | dronelogbook/dronelogbook.py:70-86 | a missing or empty guid gives None with no request. Otherwise one GET whose status is ignored, and the result is `Drone(body['data'][0])`. On failure the exception is the one the lookup of `data[0]` or `Drone(...)` raises |
| Client.GetEquipment | dronelogbook/dronelogbook.py:88-104 | the same guard and the same unchecked GET, ending in `Equipment(body['data'][0])`. On failure the exception is the one the lookup or `Equipment(...)` raises |
| Client.GetPlace | dronelogbook/dronelogbook.py:180-193 | there is no guard: always exactly one GET, and the result is `Place(body['data'][0])`. On failure the exception is the one the lookup or `Place(...)` raises |
| Client.GetProject | dronelogbook/dronelogbook.py:195-200 | always None, with no request, whatever the guid |
| Client.GetBinary | dronelogbook/dronelogbook.py:45-68 | a missing or empty guid gives None with no request; otherwise one POST, whose response is returned |
| Client.StatusIgnored | dronelogbook/dronelogbook.py:83-86 | the single-entity fetchers give the same outcome for any two responses with the same body, whatever their status |
| Client.EquipmentRequests | dronelogbook/dronelogbook.py:133 | definition: the GETs the comprehension sends, one per guid in order, none for a missing or empty guid; `GetEquipmentList` ties it to the fetches |
| Client.SentEach | dronelogbook/dronelogbook.py:133 | definition: the requests of a run of fetches, each fetch's requests in order |
| Client.FetchEach | dronelogbook/dronelogbook.py:133 | a comprehension over any fetch succeeds exactly when every fetch does; it keeps length and order, each value is that fetch's result, and it sends every fetch's requests in order |
| Client.EquipmentFetch | dronelogbook/dronelogbook.py:133 | definition: `get_equipment` as a fetch of one guid |
| Client.EquipmentFetchSent | dronelogbook/dronelogbook.py:133 | the `get_equipment` calls send exactly `EquipmentRequests`: one GET per guid that is not missing or empty, in order |
| Client.GetEquipmentList | dronelogbook/dronelogbook.py:133 | the list comprehension succeeds exactly when every `get_equipment` does; it keeps length and order, and sends their GETs in order |
| Client.Hydration | dronelogbook/dronelogbook.py:129-133 | hydration succeeds exactly when the drone, place and equipment fetches do; it attaches their results, leaves the project None, and sends drone, place, then equipment requests |
| Client.Hydrate | dronelogbook/dronelogbook.py:129-132 | on the object, the three assignments store what `Hydration` gives, with its requests, its success and its exception. `equipment` and `equiement` are left as they were |
| Client.Attach | dronelogbook/dronelogbook.py:129-133 | storing hydration results changes drone, place and project, and exactly one of `equipment` or `equiement` |
| Client.FlightAt | dronelogbook/dronelogbook.py:106-139 | a missing guid gives None with no request; a non-200 status gives None after the one GET; a flight it returns carries the decoded payload's record, is exactly the decoded flight when not hydrating, and when hydrating has `equipment` replaced by the fetched items, in order |
| Client.FlightAtSucceeds | dronelogbook/dronelogbook.py:126-135 | for a status-200 answer, `get_flight` returns a flight exactly when `data[0]` exists and decodes and, when hydrating, the drone, place and equipment fetches all succeed; a hydrated flight holds the fetched drone and place, after the flight GET and the hydration requests |
| Client.GetFlight | dronelogbook/dronelogbook.py:106-139 | on objects: the same requests, success and exception as `FlightAt`, with a new Flight object whose state is the flight `FlightAt` gives |
| Listing.Collect | dronelogbook/dronelogbook.py:163-172 | definition of the `for` loop as a value: the fetches run in order and the loop stops at the first exception; `CollectShape`, `CollectStep`, `CollectFailureSticks` and `CollectAppend` state its properties |
| Listing.Turns | dronelogbook/dronelogbook.py:163 | definition: one turn per record of `data['data']`, in order; `TurnsAppend` and `TurnsAll` state its properties |
| Listing.PageItems | dronelogbook/dronelogbook.py:163 | definition of `data['data']` followed by iteration over it, with the exceptions `Index` and `Elements` raise |
| Listing.PageMore | dronelogbook/dronelogbook.py:175 | definition of `data['has_more']` read for its truthiness, with the `KeyError` of a missing key |
| Listing.OnePage | dronelogbook/dronelogbook.py:156-176 | definition of one page turn: the page request, the loop over `data`, then `has_more`; `OnePageShape` states its properties |
| Listing.CollectShape | dronelogbook/dronelogbook.py:163-172 | a loop of fetches succeeds exactly when every fetch does, and then yields one value per fetch in order; fetches that send nothing make a loop that sends nothing |
| Listing.CollectStep | dronelogbook/dronelogbook.py:163-172 | one more iteration after a successful prefix appends its value and its requests, or ends with its exception |
| Listing.CollectFailureSticks | dronelogbook/dronelogbook.py:163-172 | after the first exception the loop's outcome and requests no longer change |
| Listing.OnePageShape | dronelogbook/dronelogbook.py:156-176 | a page turn first requests the page; a page outside the service, or a body whose `data` cannot be iterated, ends the turn there; a successful turn has read `has_more` and run the loop over `data` |
| Listing.Paged | dronelogbook/dronelogbook.py:141-178 | every listing from page `n` starts by requesting page `n` |
| Listing.PagedNext | dronelogbook/dronelogbook.py:175-176 | unfolding of `Paged`: when `has_more` is true, the listing is this page's values followed by the listing from the next page |
| Listing.PagedLast | dronelogbook/dronelogbook.py:174-178 | unfolding of `Paged`: a page that fails, or whose `has_more` is false, ends the listing |
| Listing.PagedOk | dronelogbook/dronelogbook.py:156-176 | a successful listing has a page whose loop succeeded and whose `has_more` was read, and it continues exactly when `has_more` is true |
| Listing.CollectAppend | dronelogbook/dronelogbook.py:176 | running two lists of fetches one after the other succeeds with the concatenated values, or fails with the first exception |
| Listing.TurnsAppend | dronelogbook/dronelogbook.py:163 | the turns of concatenated records are the concatenated turns |
| Listing.PagedIsCollect | dronelogbook/dronelogbook.py:141-178 | paging from `n` up to the first page without `has_more` gives the outcome of one loop over all those pages' records |
| Listing.PagedRequests | dronelogbook/dronelogbook.py:156-176 | when no turn sends a request, a successful listing has requested exactly pages `n`..`k`, in order |
| Listing.TurnsAll | dronelogbook/dronelogbook.py:163-172 | a property every successful turn has holds of every value of a page |
| Listing.PagedAll | dronelogbook/dronelogbook.py:141-178 | a property every successful turn has holds of every value of the listing |
| Listing.PagedNeverStopping | dronelogbook/dronelogbook.py:175-176 | when every page says `has_more`, the listing never returns a result |
| Listing.OneFlight | dronelogbook/dronelogbook.py:164-170 | definition of one loop iteration: `Flight(flight_data)`, then, when hydrating, the four fetches stored with the equipment in `equiement`; `OneFlightShape` states its properties |
| Listing.OneFlightShape | dronelogbook/dronelogbook.py:164-170 | a listed flight is the constructed flight; without hydration it costs no request; with hydration it succeeds exactly when the flight decodes and its hydration succeeds, and then it is `Hydrated` and its `equipment` stays the guid list |
| Listing.Turn | dronelogbook/dronelogbook.py:163-172 | definition of the loop body as a turn: `OneFlight` on one record |
| Listing.PageFlights | dronelogbook/dronelogbook.py:163-172 | definition: the loop over one page's records with the flight turn; `PageShape`, `PageStep` and `PageFailureSticks` state its properties |
| Listing.FlightsFrom | dronelogbook/dronelogbook.py:141-178 | definition of `get_flights(n, recursive)` as `Paged` with the flight turn; `ListingIsConcatenation`, `NeverStopping` and `ListingKeepsEquipmentIds` state its properties |
| Listing.PageStep | dronelogbook/dronelogbook.py:163-172 | one more record of a page appends its flight and requests, or ends the loop with its exception |
| Listing.PageFailureSticks | dronelogbook/dronelogbook.py:163-172 | once a record fails, the page's outcome is that failure |
| Listing.PageShape | dronelogbook/dronelogbook.py:163-172 | a page yields one flight per record, in order, exactly when every record's turn succeeds; without hydration it sends nothing and succeeds exactly when every record decodes |
| Listing.ListingIsConcatenation | dronelogbook/dronelogbook.py:141-178 | the listing from page `n` equals one loop over the records of pages `n`..`k`; without hydration a successful listing requests exactly pages `n`..`k` |
| Listing.NeverStopping | dronelogbook/dronelogbook.py:175-176 | a service whose every page says `has_more` never yields a flight list |
| Listing.Hydrated | dronelogbook/dronelogbook.py:166-170 | definition: `equipment` is still the payload's `equipments` value, `equiement` is what `get_equipment` returns for each of those guids, `drone` and `place` are what the service returns for the flight's guids, and `project` is None |
| Listing.ListingKeepsEquipmentIds | dronelogbook/dronelogbook.py:166-170 | with hydration, every listed flight is `Hydrated`: its guid list stays in `equipment`, the equipment fetched for those guids is in `equiement`, and its drone and place are the fetched ones |
| Listing.DistinctSnoc | dronelogbook/dronelogbook.py:172 | appending an object not yet in the list keeps it free of repeats |
| Listing.DistinctAppend | dronelogbook/dronelogbook.py:176 | concatenating two repeat-free lists without common objects keeps the result free of repeats |
| Listing.ListedFlight | dronelogbook/dronelogbook.py:164-170 | one iteration on objects: a new Flight whose state is the value `OneFlight` gives. It sends the same requests, succeeds exactly when `OneFlight` does, and raises the same exception |
| Listing.PageLoop | dronelogbook/dronelogbook.py:163-172 | the loop over `data['data']`: new, distinct Flight objects whose states, in order, are `PageFlights`. It sends the same requests, succeeds exactly when `PageFlights` does, and raises the same exception |
| Listing.ListPage | dronelogbook/dronelogbook.py:156-176 | one page on objects: the page request, the loop and `has_more`, with the requests, success, exception and `has_more` of `OnePage` for the flight turn, and new, distinct objects in its flights' states |
| Listing.GetFlights | dronelogbook/dronelogbook.py:141-178 | `get_flights` on objects: the same requests, success and exception as `FlightsFrom`, with new, distinct Flight objects whose states, in order, are the listed flights |
| Listing.MorePages | dronelogbook/dronelogbook.py:174-175 | the `has_more` branch: given the objects built from this page, the later pages' requests; the success and exception of `FlightsFrom`; and, on success, the given objects followed by new ones, distinct, in the listed flights' states |

## Left out

- HTTP, the API key and the service URL are left out. The service is the `Server` value, and the request headers are not modelled.
- `DLB.__init__` reads credentials from a file, and that file I/O is not modelled.
- `get_binary` writes the response to a file, and that write is not modelled; the model returns the response.
- `Place.get_usgs_alt` is left out: it is a network call to a third-party service.
- Records.PlaceOf: does not model `float()` on the three coordinates (lines 293-295), because the model has no floating point. The payload values are kept as given, so a non-numeric string (`ValueError`) or a null, list or dict (`TypeError`) yields a `Place` instead of the exception.
- `datetime.strptime` is a parameter, `strptime: string -> Option<DateTime>`, where None stands for the `ValueError` it raises. Its format handling is not modelled.
- The `print` calls in `get_flight` and `Flight.__init__` are not modelled; they have no effect on results.
- `__str__` of `Flight` and `Drone` is left out, as formatting only.
- JSON bodies hold integers only. A body that is not JSON, a JSON float, and iterating a dict's keys are not modelled; iterating a dict, a number, a boolean or null gives `TypeError`.
- PyStr.Lower: folds ASCII letters only, because `str.lower()`'s Unicode case mapping is not modelled.
- Client.Hydrate: does not state the object's attributes when a fetch in the middle of hydration raises. Attributes already assigned stay assigned in Python too, but no caller uses the object then.
- Listing.GetFlights: recurses once per page without bound. CPython's default recursion limit (1000 frames) makes a listing of about a thousand pages raise `RecursionError`; the model, and `ListingIsConcatenation` for any `k`, does not capture that.
- Listing.Paged: a page beyond `pages`, or below 1, gives `NoSuchPage` rather than whatever the real service answers.
- `scripts/sync_dlb.py` and `setup.py` are not part of this model.

## Behaviour worth noting

- `get_place` has no guid guard, so it sends a GET even for an empty guid.
- `get_project` never sends a request and never builds a `Project`.
- `get_flight` returns None on a non-200 status rather than raising.
- The scoop label is `split(' ')[-1]`, so a trailing space yields the empty string.
- The serial filter drops only pieces equal to one space, not every blank piece.
- `get_flights` stores the hydrated equipment in the misspelt `equiement` attribute, while `get_flight` replaces `equipment`.

## Findings

| source | as written | input that shows it | evidently intended | confidence | as-written member | corrected member |
|---|---|---|---|---|---|---|
| dronelogbook/dronelogbook.py:250-251 | `__eq__` returns `self.flight_time == self.flight_time`, comparing a flight with itself | two flights at 2020-01-01 and 2020-06-01: `a == b` is True while `a < b` is also True | compare with `other.flight_time`, so that exactly one of `<`, `==`, `>` holds | high; not executed | Flights.EqAsWrittenContradictsOrder | Flights.Trichotomy |
