/** Model of poco/location_refresh.go: the LocationService of the postal-code client and its
    Refresh. The download is the parameter `archives` (the GeoNames zip at a URL); the timeout
    on it and the reader over the downloaded bytes that Refresh keeps are not modelled. The
    bloom filter is the set of byte strings added to it; the false positives it may give are
    a parameter of the lookups. */
module PocoLocationRefresh {
  import opened Wrappers
  import opened GoStrings
  import opened Dataset
  import opened Stores
  import opened PocoLocation

  /** The default wait for a refresh: 60 seconds. */
  const DefaultRefreshTimeout: int := 60

  const DefaultRefreshLocation := "https://download.geonames.org/export/zip/allCountries.zip"

  /** The false-positive rate the filter is sized for. */
  const BloomFalsePositiveRate: real := 0.01

  class LocationService {
    const refreshLocation: string
    /** The byte forms of the ids the bloom filter was given. */
    var filter: set<seq<bv8>>
    /** The go-memdb "locations" table. */
    var table: seq<Location>

    constructor (refreshLocation: string)
      ensures this.refreshLocation == refreshLocation && filter == {} && table == []
    {
      this.refreshLocation := refreshLocation;
      filter := {};
      table := [];
    }
  }

  /** The unique "id" index: country and postal code. */
  function IdKey(l: Location): (string, string) {
    (l.country, l.postalCode)
  }

  /** The location for a row that passed RowError: columns 0, 1, 2, 4 (the state) and 5 (the
      county) lower-cased, the coordinate from columns 9 and 10. */
  function RowLocation(row: seq<string>, parseFloat: ParseFloat): Location
    requires RowError(row, parseFloat).None?
  {
    var c := Coordinates(row, parseFloat).value;
    Location(Coordinate(c.0, c.1), ToLower(row[0]), ToLower(row[1]), ToLower(row[2]),
      ToLower(row[5]), ToLower(row[4]))
  }

  /** Every text field of a row's location is lower-case, including the postal code. */
  predicate Lowered(l: Location) {
    IsLower(l.country) && IsLower(l.postalCode) && IsLower(l.city) && IsLower(l.county) && IsLower(l.state)
  }

  lemma {:induction false} RowLocationLowered(row: seq<string>, parseFloat: ParseFloat)
    requires RowError(row, parseFloat).None?
    ensures Lowered(RowLocation(row, parseFloat))
    ensures RowLocation(row, parseFloat).coordinate == Coordinate(parseFloat(row[9]).value, parseFloat(row[10]).value)
  {
    LowerIdempotent(row[0]);
    LowerIdempotent(row[1]);
    LowerIdempotent(row[2]);
    LowerIdempotent(row[4]);
    LowerIdempotent(row[5]);
  }

  /** The key of the de-duplicating map: the text of the location's postal id, as IdText
      spells it out (MapKeyIsIdText). */
  function MapKey(l: Location): string {
    if l.postalCode != "" then "postal:" + l.country + "," + l.postalCode
    else if l.country != "" then "city:" + l.country
    else ""
  }

  lemma MapKeyIsIdText(l: Location)
    requires IsLower(l.country)
    ensures MapKey(l) == String(l.Id())
  {
    IdTexts(l);
  }

  /** A row's location, or the error that stops the load. */
  function ParseRow(row: seq<string>, parseFloat: ParseFloat): (r: Result<Location>)
    ensures r.Ok? <==> RowError(row, parseFloat).None?
  {
    match RowError(row, parseFloat)
    case Some(e) => Err(e)
    case None => Ok(RowLocation(row, parseFloat))
  }

  /** ParseRow with the float parser fixed, as the row loop applies it. */
  function RowParser(parseFloat: ParseFloat): seq<string> -> Result<Location> {
    row => ParseRow(row, parseFloat)
  }

  /** The "id" and "country" indexes have no AllowMissing, so go-memdb indexes a location only
      when its country and its postal code are both non-empty. */
  predicate HasIdValue(l: Location) {
    l.country != "" && l.postalCode != ""
  }

  /** What stops the row loop at a parsed row: the parse error, or else the insert's refusal
      of a location with no "id" value. */
  function StepError(parsed: Result<Location>): Option<Error> {
    match parsed
    case Err(e) => Some(e)
    case Ok(l) => if HasIdValue(l) then None else Some(MissingPrimaryIndex)
  }

  /** What stops the row loop at a row of the archive: its column count or coordinate error,
      or else the insert's refusal of an empty country or postal code. */
  function RowFailure(row: seq<string>, parseFloat: ParseFloat): (r: Option<Error>)
    ensures RowError(row, parseFloat).Some? ==> r == RowError(row, parseFloat)
    ensures RowError(row, parseFloat).None? ==>
      (r.None? <==> row[0] != "" && row[1] != "") && (r.Some? ==> r.value == MissingPrimaryIndex)
  {
    if RowError(row, parseFloat).None? then
      LowerEmpty(row[0]);
      LowerEmpty(row[1]);
      StepError(ParseRow(row, parseFloat))
    else StepError(ParseRow(row, parseFloat))
  }

  datatype Load = Loaded(table: seq<Location>, locations: map<string, Location>) | Aborted(error: Error)

  /** One turn of the row loop: a good row's location is inserted, replacing the stored
      location with the same country and postal code, and recorded in the map under its key;
      a row that does not parse, or whose location the insert refuses, aborts. */
  function LoadRow(prev: Load, parsed: Result<Location>): Load {
    match prev
    case Aborted(_) => prev
    case Loaded(t, m) =>
      match StepError(parsed)
      case Some(e) => Aborted(e)
      case None => Loaded(Upsert(t, parsed.value, IdKey), m[MapKey(parsed.value) := parsed.value])
  }

  /** A turn goes through exactly when the loop had not aborted and the row is good. */
  lemma LoadRowGoes(prev: Load, parsed: Result<Location>)
    ensures LoadRow(prev, parsed).Loaded? <==> prev.Loaded? && StepError(parsed).None?
  {
  }

  /** A turn that goes through upserts the row's location and records it in the map. */
  lemma LoadRowMeaning(prev: Load, parsed: Result<Location>)
    requires LoadRow(prev, parsed).Loaded?
    ensures prev.Loaded? && parsed.Ok?
    ensures
      LoadRow(prev, parsed) == Loaded(Upsert(prev.table, parsed.value, IdKey), prev.locations[MapKey(parsed.value) := parsed.value])
  {
  }

  /** The row loop, in the write transaction over `table`, on the rows read so far, each row
      read by `parseRow`. */
  function LoadRows(table: seq<Location>, rows: seq<seq<string>>, parseRow: seq<string> -> Result<Location>): Load
    decreases |rows|
  {
    if rows == [] then Loaded(table, map[])
    else LoadRow(LoadRows(table, rows[..|rows| - 1], parseRow), parseRow(rows[|rows| - 1]))
  }

  /** What a refresh over `table` makes of the archive: the table to commit and the map the
      filter is built from, or the error it returns. */
  function RefreshSpec(table: seq<Location>, archive: Archive, parseFloat: ParseFloat)
    : Result<(seq<Location>, map<string, Location>)>
  {
    match SingleMember(archive)
    case Err(e) => Err(e)
    case Ok(member) =>
      match LoadRows(table, member.rows, RowParser(parseFloat))
      case Aborted(e) => Err(e)
      case Loaded(t, m) => if member.failed then Err(ReadFailed) else Ok((t, m))
  }

  /** The body of the row loop of Refresh, for one row. */
  method LoadStep(tx: seq<Location>, locations: map<string, Location>, row: seq<string>, parseFloat: ParseFloat)
    returns (r: Load)
    ensures r == LoadRow(Loaded(tx, locations), ParseRow(row, parseFloat))
  {
    var e := CheckRow(row, parseFloat);
    if e.Some? {
      return Aborted(e.value);
    }
    var location := RowLocation(row, parseFloat);
    var inserted := MemdbInsert(tx, location, IdKey, HasIdValue(location));
    if inserted.Err? {
      return Aborted(inserted.error);
    }
    return Loaded(inserted.value, locations[MapKey(location) := location]);
  }

  /** The row loop of Refresh: it stops at the first bad row. */
  method LoadTable(table: seq<Location>, rows: seq<seq<string>>, parseFloat: ParseFloat) returns (r: Load)
    ensures r == LoadRows(table, rows, RowParser(parseFloat))
  {
    ghost var parseRow := RowParser(parseFloat);
    var tx := table;
    var locations: map<string, Location> := map[];
    var i := 0;
    while i < |rows|
      invariant 0 <= i <= |rows|
      invariant LoadRows(table, rows[..i], parseRow) == Loaded(tx, locations)
    {
      assert rows[..i + 1][..i] == rows[..i];
      var step := LoadStep(tx, locations, rows[i], parseFloat);
      if step.Aborted? {
        AbortPersists(table, rows, i + 1, parseRow);
        return step;
      }
      tx, locations := step.table, step.locations;
      i := i + 1;
    }
    assert rows[..i] == rows;
    return Loaded(tx, locations);
  }

  /** Once the loop has aborted, later rows do not change the outcome. */
  lemma {:induction false} AbortPersists(table: seq<Location>, rows: seq<seq<string>>, i: nat, parseRow: seq<string> -> Result<Location>)
    requires i <= |rows| && LoadRows(table, rows[..i], parseRow).Aborted?
    ensures LoadRows(table, rows, parseRow) == LoadRows(table, rows[..i], parseRow)
    decreases |rows| - i
  {
    if i < |rows| {
      assert rows[..i + 1][..i] == rows[..i];
      AbortPersists(table, rows, i + 1, parseRow);
    } else {
      assert rows[..i] == rows;
    }
  }

  /** A load goes through exactly when every row parses and gives a location the insert
      takes. */
  lemma {:induction false} LoadedIffRowsGood(table: seq<Location>, rows: seq<seq<string>>, parseRow: seq<string> -> Result<Location>)
    ensures LoadRows(table, rows, parseRow).Loaded? <==> forall j :: 0 <= j < |rows| ==> StepError(parseRow(rows[j])).None?
    decreases |rows|
  {
    if rows != [] {
      var n := |rows| - 1;
      var init := rows[..n];
      LoadedIffRowsGood(table, init, parseRow);
      var prev := LoadRows(table, init, parseRow);
      LoadRowGoes(prev, parseRow(rows[n]));
      assert LoadRows(table, rows, parseRow) == LoadRow(prev, parseRow(rows[n]));
      if forall j :: 0 <= j < |rows| ==> StepError(parseRow(rows[j])).None? {
        forall j | 0 <= j < n ensures StepError(parseRow(init[j])).None? {
          assert init[j] == rows[j];
        }
      }
      if LoadRows(table, rows, parseRow).Loaded? {
        forall j | 0 <= j < |rows| ensures StepError(parseRow(rows[j])).None? {
          if j < n {
            assert init[j] == rows[j];
          }
        }
      }
    }
  }

  /** On the rows of the archive, the error that aborts a load is the first bad row's: a
      wrong column count, an unparsable coordinate, or an empty country or postal code. */
  lemma {:induction false} AbortedByFirstBadRow(table: seq<Location>, rows: seq<seq<string>>, parseFloat: ParseFloat, j: nat)
    requires j < |rows| && RowFailure(rows[j], parseFloat).Some?
    requires forall i :: 0 <= i < j ==> RowFailure(rows[i], parseFloat).None?
    ensures LoadRows(table, rows, RowParser(parseFloat)) == Aborted(RowFailure(rows[j], parseFloat).value)
  {
    var parseRow := RowParser(parseFloat);
    var init := rows[..j];
    LoadedIffRowsGood(table, init, parseRow);
    assert rows[..j + 1][..j] == init;
    AbortPersists(table, rows, j + 1, parseRow);
  }

  /** The table keeps at most one location per country and postal code: a later row replaces
      the earlier one. */
  lemma {:induction false} LoadKeepsKeysUnique(table: seq<Location>, rows: seq<seq<string>>, parseRow: seq<string> -> Result<Location>)
    requires UniqueKeys(table, IdKey) && LoadRows(table, rows, parseRow).Loaded?
    ensures UniqueKeys(LoadRows(table, rows, parseRow).table, IdKey)
    decreases |rows|
  {
    if rows != [] {
      var init := rows[..|rows| - 1];
      LoadKeepsKeysUnique(table, init, parseRow);
      UpsertUnique(LoadRows(table, init, parseRow).table, parseRow(rows[|rows| - 1]).value, IdKey);
    }
  }

  /** Row j is good and is the last row whose location has key k. */
  predicate LastUnder(rows: seq<seq<string>>, parseRow: seq<string> -> Result<Location>, j: int, k: string) {
    && 0 <= j < |rows| && parseRow(rows[j]).Ok? && MapKey(parseRow(rows[j]).value) == k
    && forall i :: j < i < |rows| && parseRow(rows[i]).Ok? ==> MapKey(parseRow(rows[i]).value) != k
  }

  /** The map holds the key of every row. */
  lemma {:induction false} MapHasEveryRow(table: seq<Location>, rows: seq<seq<string>>, parseRow: seq<string> -> Result<Location>)
    requires LoadRows(table, rows, parseRow).Loaded?
    ensures forall j :: 0 <= j < |rows| ==>
      parseRow(rows[j]).Ok? && MapKey(parseRow(rows[j]).value) in LoadRows(table, rows, parseRow).locations
    decreases |rows|
  {
    if rows != [] {
      var n := |rows| - 1;
      var init := rows[..n];
      var prev := LoadRows(table, init, parseRow);
      var load := LoadRows(table, rows, parseRow);
      assert load == LoadRow(prev, parseRow(rows[n]));
      MapHasEveryRow(table, init, parseRow);
      LoadRowMeaning(prev, parseRow(rows[n]));
      assert prev.locations.Keys <= load.locations.Keys;
      forall j | 0 <= j < n
        ensures parseRow(rows[j]).Ok? && MapKey(parseRow(rows[j]).value) in load.locations
      {
        assert init[j] == rows[j];
      }
    }
  }

  /** Every location in the map is stored under its own key and is in the table. */
  lemma {:induction false} MapValuesStored(table: seq<Location>, rows: seq<seq<string>>, parseRow: seq<string> -> Result<Location>)
    requires LoadRows(table, rows, parseRow).Loaded?
    ensures var load := LoadRows(table, rows, parseRow);
      forall k :: k in load.locations ==> MapKey(load.locations[k]) == k && load.locations[k] in load.table
    decreases |rows|
  {
    if rows != [] {
      var init := rows[..|rows| - 1];
      MapValuesStored(table, init, parseRow);
      var prev := LoadRows(table, init, parseRow);
      var x := parseRow(rows[|rows| - 1]).value;
      var load := LoadRows(table, rows, parseRow);
      assert load.table == Upsert(prev.table, x, IdKey) && load.locations == prev.locations[MapKey(x) := x];
      forall k | k in load.locations
        ensures MapKey(load.locations[k]) == k && load.locations[k] in load.table
      {
        if k != MapKey(x) {
          assert IdKey(prev.locations[k]) != IdKey(x);
        }
      }
    }
  }

  /** A row that is last under k before the final row stays last when the final row has
      another key or is bad. */
  lemma LastUnderExtends(rows: seq<seq<string>>, parseRow: seq<string> -> Result<Location>, j: int, k: string)
    requires rows != [] && LastUnder(rows[..|rows| - 1], parseRow, j, k)
    requires parseRow(rows[|rows| - 1]).Ok? ==> MapKey(parseRow(rows[|rows| - 1]).value) != k
    ensures LastUnder(rows, parseRow, j, k)
  {
    var init := rows[..|rows| - 1];
    assert init[j] == rows[j];
    forall i | j < i < |rows| && parseRow(rows[i]).Ok?
      ensures MapKey(parseRow(rows[i]).value) != k
    {
      if i < |rows| - 1 {
        assert init[i] == rows[i];
      }
    }
  }

  /** Under each key the map holds the location of the last row with that key. */
  lemma {:induction false} MapHoldsLastRow(table: seq<Location>, rows: seq<seq<string>>, parseRow: seq<string> -> Result<Location>)
    requires LoadRows(table, rows, parseRow).Loaded?
    ensures var load := LoadRows(table, rows, parseRow);
      forall k :: k in load.locations ==>
        exists j :: LastUnder(rows, parseRow, j, k) && load.locations[k] == parseRow(rows[j]).value
    decreases |rows|
  {
    if rows != [] {
      var n := |rows| - 1;
      var init := rows[..n];
      MapHoldsLastRow(table, init, parseRow);
      var prev := LoadRows(table, init, parseRow);
      var x := parseRow(rows[n]).value;
      var load := LoadRows(table, rows, parseRow);
      assert load.locations == prev.locations[MapKey(x) := x];
      forall k | k in load.locations
        ensures exists j :: LastUnder(rows, parseRow, j, k) && load.locations[k] == parseRow(rows[j]).value
      {
        if k == MapKey(x) {
          assert LastUnder(rows, parseRow, n, k);
        } else {
          var j :| LastUnder(init, parseRow, j, k) && prev.locations[k] == parseRow(init[j]).value;
          LastUnderExtends(rows, parseRow, j, k);
          assert init[j] == rows[j];
        }
      }
    }
  }

  /** After a successful refresh, every location recorded for the filter is in the committed
      table, and its text fields are lower-case. */
  lemma RefreshedStoredLowered(table: seq<Location>, archive: Archive, parseFloat: ParseFloat, k: string)
    requires RefreshSpec(table, archive, parseFloat).Ok? && k in RefreshSpec(table, archive, parseFloat).value.1
    ensures var spec := RefreshSpec(table, archive, parseFloat).value;
      spec.1[k] in spec.0 && Lowered(spec.1[k])
  {
    var rows := SingleMember(archive).value.rows;
    var parseRow := RowParser(parseFloat);
    MapValuesStored(table, rows, parseRow);
    MapHoldsLastRow(table, rows, parseRow);
    var load := LoadRows(table, rows, parseRow);
    var j :| LastUnder(rows, parseRow, j, k) && load.locations[k] == parseRow(rows[j]).value;
    RowLocationLowered(rows[j], parseFloat);
  }

  /** The byte forms of the five ids of a location, as Refresh adds them to the filter. */
  function IdBytes(l: Location): set<seq<bv8>> {
    {Bytes(l.Id()), Bytes(l.CountryId()), Bytes(l.CountyId()), Bytes(l.StateId()), Bytes(l.CityId())}
  }

  /** The byte strings a filter holds are exactly those `ids` gives for the locations of `m`. */
  predicate Covers(filter: set<seq<bv8>>, m: map<string, Location>, ids: Location -> set<seq<bv8>>) {
    && (forall k :: k in m ==> ids(m[k]) <= filter)
    && (forall b :: b in filter ==> exists k :: k in m && b in ids(m[k]))
  }

  /** The filter holds the five ids of every location in the map, and nothing else. */
  predicate FilterOf(filter: set<seq<bv8>>, locations: map<string, Location>) {
    Covers(filter, locations, IdBytes)
  }

  /** The filter loop of Refresh, over the map's locations in any order; `ids` gives what one
      turn adds. */
  method AddAll(locations: map<string, Location>, ids: Location -> set<seq<bv8>>) returns (filter: set<seq<bv8>>)
    ensures Covers(filter, locations, ids)
  {
    filter := {};
    var todo := locations.Keys;
    while todo != {}
      invariant todo <= locations.Keys
      invariant forall k :: k in locations && k !in todo ==> ids(locations[k]) <= filter
      invariant forall b :: b in filter ==> exists k :: k in locations && k !in todo && b in ids(locations[k])
      decreases |todo|
    {
      var k :| k in todo;
      filter := filter + ids(locations[k]);
      todo := todo - {k};
    }
  }

  /** The filter of Refresh: each location's five ids. */
  method BuildFilter(locations: map<string, Location>) returns (filter: set<seq<bv8>>)
    ensures FilterOf(filter, locations)
  {
    filter := AddAll(locations, IdBytes);
  }

  /** Refresh: a failure at any point returns its error and keeps the table and the filter;
      otherwise the transaction is committed and the filter replaced. */
  method Refresh(s: LocationService, archives: string -> Archive, parseFloat: ParseFloat) returns (err: Option<Error>)
    modifies s`table, s`filter
    ensures var spec := RefreshSpec(old(s.table), archives(s.refreshLocation), parseFloat);
      && (spec.Err? ==> err == Some(spec.error) && s.table == old(s.table) && s.filter == old(s.filter))
      && (spec.Ok? ==> err == None && s.table == spec.value.0 && FilterOf(s.filter, spec.value.1))
  {
    var member := SingleMember(archives(s.refreshLocation));
    if member.Err? {
      return Some(member.error);
    }
    var loaded := LoadTable(s.table, member.value.rows, parseFloat);
    if loaded.Aborted? {
      return Some(loaded.error);
    }
    if member.value.failed {
      return Some(ReadFailed);
    }
    var filter := BuildFilter(loaded.locations);
    s.table := loaded.table;
    s.filter := filter;
    return None;
  }
}
