/** Model of geonames/client.go: the GeoNames client kept in an ark in-memory table.
    NewClient loads the rows of the single archive member that pass the country allow-list,
    keyed "<COUNTRY>.<postal>", counting the inserts that succeed; Get folds the matches of the
    index an id selects into its first match. */
module GeonamesClient {
  import opened Wrappers
  import opened GoStrings
  import opened GeonamesLocation
  import opened Dataset
  import opened Stores
  import opened LocationIndex

  /** A stored location under its table key. */
  datatype Keyed = Keyed(key: string, location: Record)

  function KeyOf(k: Keyed): string {
    k.key
  }

  /** The allow-list: the given country codes, upper-cased. */
  function AllowList(countries: seq<string>): (r: set<string>)
    ensures forall i :: 0 <= i < |countries| ==> ToUpper(countries[i]) in r
    ensures forall c :: c in r ==> exists i :: 0 <= i < |countries| && c == ToUpper(countries[i])
  {
    set i | 0 <= i < |countries| :: ToUpper(countries[i])
  }

  /** A row's country passes when no countries were given, or when its upper-cased code is in
      the allow-list. */
  predicate Admitted(row: seq<string>, countries: seq<string>)
    requires |row| == NumColumns
  {
    |countries| == 0 || ToUpper(row[0]) in AllowList(countries)
  }

  /** Why a row stops the load. The column count is checked for every row; the coordinates
      only for a row the allow-list admits. */
  function RowError(row: seq<string>, countries: seq<string>, parseFloat: ParseFloat): (r: Option<Error>)
    ensures |row| != NumColumns ==> r == Some(UnexpectedColumnCount(|row|))
    ensures |row| == NumColumns && !Admitted(row, countries) ==> r == None
    ensures |row| == NumColumns && Admitted(row, countries) ==>
      (r.None? <==> Coordinates(row, parseFloat).Ok?)
  {
    if |row| != NumColumns then Some(UnexpectedColumnCount(|row|))
    else if !Admitted(row, countries) then None
    else match Coordinates(row, parseFloat)
      case Err(e) => Some(e)
      case Ok(_) => None
  }

  /** An admitted row with a good coordinate: one that is inserted. */
  predicate Inserted(row: seq<string>, countries: seq<string>, parseFloat: ParseFloat) {
    |row| == NumColumns && Admitted(row, countries) && Coordinates(row, parseFloat).Ok?
  }

  /** The stored location of an inserted row: the upper-cased country, columns 1, 2, 4 and 5
      lower-cased, the coordinate of columns 9 and 10, under the key "<COUNTRY>.<postal>". */
  function RowLocation(row: seq<string>, countries: seq<string>, parseFloat: ParseFloat): Keyed
    requires Inserted(row, countries, parseFloat)
  {
    var c := Coordinates(row, parseFloat).value;
    var country := ToUpper(row[0]);
    var postalCode := ToLower(row[1]);
    Keyed(country + "." + postalCode,
      Record(Coordinate(c.0, c.1), country, postalCode, ToLower(row[2]), ToLower(row[4]), ToLower(row[5])))
  }

  /** The stored location: an allowed upper-case country, lower-case text fields, and the key
      built from its country and postal code. */
  lemma {:induction false} RowLocationFields(row: seq<string>, countries: seq<string>, parseFloat: ParseFloat)
    requires Inserted(row, countries, parseFloat)
    ensures var k := RowLocation(row, countries, parseFloat);
      && k.key == k.location.country + "." + k.location.postalCode
      && IsUpper(k.location.country)
      && (|countries| > 0 ==> k.location.country in AllowList(countries))
      && IsLower(k.location.postalCode) && IsLower(k.location.city)
      && IsLower(k.location.subdivision1) && IsLower(k.location.subdivision2)
      && k.location.coordinate == Coordinate(parseFloat(row[9]).value, parseFloat(row[10]).value)
  {
    UpperIdempotent(row[0]);
    LowerIdempotent(row[1]);
    LowerIdempotent(row[2]);
    LowerIdempotent(row[4]);
    LowerIdempotent(row[5]);
  }

  /** The state of the row loop: the location count, the table, and the error that ended it. */
  datatype Load = Load(count: nat, store: seq<Keyed>, error: Option<Error>)

  /** One turn of the row loop. An insert under a key already taken fails and is not
      counted; a bad row ends the loop with its error. */
  function LoadRow(prev: Load, row: seq<string>, countries: seq<string>, parseFloat: ParseFloat): Load {
    if prev.error.Some? then prev
    else
      match RowError(row, countries, parseFloat)
      case Some(e) => prev.(error := Some(e))
      case None =>
        if !Inserted(row, countries, parseFloat) then prev
        else
          match InsertNew(prev.store, RowLocation(row, countries, parseFloat), KeyOf)
          case None => prev
          case Some(store) => Load(prev.count + 1, store, None)
  }

  /** The row loop over the rows read so far. */
  function LoadRows(rows: seq<seq<string>>, countries: seq<string>, parseFloat: ParseFloat): Load
    decreases |rows|
  {
    if rows == [] then Load(0, [], None)
    else LoadRow(LoadRows(rows[..|rows| - 1], countries, parseFloat), rows[|rows| - 1], countries, parseFloat)
  }

  /** The loop over the whole member, with a read failure reported once the rows run out. */
  function LoadSpec(table: Table, countries: seq<string>, parseFloat: ParseFloat): Load {
    var load := LoadRows(table.rows, countries, parseFloat);
    if load.error.None? && table.failed then load.(error := Some(ReadFailed)) else load
  }

  /** The body of the row loop of NewClient, for one row; `allowed` is the allow-list built
      before the loop. */
  method LoadStep(count: nat, store: seq<Keyed>, row: seq<string>, countries: seq<string>, allowed: set<string>,
      parseFloat: ParseFloat)
    returns (count': nat, store': seq<Keyed>, err: Option<Error>)
    requires allowed == AllowList(countries)
    ensures Load(count', store', err) == LoadRow(Load(count, store, None), row, countries, parseFloat)
  {
    if |row| != NumColumns {
      return count, store, Some(UnexpectedColumnCount(|row|));
    }
    var code := ToUpper(row[0]);
    if |countries| > 0 && code !in allowed {
      return count, store, None;
    }
    var latitude := parseFloat(row[9]);
    if latitude.None? {
      return count, store, Some(BadFloat(row[9]));
    }
    var longitude := parseFloat(row[10]);
    if longitude.None? {
      return count, store, Some(BadFloat(row[10]));
    }
    var inserted := InsertNew(store, RowLocation(row, countries, parseFloat), KeyOf);
    if inserted.None? {
      return count, store, None;
    }
    return count + 1, inserted.value, None;
  }

  /** The row loop of NewClient. */
  method LoadTable(table: Table, countries: seq<string>, parseFloat: ParseFloat)
    returns (count: nat, store: seq<Keyed>, err: Option<Error>)
    ensures Load(count, store, err) == LoadSpec(table, countries, parseFloat)
  {
    var allowed := AllowList(countries);
    count, store := 0, [];
    var i := 0;
    while i < |table.rows|
      invariant 0 <= i <= |table.rows|
      invariant LoadRows(table.rows[..i], countries, parseFloat) == Load(count, store, None)
    {
      assert table.rows[..i + 1][..i] == table.rows[..i];
      count, store, err := LoadStep(count, store, table.rows[i], countries, allowed, parseFloat);
      if err.Some? {
        ErrorPersists(table.rows, i + 1, countries, parseFloat);
        return;
      }
      i := i + 1;
    }
    assert table.rows[..i] == table.rows;
    if table.failed {
      return count, store, Some(ReadFailed);
    }
    return count, store, None;
  }

  /** Once a row has stopped the loop, later rows change nothing. */
  lemma {:induction false} ErrorPersists(rows: seq<seq<string>>, i: nat, countries: seq<string>, parseFloat: ParseFloat)
    requires i <= |rows| && LoadRows(rows[..i], countries, parseFloat).error.Some?
    ensures LoadRows(rows, countries, parseFloat) == LoadRows(rows[..i], countries, parseFloat)
    decreases |rows| - i
  {
    if i < |rows| {
      assert rows[..i + 1][..i] == rows[..i];
      ErrorPersists(rows, i + 1, countries, parseFloat);
    } else {
      assert rows[..i] == rows;
    }
  }

  /** A row the allow-list turns away is skipped whatever its coordinates hold; only its
      column count is checked. */
  lemma {:induction false} SkippedRow(rows: seq<seq<string>>, row: seq<string>, countries: seq<string>, parseFloat: ParseFloat)
    requires |row| == NumColumns && !Admitted(row, countries)
    ensures LoadRows(rows + [row], countries, parseFloat) == LoadRows(rows, countries, parseFloat)
  {
    assert (rows + [row])[..|rows|] == rows;
  }

  /** The load stops exactly at the first bad row, with its error: a row of the wrong width
      stops it even when the allow-list would have skipped that row. */
  lemma {:induction false} StopsAtFirstBadRow(rows: seq<seq<string>>, i: int, countries: seq<string>, parseFloat: ParseFloat)
    requires 0 <= i < |rows| && RowError(rows[i], countries, parseFloat).Some?
    requires forall j :: 0 <= j < i ==> RowError(rows[j], countries, parseFloat).None?
    ensures LoadRows(rows, countries, parseFloat).error == RowError(rows[i], countries, parseFloat)
  {
    var prefix := rows[..i + 1];
    NoErrorWhileRowsGood(prefix[..i], countries, parseFloat);
    assert forall j :: 0 <= j < i ==> prefix[..i][j] == rows[j];
    assert prefix[..i] == rows[..i];
    ErrorPersists(rows, i + 1, countries, parseFloat);
  }

  lemma {:induction false} NoErrorWhileRowsGood(rows: seq<seq<string>>, countries: seq<string>, parseFloat: ParseFloat)
    requires forall j :: 0 <= j < |rows| ==> RowError(rows[j], countries, parseFloat).None?
    ensures LoadRows(rows, countries, parseFloat).error.None?
    decreases |rows|
  {
    if rows != [] {
      var init := rows[..|rows| - 1];
      assert forall j :: 0 <= j < |init| ==> init[j] == rows[j];
      NoErrorWhileRowsGood(init, countries, parseFloat);
    }
  }

  /** The number of rows, among the first n, that reach the insert. */
  function InsertedRows(rows: seq<seq<string>>, countries: seq<string>, parseFloat: ParseFloat): nat
    decreases |rows|
  {
    if rows == [] then 0
    else
      var last := if Inserted(rows[|rows| - 1], countries, parseFloat) then 1 else 0;
      InsertedRows(rows[..|rows| - 1], countries, parseFloat) + last
  }

  /** LocationCount is the number of stored locations, their keys are distinct, and it never
      exceeds the number of rows that reached the insert. */
  lemma {:induction false} CountBounded(rows: seq<seq<string>>, countries: seq<string>, parseFloat: ParseFloat)
    ensures var load := LoadRows(rows, countries, parseFloat);
      load.count == |load.store| <= InsertedRows(rows, countries, parseFloat)
    ensures UniqueKeys(LoadRows(rows, countries, parseFloat).store, KeyOf)
    decreases |rows|
  {
    if rows != [] {
      var init := rows[..|rows| - 1];
      CountBounded(init, countries, parseFloat);
      var prev := LoadRows(init, countries, parseFloat);
      var row := rows[|rows| - 1];
      if prev.error.None? && RowError(row, countries, parseFloat).None? && Inserted(row, countries, parseFloat) {
        var x := RowLocation(row, countries, parseFloat);
        if InsertNew(prev.store, x, KeyOf).Some? {
          InsertNewUnique(prev.store, x, KeyOf);
        }
      }
    }
  }

  /** Every stored location is the location of a row that reached the insert. */
  lemma {:induction false} StoredFromRows(rows: seq<seq<string>>, countries: seq<string>, parseFloat: ParseFloat)
    ensures forall k :: k in LoadRows(rows, countries, parseFloat).store ==>
      exists j :: 0 <= j < |rows| && Inserted(rows[j], countries, parseFloat) &&
        k == RowLocation(rows[j], countries, parseFloat)
    decreases |rows|
  {
    if rows != [] {
      var n := |rows| - 1;
      var init := rows[..n];
      StoredFromRows(init, countries, parseFloat);
      forall k | k in LoadRows(rows, countries, parseFloat).store
        ensures exists j ::
          0 <= j < |rows| && Inserted(rows[j], countries, parseFloat) && k == RowLocation(rows[j], countries, parseFloat)
      {
        if k in LoadRows(init, countries, parseFloat).store {
          var j :| 0 <= j < n && Inserted(init[j], countries, parseFloat) &&
            k == RowLocation(init[j], countries, parseFloat);
          assert rows[j] == init[j];
        }
      }
    }
  }

  /** Every stored location has an allowed upper-case country, lower-case text fields, and
      the key "<COUNTRY>.<postal>". */
  lemma {:induction false} StoredLocations(rows: seq<seq<string>>, countries: seq<string>, parseFloat: ParseFloat)
    ensures forall k :: k in LoadRows(rows, countries, parseFloat).store ==>
      && k.key == k.location.country + "." + k.location.postalCode
      && IsUpper(k.location.country)
      && (|countries| > 0 ==> k.location.country in AllowList(countries))
      && IsLower(k.location.postalCode) && IsLower(k.location.city)
      && IsLower(k.location.subdivision1) && IsLower(k.location.subdivision2)
  {
    StoredFromRows(rows, countries, parseFloat);
    forall k | k in LoadRows(rows, countries, parseFloat).store
      ensures
        && k.key == k.location.country + "." + k.location.postalCode
        && IsUpper(k.location.country)
        && (|countries| > 0 ==> k.location.country in AllowList(countries))
        && IsLower(k.location.postalCode) && IsLower(k.location.city)
        && IsLower(k.location.subdivision1) && IsLower(k.location.subdivision2)
    {
      var j :| 0 <= j < |rows| && Inserted(rows[j], countries, parseFloat) &&
        k == RowLocation(rows[j], countries, parseFloat);
      RowLocationFields(rows[j], countries, parseFloat);
    }
  }

  class Client {
    var locationCount: int
    var store: seq<Keyed>

    constructor (count: nat, store: seq<Keyed>)
      ensures locationCount == count && this.store == store
    {
      locationCount := count;
      this.store := store;
    }
  }

  /** What NewClient's load comes to; a fetch, zip or member-count failure loads nothing. */
  function NewClientLoad(archive: Archive, countries: seq<string>, parseFloat: ParseFloat): Load {
    match SingleMember(archive)
    case Err(e) => Load(0, [], Some(e))
    case Ok(table) => LoadSpec(table, countries, parseFloat)
  }

  /** The error NewClient returns, if any. */
  function NewClientError(archive: Archive, countries: seq<string>, parseFloat: ParseFloat): Option<Error> {
    NewClientLoad(archive, countries, parseFloat).error
  }

  /** NewClient. The fetch, zip and member-count failures give no client. Once the row loop
      has run, the client is returned together with the loop's error: its LocationCount is
      what the loop counted, and its table holds the rows only when the batch committed. */
  method NewClient(archive: Archive, countries: seq<string>, parseFloat: ParseFloat)
    returns (c: Client?, err: Option<Error>)
    ensures SingleMember(archive).Err? ==> c == null && err == Some(SingleMember(archive).error)
    ensures SingleMember(archive).Ok? ==>
      var load := LoadSpec(SingleMember(archive).value, countries, parseFloat);
      && c != null && fresh(c) && err == load.error
      && c.locationCount == load.count
      && c.store == (if load.error.None? then load.store else [])
    ensures err == NewClientError(archive, countries, parseFloat)
  {
    var member := SingleMember(archive);
    if member.Err? {
      return null, Some(member.error);
    }
    var count, store, e := LoadTable(member.value, countries, parseFloat);
    c := new Client(count, if e.None? then store else []);
    err := e;
  }

  function Records(store: seq<Keyed>): (r: seq<Record>)
    ensures |r| == |store|
    ensures forall i :: 0 <= i < |store| ==> r[i] == store[i].location
  {
    seq(|store|, i requires 0 <= i < |store| => store[i].location)
  }

  /** What Get answers for an id from a ready client's table. A list with no match fails. */
  function GetSpec(store: seq<Keyed>, id: LocationId): Result<Fence> {
    match Dispatch(id)
    case Err(e) => Err(e)
    case Ok(q) => Answer(store, q)
  }

  /** The answer to a query. */
  function Answer(store: seq<Keyed>, q: Query): Result<Fence> {
    var matches := Select(Records(store), q, true);
    if matches == [] then Err(NotFound("")) else Ok(FoldMatches(matches))
  }

  /** Client.Get: a nil client is not ready. */
  method Get(c: Client?, id: LocationId) returns (r: Result<Fence>)
    ensures c == null ==> r == Err(NotFound("client not ready"))
    ensures c != null ==> r == GetSpec(c.store, id)
  {
    if c == null {
      return Err(NotFound("client not ready"));
    }
    var query := Dispatch(id);
    if query.Err? {
      return Err(query.error);
    }
    var matches := Select(Records(c.store), query.value, true);
    if matches == [] {
      return Err(NotFound(""));
    }
    var location: Location? := null;
    var i := 0;
    while i < |matches|
      invariant 0 <= i <= |matches|
      invariant location == null <==> i == 0
      invariant location != null ==> fresh(location) && location.record == matches[0]
      invariant location != null ==>
        location.bounder == (if i == 1 then None else Some(Coords(matches[1..i])))
    {
      if location == null {
        location := new Location(matches[i]);
      } else {
        location.Add(matches[i]);
        assert Coords(matches[1..i + 1]) == Coords(matches[1..i]) + [matches[i].coordinate];
      }
      i := i + 1;
    }
    assert matches[1..i] == matches[1..];
    return Ok(location.View());
  }

  /** A lone match is returned as it is: its centre is its own point and its radius 0. */
  lemma {:induction false} SingleMatch(store: seq<Keyed>, id: LocationId,
                                       rectCenter: seq<Coordinate> -> Coordinate, capRadius: seq<Coordinate> -> real)
    requires Dispatch(id).Ok? && |Select(Records(store), Dispatch(id).value, true)| == 1
    ensures var m := Select(Records(store), Dispatch(id).value, true)[0];
      && GetSpec(store, id) == Ok(Fence(m, None))
      && CenterOf(GetSpec(store, id).value, rectCenter) == m.coordinate
      && RadiusOf(GetSpec(store, id).value, capRadius) == 0.0
  {
  }
}
