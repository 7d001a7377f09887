/** Model of gndb/db.go: the GeoNames database kept in an ark relational store. Open loads the
    rows of the single archive member, lower-cased, refusing a second row with the same
    country and postal code and counting the inserts that succeed; Get answers a postal id
    with the one location under its primary key, and every other kind by folding the matches
    of its index into the first. The identifier and Location types are those of
    GeonamesLocation: gndb/location.go is not part of this model. */
module GndbDb {
  import opened Wrappers
  import opened GoStrings
  import opened GeonamesLocation
  import opened Dataset
  import opened Stores
  import opened LocationIndex
  import GeonamesDb

  /** The "primary" index: country and postal code. */
  function PrimaryKey(r: Record): (string, string) {
    (r.country, r.postalCode)
  }

  /** The state of the row loop: the Size counted so far, the table, and the error that
      ended the loop. */
  datatype Load = Load(size: nat, store: seq<Record>, error: Option<Error>)

  /** One turn of the row loop: a good row is inserted unless its primary key is taken, and
      only a successful insert is counted; a bad row ends the loop with its error. */
  function LoadRow(prev: Load, row: seq<string>, parseFloat: ParseFloat): Load {
    if prev.error.Some? then prev
    else
      match RowError(row, parseFloat)
      case Some(e) => prev.(error := Some(e))
      case None =>
        match InsertNew(prev.store, GeonamesDb.RowLocation(row, parseFloat), PrimaryKey)
        case None => prev
        case Some(store) => Load(prev.size + 1, store, None)
  }

  /** The row loop over the rows read so far. */
  function LoadRows(rows: seq<seq<string>>, parseFloat: ParseFloat): Load
    decreases |rows|
  {
    if rows == [] then Load(0, [], None)
    else LoadRow(LoadRows(rows[..|rows| - 1], parseFloat), rows[|rows| - 1], parseFloat)
  }

  /** The loop over the whole member, with a read failure reported once the rows run out. */
  function LoadSpec(table: Table, parseFloat: ParseFloat): Load {
    var load := LoadRows(table.rows, parseFloat);
    if load.error.None? && table.failed then load.(error := Some(ReadFailed)) else load
  }

  /** The body of the row loop of Open, for one row. */
  method LoadStep(size: nat, store: seq<Record>, row: seq<string>, parseFloat: ParseFloat)
    returns (size': nat, store': seq<Record>, err: Option<Error>)
    ensures Load(size', store', err) == LoadRow(Load(size, store, None), row, parseFloat)
  {
    err := CheckRow(row, parseFloat);
    if err.Some? {
      return size, store, err;
    }
    var inserted := InsertNew(store, GeonamesDb.RowLocation(row, parseFloat), PrimaryKey);
    if inserted.None? {
      return size, store, None;
    }
    return size + 1, inserted.value, None;
  }

  /** The row loop of Open. */
  method LoadTable(table: Table, parseFloat: ParseFloat) returns (size: nat, store: seq<Record>, err: Option<Error>)
    ensures Load(size, store, err) == LoadSpec(table, parseFloat)
  {
    size, store := 0, [];
    var i := 0;
    while i < |table.rows|
      invariant 0 <= i <= |table.rows|
      invariant LoadRows(table.rows[..i], parseFloat) == Load(size, store, None)
    {
      assert table.rows[..i + 1][..i] == table.rows[..i];
      size, store, err := LoadStep(size, store, table.rows[i], parseFloat);
      if err.Some? {
        ErrorPersists(table.rows, i + 1, parseFloat);
        return;
      }
      i := i + 1;
    }
    assert table.rows[..i] == table.rows;
    if table.failed {
      return size, store, Some(ReadFailed);
    }
    return size, store, None;
  }

  /** Once a row has stopped the loop, later rows change nothing. */
  lemma {:induction false} ErrorPersists(rows: seq<seq<string>>, i: nat, parseFloat: ParseFloat)
    requires i <= |rows| && LoadRows(rows[..i], parseFloat).error.Some?
    ensures LoadRows(rows, parseFloat) == LoadRows(rows[..i], parseFloat)
    decreases |rows| - i
  {
    if i < |rows| {
      assert rows[..i + 1][..i] == rows[..i];
      ErrorPersists(rows, i + 1, parseFloat);
    } else {
      assert rows[..i] == rows;
    }
  }

  /** The load ends without error exactly when every row is good. */
  lemma {:induction false} NoErrorIffRowsGood(rows: seq<seq<string>>, parseFloat: ParseFloat)
    ensures LoadRows(rows, parseFloat).error.None? <==>
      forall j :: 0 <= j < |rows| ==> RowError(rows[j], parseFloat).None?
    decreases |rows|
  {
    if rows != [] {
      var init := rows[..|rows| - 1];
      NoErrorIffRowsGood(init, parseFloat);
      assert forall j :: 0 <= j < |init| ==> init[j] == rows[j];
    }
  }

  /** The load stops with the error of the first bad row, whatever the rows after it hold. */
  lemma {:induction false} StopsAtFirstBadRow(rows: seq<seq<string>>, i: int, parseFloat: ParseFloat)
    requires 0 <= i < |rows| && RowError(rows[i], parseFloat).Some?
    requires forall j :: 0 <= j < i ==> RowError(rows[j], parseFloat).None?
    ensures LoadRows(rows, parseFloat).error == RowError(rows[i], parseFloat)
  {
    var prefix := rows[..i + 1];
    NoErrorIffRowsGood(prefix[..i], parseFloat);
    assert forall j :: 0 <= j < i ==> prefix[..i][j] == rows[j];
    ErrorPersists(rows, i + 1, parseFloat);
  }

  /** Size is the number of stored locations, their primary keys are distinct, and it never
      exceeds the number of rows read. */
  lemma {:induction false} SizeCountsStore(rows: seq<seq<string>>, parseFloat: ParseFloat)
    ensures var load := LoadRows(rows, parseFloat);
      load.size == |load.store| <= |rows|
    ensures UniqueKeys(LoadRows(rows, parseFloat).store, PrimaryKey)
    decreases |rows|
  {
    if rows != [] {
      var init := rows[..|rows| - 1];
      SizeCountsStore(init, parseFloat);
      var prev := LoadRows(init, parseFloat);
      var row := rows[|rows| - 1];
      if prev.error.None? && RowError(row, parseFloat).None? {
        var x := GeonamesDb.RowLocation(row, parseFloat);
        if InsertNew(prev.store, x, PrimaryKey).Some? {
          InsertNewUnique(prev.store, x, PrimaryKey);
        }
      }
    }
  }

  /** A row never takes a stored location out of the table. */
  lemma StoreGrows(rows: seq<seq<string>>, parseFloat: ParseFloat)
    requires rows != []
    ensures forall y :: y in LoadRows(rows[..|rows| - 1], parseFloat).store ==> y in LoadRows(rows, parseFloat).store
  {
  }

  /** Row k, at or before the good row j, is stored and has row j's primary key. */
  predicate KeptFor(rows: seq<seq<string>>, parseFloat: ParseFloat, j: int, k: int)
    requires 0 <= j < |rows| && RowError(rows[j], parseFloat).None?
  {
    && 0 <= k <= j && RowError(rows[k], parseFloat).None?
    && GeonamesDb.RowLocation(rows[k], parseFloat) in LoadRows(rows, parseFloat).store
    && PrimaryKey(GeonamesDb.RowLocation(rows[k], parseFloat)) == PrimaryKey(GeonamesDb.RowLocation(rows[j], parseFloat))
  }

  /** The last row, when good, is stored, or an earlier row holds its primary key. */
  lemma LastRowKept(rows: seq<seq<string>>, parseFloat: ParseFloat, n: int)
    requires n == |rows| - 1 && 0 <= n && RowError(rows[n], parseFloat).None?
    requires LoadRows(rows, parseFloat).error.None?
    ensures exists k :: KeptFor(rows, parseFloat, n, k)
  {
    var init := rows[..n];
    var prev := LoadRows(init, parseFloat);
    var x := GeonamesDb.RowLocation(rows[n], parseFloat);
    if HasKey(prev.store, PrimaryKey(x), PrimaryKey) {
      var i :| 0 <= i < |prev.store| && PrimaryKey(prev.store[i]) == PrimaryKey(x);
      assert prev.store[i] in prev.store;
      StoredFromRows(init, parseFloat);
      var k :| 0 <= k < |init| && RowError(init[k], parseFloat).None?
        && prev.store[i] == GeonamesDb.RowLocation(init[k], parseFloat);
      assert rows[k] == init[k];
      StoreGrows(rows, parseFloat);
      assert KeptFor(rows, parseFloat, n, k);
    } else {
      assert KeptFor(rows, parseFloat, n, n);
    }
  }

  /** The first row with a given country and postal code is the one kept: a later row with
      the same primary key is refused. */
  lemma {:induction false} FirstRowWins(rows: seq<seq<string>>, parseFloat: ParseFloat, j: int)
    requires 0 <= j < |rows| && RowError(rows[j], parseFloat).None?
    requires LoadRows(rows, parseFloat).error.None?
    ensures exists k :: KeptFor(rows, parseFloat, j, k)
    decreases |rows|
  {
    var n := |rows| - 1;
    if j < n {
      var init := rows[..n];
      assert init[j] == rows[j];
      FirstRowWins(init, parseFloat, j);
      var k :| KeptFor(init, parseFloat, j, k);
      assert rows[k] == init[k];
      StoreGrows(rows, parseFloat);
      assert KeptFor(rows, parseFloat, j, k);
    } else {
      LastRowKept(rows, parseFloat, j);
    }
  }

  /** Every stored location is the location of a good row. */
  lemma {:induction false} StoredFromRows(rows: seq<seq<string>>, parseFloat: ParseFloat)
    ensures forall y :: y in LoadRows(rows, parseFloat).store ==>
      exists j :: 0 <= j < |rows| && RowError(rows[j], parseFloat).None? && y == GeonamesDb.RowLocation(rows[j], parseFloat)
    decreases |rows|
  {
    if rows != [] {
      var n := |rows| - 1;
      var init := rows[..n];
      StoredFromRows(init, parseFloat);
      forall y | y in LoadRows(rows, parseFloat).store
        ensures exists j ::
          0 <= j < |rows| && RowError(rows[j], parseFloat).None? && y == GeonamesDb.RowLocation(rows[j], parseFloat)
      {
        if y in LoadRows(init, parseFloat).store {
          var j :| 0 <= j < n && RowError(init[j], parseFloat).None? && y == GeonamesDb.RowLocation(init[j], parseFloat);
          assert rows[j] == init[j];
        }
      }
    }
  }

  /** The text fields of every stored location are lower-case. */
  lemma {:induction false} StoredLowerCase(rows: seq<seq<string>>, parseFloat: ParseFloat)
    ensures forall y :: y in LoadRows(rows, parseFloat).store ==>
      IsLower(y.country) && IsLower(y.postalCode) && IsLower(y.city) && IsLower(y.subdivision1) && IsLower(y.subdivision2)
  {
    StoredFromRows(rows, parseFloat);
    forall y | y in LoadRows(rows, parseFloat).store
      ensures IsLower(y.country) && IsLower(y.postalCode) && IsLower(y.city) && IsLower(y.subdivision1) && IsLower(y.subdivision2)
    {
      var j :| 0 <= j < |rows| && RowError(rows[j], parseFloat).None? && y == GeonamesDb.RowLocation(rows[j], parseFloat);
      GeonamesDb.RowLocationFields(rows[j], parseFloat);
    }
  }

  class DB {
    var size: int
    var store: seq<Record>

    constructor (size: nat, store: seq<Record>)
      ensures this.size == size && this.store == store
    {
      this.size := size;
      this.store := store;
    }
  }

  /** What Open makes of the archive: the loop's outcome, or the error that came before it. */
  function OpenLoad(archive: Archive, parseFloat: ParseFloat): Load {
    match SingleMember(archive)
    case Err(e) => Load(0, [], Some(e))
    case Ok(table) => LoadSpec(table, parseFloat)
  }

  /** The error Open returns, if any. */
  function OpenError(archive: Archive, parseFloat: ParseFloat): Option<Error> {
    OpenLoad(archive, parseFloat).error
  }

  /** Open. The fetch, zip and member-count failures give no database. Once the row loop has
      run, the database is returned together with the loop's error: its Size is what the loop
      counted, and its table holds the rows only when the transaction committed. */
  method Open(archive: Archive, parseFloat: ParseFloat) returns (db: DB?, err: Option<Error>)
    ensures SingleMember(archive).Err? ==> db == null && err == Some(SingleMember(archive).error)
    ensures SingleMember(archive).Ok? ==>
      var load := LoadSpec(SingleMember(archive).value, parseFloat);
      && db != null && fresh(db) && err == load.error
      && db.size == load.size
      && db.store == (if load.error.None? then load.store else [])
    ensures err == OpenError(archive, parseFloat)
  {
    var member := SingleMember(archive);
    if member.Err? {
      return null, Some(member.error);
    }
    var size, store, e := LoadTable(member.value, parseFloat);
    db := new DB(size, if e.None? then store else []);
    err := e;
  }

  /** What Get answers for an id from an open database: a postal id gets the first location
      under its primary key as it is, any other kind the fold of its index's matches; no
      match fails. */
  function GetSpec(store: seq<Record>, id: LocationId): Result<Fence> {
    match Dispatch(id)
    case Err(e) => Err(e)
    case Ok(q) => Answer(store, q)
  }

  /** The answer to a query. */
  function Answer(store: seq<Record>, q: Query): Result<Fence> {
    var matches := Select(store, q, true);
    if matches == [] then Err(NotFound(""))
    else if q.PostalQuery? then Ok(Fence(matches[0], None))
    else Ok(FoldMatches(matches))
  }

  /** DB.Get: a nil database is not ready. */
  method Get(db: DB?, id: LocationId) returns (r: Result<Fence>)
    ensures db == null ==> r == Err(NoContent("db not ready"))
    ensures db != null ==> r == GetSpec(db.store, id)
  {
    if db == null {
      return Err(NoContent("db not ready"));
    }
    var query := Dispatch(id);
    if query.Err? {
      return Err(query.error);
    }
    var matches := Select(db.store, query.value, true);
    if matches == [] {
      return Err(NotFound(""));
    }
    if query.value.PostalQuery? {
      var found := new Location(matches[0]);
      return Ok(found.View());
    }
    var location: Location? := null;
    var i := 0;
    while i < |matches|
      invariant 0 <= i <= |matches|
      invariant location == null <==> i == 0
      invariant location != null ==> fresh(location) && location.record == matches[0]
      invariant location != null ==>
        location.bounder == (if i == 1 then None else Some(Coords(matches[1..i])))
    {
      if location == null {
        location := new Location(matches[i]);
      } else {
        location.Add(matches[i]);
        assert Coords(matches[1..i + 1]) == Coords(matches[1..i]) + [matches[i].coordinate];
      }
      i := i + 1;
    }
    assert matches[1..i] == matches[1..];
    return Ok(location.View());
  }

  /** In a loaded store a postal id matches at most one location, so answering it with the
      first match, as Get does, gives what listing and folding its matches would. */
  lemma {:induction false} PostalGetIsFold(rows: seq<seq<string>>, parseFloat: ParseFloat, id: LocationId)
    requires id.IsPostal()
    ensures var matches := Select(LoadRows(rows, parseFloat).store, Dispatch(id).value, true);
      && |matches| <= 1
      && (matches != [] ==> GetSpec(LoadRows(rows, parseFloat).store, id) == Ok(FoldMatches(matches)))
  {
    var store := LoadRows(rows, parseFloat).store;
    DispatchByKind(id);
    var q := Dispatch(id).value;
    var matches := Select(store, q, true);
    SizeCountsStore(rows, parseFloat);
    SelectUnique(store, q, true, PrimaryKey);
    StoredLowerCase(rows, parseFloat);
    var k := (ToLower(id.country), ToLower(id.postalCode));
    forall y | y in matches ensures PrimaryKey(y) == k {
      assert y in store;
    }
    AtMostOneUnderKey(matches, PrimaryKey, k);
  }
}
