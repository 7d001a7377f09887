/** Model of geonames/db.go: the GeoNames database kept in go-memdb behind a ristretto cache.
    Open loads the single member of the export row by row; Get answers a location id from the
    cache, or from the index the id's kind selects, folding all matches into one location. */
module GeonamesDb {
  import opened Wrappers
  import opened GoStrings
  import opened GeonamesLocation
  import opened Dataset
  import opened TtlCache
  import opened Stores
  import opened LocationIndex

  /** The unique "id" index: country and postal code. */
  function IdKey(r: Record): (string, string) {
    (r.country, r.postalCode)
  }

  /** The stored location for a row that passed RowError: columns 0, 1, 2, 4 and 5 lower-cased,
      the coordinate from columns 9 and 10. */
  function RowLocation(row: seq<string>, parseFloat: ParseFloat): (r: Record)
    requires RowError(row, parseFloat).None?
  {
    var c := Coordinates(row, parseFloat).value;
    Record(Coordinate(c.0, c.1), ToLower(row[0]), ToLower(row[1]), ToLower(row[2]),
      ToLower(row[4]), ToLower(row[5]))
  }

  /** The text fields of a stored location are lower-case; its point is columns 9 and 10. */
  lemma {:induction false} RowLocationFields(row: seq<string>, parseFloat: ParseFloat)
    requires RowError(row, parseFloat).None?
    ensures var r := RowLocation(row, parseFloat);
      && IsLower(r.country) && IsLower(r.postalCode) && IsLower(r.city)
      && IsLower(r.subdivision1) && IsLower(r.subdivision2)
      && r.coordinate == Coordinate(parseFloat(row[9]).value, parseFloat(row[10]).value)
  {
    LowerIdempotent(row[0]);
    LowerIdempotent(row[1]);
    LowerIdempotent(row[2]);
    LowerIdempotent(row[4]);
    LowerIdempotent(row[5]);
  }

  /** The "id" and "country" indexes have no AllowMissing, so go-memdb indexes a location only
      when its country and its postal code are both non-empty. */
  predicate HasIdValue(r: Record) {
    r.country != "" && r.postalCode != ""
  }

  /** What stops the row loop at a row: its column count or coordinate error, or else the
      insert's refusal of a location with an empty country or postal code. */
  function RowFailure(row: seq<string>, parseFloat: ParseFloat): (r: Option<Error>)
    ensures RowError(row, parseFloat).Some? ==> r == RowError(row, parseFloat)
    ensures RowError(row, parseFloat).None? ==>
      (r.None? <==> row[0] != "" && row[1] != "") && (r.Some? ==> r.value == MissingPrimaryIndex)
  {
    match RowError(row, parseFloat)
    case Some(e) => Some(e)
    case None =>
      LowerEmpty(row[0]);
      LowerEmpty(row[1]);
      if HasIdValue(RowLocation(row, parseFloat)) then None else Some(MissingPrimaryIndex)
  }

  datatype Load = Loaded(store: seq<Record>) | Aborted(error: Error)

  /** The effect of the row loop on the rows read so far: each row is inserted, replacing an
      earlier row with the same country and postal code, until the first bad row aborts,
      whether it is refused by RowError or by the insert. */
  function LoadRows(rows: seq<seq<string>>, parseFloat: ParseFloat): Load
    decreases |rows|
  {
    if rows == [] then Loaded([])
    else
      match LoadRows(rows[..|rows| - 1], parseFloat)
      case Aborted(e) => Aborted(e)
      case Loaded(store) =>
        var row := rows[|rows| - 1];
        match RowError(row, parseFloat)
        case Some(e) => Aborted(e)
        case None =>
          var x := RowLocation(row, parseFloat);
          match MemdbInsert(store, x, IdKey, HasIdValue(x))
          case Err(e) => Aborted(e)
          case Ok(store') => Loaded(store')
  }

  /** What Open makes of the archive: the committed store, or the error it returns. */
  function OpenSpec(archive: Archive, parseFloat: ParseFloat): Result<seq<Record>> {
    match SingleMember(archive)
    case Err(e) => Err(e)
    case Ok(table) =>
      match LoadRows(table.rows, parseFloat)
      case Aborted(e) => Err(e)
      case Loaded(store) => if table.failed then Err(ReadFailed) else Ok(store)
  }

  /** The row loop of Open. */
  method LoadTable(table: Table, parseFloat: ParseFloat) returns (r: Result<seq<Record>>)
    ensures r == OpenSpec(Ok([table]), parseFloat)
  {
    var store: seq<Record> := [];
    var i := 0;
    while i < |table.rows|
      invariant 0 <= i <= |table.rows|
      invariant LoadRows(table.rows[..i], parseFloat) == Loaded(store)
    {
      var row := table.rows[i];
      assert table.rows[..i + 1][..i] == table.rows[..i];
      var e := CheckRow(row, parseFloat);
      if e.Some? {
        AbortPersists(table.rows, i + 1, parseFloat);
        return Err(e.value);
      }
      var location := RowLocation(row, parseFloat);
      var inserted := MemdbInsert(store, location, IdKey, HasIdValue(location));
      if inserted.Err? {
        AbortPersists(table.rows, i + 1, parseFloat);
        return Err(inserted.error);
      }
      store := inserted.value;
      i := i + 1;
    }
    assert table.rows[..i] == table.rows;
    if table.failed {
      return Err(ReadFailed);
    }
    return Ok(store);
  }

  /** Once the loop has aborted, later rows do not change the outcome. */
  lemma {:induction false} AbortPersists(rows: seq<seq<string>>, i: nat, parseFloat: ParseFloat)
    requires i <= |rows| && LoadRows(rows[..i], parseFloat).Aborted?
    ensures LoadRows(rows, parseFloat) == LoadRows(rows[..i], parseFloat)
    decreases |rows| - i
  {
    if i < |rows| {
      assert rows[..i + 1][..i] == rows[..i];
      AbortPersists(rows, i + 1, parseFloat);
    } else {
      assert rows[..i] == rows;
    }
  }

  /** A load goes through exactly when every row is good: 12 columns, both coordinates, and
      a non-empty country and postal code. */
  lemma {:induction false} LoadedIffRowsGood(rows: seq<seq<string>>, parseFloat: ParseFloat)
    ensures LoadRows(rows, parseFloat).Loaded? <==>
      forall j :: 0 <= j < |rows| ==> RowFailure(rows[j], parseFloat).None?
    decreases |rows|
  {
    if rows != [] {
      var init := rows[..|rows| - 1];
      LoadedIffRowsGood(init, parseFloat);
      assert forall j :: 0 <= j < |init| ==> init[j] == rows[j];
    }
  }

  /** A wrong column count, an unparsable coordinate or an empty country or postal code stops
      Open with the error of the first bad row, whatever the rows after it hold. */
  lemma {:induction false} AbortsAtFirstBadRow(rows: seq<seq<string>>, i: int, parseFloat: ParseFloat)
    requires 0 <= i < |rows| && RowFailure(rows[i], parseFloat).Some?
    requires forall j :: 0 <= j < i ==> RowFailure(rows[j], parseFloat).None?
    ensures LoadRows(rows, parseFloat) == Aborted(RowFailure(rows[i], parseFloat).value)
  {
    var prefix := rows[..i + 1];
    LoadedIffRowsGood(prefix[..i], parseFloat);
    assert forall j :: 0 <= j < i ==> prefix[..i][j] == rows[j];
    AbortPersists(rows, i + 1, parseFloat);
  }

  /** The loaded store holds one location per country and postal code. */
  lemma {:induction false} LoadedUnique(rows: seq<seq<string>>, parseFloat: ParseFloat)
    requires LoadRows(rows, parseFloat).Loaded?
    ensures UniqueKeys(LoadRows(rows, parseFloat).store, IdKey)
    decreases |rows|
  {
    if rows != [] {
      LoadedUnique(rows[..|rows| - 1], parseFloat);
      UpsertUnique(LoadRows(rows[..|rows| - 1], parseFloat).store, RowLocation(rows[|rows| - 1], parseFloat), IdKey);
    }
  }

  /** Each stored location is the location of some row. */
  lemma {:induction false} LoadedFromRows(rows: seq<seq<string>>, parseFloat: ParseFloat)
    requires LoadRows(rows, parseFloat).Loaded?
    ensures forall y :: y in LoadRows(rows, parseFloat).store ==>
      exists j :: 0 <= j < |rows| && RowError(rows[j], parseFloat).None? && y == RowLocation(rows[j], parseFloat)
    decreases |rows|
  {
    if rows != [] {
      var n := |rows| - 1;
      var init := rows[..n];
      LoadedFromRows(init, parseFloat);
      var x := RowLocation(rows[n], parseFloat);
      forall y | y in LoadRows(rows, parseFloat).store
        ensures exists j :: 0 <= j < |rows| && RowError(rows[j], parseFloat).None? && y == RowLocation(rows[j], parseFloat)
      {
        if y != x {
          var j :| 0 <= j < n && RowError(init[j], parseFloat).None? && y == RowLocation(init[j], parseFloat);
          assert rows[j] == init[j];
        }
      }
    }
  }

  /** Row j of `rows` is good, and `store` holds the location of row j or of a later row with
      the same country and postal code. */
  predicate Covered(rows: seq<seq<string>>, store: seq<Record>, j: int, parseFloat: ParseFloat)
    requires 0 <= j < |rows|
  {
    && RowError(rows[j], parseFloat).None?
    && exists k ::
      && j <= k < |rows| && RowError(rows[k], parseFloat).None?
      && RowLocation(rows[k], parseFloat) in store
      && IdKey(RowLocation(rows[k], parseFloat)) == IdKey(RowLocation(rows[j], parseFloat))
  }

  /** For every row the store holds the location of that row or of a later row with the same
      country and postal code: a later row replaces an earlier one. */
  lemma {:induction false} LoadedCoversRows(rows: seq<seq<string>>, parseFloat: ParseFloat)
    requires LoadRows(rows, parseFloat).Loaded?
    ensures forall j :: 0 <= j < |rows| ==> Covered(rows, LoadRows(rows, parseFloat).store, j, parseFloat)
    decreases |rows|
  {
    if rows != [] {
      var n := |rows| - 1;
      LoadedCoversRows(rows[..n], parseFloat);
      forall j | 0 <= j < |rows|
        ensures Covered(rows, LoadRows(rows, parseFloat).store, j, parseFloat)
      {
        CoveredStep(rows, j, parseFloat);
      }
    }
  }

  lemma {:induction false} CoveredStep(rows: seq<seq<string>>, j: int, parseFloat: ParseFloat)
    requires 0 <= j < |rows| && LoadRows(rows, parseFloat).Loaded?
    requires j < |rows| - 1 ==> Covered(rows[..|rows| - 1], LoadRows(rows[..|rows| - 1], parseFloat).store, j, parseFloat)
    ensures Covered(rows, LoadRows(rows, parseFloat).store, j, parseFloat)
  {
    var n := |rows| - 1;
    var init := rows[..n];
    var prev := LoadRows(init, parseFloat).store;
    var x := RowLocation(rows[n], parseFloat);
    var store := LoadRows(rows, parseFloat).store;
    assert store == Upsert(prev, x, IdKey);
    if j < n {
      var k :|
        && j <= k < n && RowError(init[k], parseFloat).None?
        && RowLocation(init[k], parseFloat) in prev
        && IdKey(RowLocation(init[k], parseFloat)) == IdKey(RowLocation(init[j], parseFloat));
      assert rows[k] == init[k] && rows[j] == init[j];
      if IdKey(RowLocation(rows[k], parseFloat)) == IdKey(x) {
        assert x in store;
      } else {
        assert RowLocation(rows[k], parseFloat) in store;
      }
    } else {
      assert x in store;
    }
  }

  /** What the cache holds for an id: the error or the location answered last time. */
  datatype Cached = CachedError(error: Error) | CachedLocation(location: Fence)

  /** The location Get builds from its matches: the first match, with every match, the first
      included, added to its bounder. */
  function Aggregate(matches: seq<Record>): (f: Fence)
    requires matches != []
    ensures f.record == matches[0]
    ensures Points(f.bounder) == Coords(matches) && f.bounder.Some?
  {
    Fence(matches[0], Some(Coords(matches)))
  }

  /** What Get answers, and the cache it leaves, for an id at instant `now`. */
  function GetSpec(store: seq<Record>, cache: Cache<Cached>, id: LocationId, now: int): (Result<Fence>, Cache<Cached>) {
    var key := String(id);
    var hit: Option<Cached> := Lookup(cache, key, now);
    match hit
    case Some(CachedError(e)) => (Err(e), cache)
    case Some(CachedLocation(f)) => (Ok(f), cache)
    case None =>
      match Dispatch(id)
      case Err(e) => (Err(e), cache)
      case Ok(q) =>
        var matches := Select(store, q, false);
        if matches == [] then
          (Err(NoContent("")), TtlCache.Store(cache, key, CachedError(NoContent("")), NegativeTtl, now))
        else
          (Ok(Aggregate(matches)), TtlCache.Store(cache, key, CachedLocation(Aggregate(matches)), PositiveTtl, now))
  }

  /** The cache never holds the empty key, which is the text of an id of no kind. */
  predicate CacheValid(cache: Cache<Cached>) {
    "" !in cache
  }

  class DB {
    var store: seq<Record>
    var cache: Cache<Cached>

    constructor (store: seq<Record>)
      ensures this.store == store && cache == map[]
    {
      this.store := store;
      cache := map[];
    }

    predicate Valid()
      reads this
    {
      CacheValid(cache)
    }

    /** DB.Get at instant `now`. */
    method Get(id: LocationId, now: int) returns (r: Result<Fence>)
      modifies this`cache
      ensures (r, cache) == GetSpec(store, old(cache), id, now)
      ensures old(Valid()) ==> Valid()
    {
      var key := String(id);
      var hit := Lookup(cache, key, now);
      if hit.Some? {
        match hit.value
        case CachedError(e) => return Err(e);
        case CachedLocation(f) => return Ok(f);
      }
      var query := Dispatch(id);
      if query.Err? {
        return Err(query.error);
      }
      var matches := Select(store, query.value, false);
      var location: Location? := null;
      var i := 0;
      while i < |matches|
        invariant 0 <= i <= |matches|
        invariant location == null <==> i == 0
        invariant location != null ==> fresh(location)
        invariant location != null ==> location.View() == Fence(matches[0], Some(Coords(matches[..i])))
        invariant cache == old(cache)
      {
        if location == null {
          location := new Location(matches[i]);
        }
        location.Add(matches[i]);
        assert Coords(matches[..i + 1]) == Coords(matches[..i]) + [matches[i].coordinate];
        i := i + 1;
      }
      if location == null {
        var err := NoContent("");
        cache := TtlCache.Store(cache, key, CachedError(err), NegativeTtl, now);
        return Err(err);
      }
      assert matches[..i] == matches;
      var fence := location.View();
      cache := TtlCache.Store(cache, key, CachedLocation(fence), PositiveTtl, now);
      return Ok(fence);
    }
  }

  /** Open: the store of the single member's rows and an empty cache, or the error. */
  method Open(archive: Archive, parseFloat: ParseFloat) returns (r: Result<DB>)
    ensures r.Err? <==> OpenSpec(archive, parseFloat).Err?
    ensures r.Err? ==> r.error == OpenSpec(archive, parseFloat).error
    ensures r.Ok? ==> fresh(r.value) && r.value.store == OpenSpec(archive, parseFloat).value
    ensures r.Ok? ==> r.value.cache == map[] && r.value.Valid()
  {
    var member := SingleMember(archive);
    if member.Err? {
      return Err(member.error);
    }
    var loaded := LoadTable(member.value, parseFloat);
    if loaded.Err? {
      return Err(loaded.error);
    }
    var db := new DB(loaded.value);
    return Ok(db);
  }

  /** A cached answer is returned as it is, without reading the index, and the cache is left
      alone. */
  lemma {:induction false} CacheHit(store: seq<Record>, cache: Cache<Cached>, id: LocationId, now: int)
    requires Lookup(cache, String(id), now).Some?
    ensures GetSpec(store, cache, id, now).1 == cache
    ensures GetSpec(store, cache, id, now).0 ==
      match cache[String(id)].value
      case CachedError(e) => Err(e)
      case CachedLocation(f) => Ok(f)
  {
  }

  /** An id of no kind gets "bad id" and is never cached. */
  lemma {:induction false} BadIdNotCached(store: seq<Record>, cache: Cache<Cached>, id: LocationId, now: int)
    requires CacheValid(cache) && Kinds(id) == {}
    ensures GetSpec(store, cache, id, now) == (Err(BadId), cache)
  {
  }

  /** A miss with no match caches NoContent for 90 minutes; a miss with matches caches their
      aggregate for 30 minutes, under the id's text. */
  lemma {:induction false} MissCached(store: seq<Record>, cache: Cache<Cached>, id: LocationId, now: int)
    requires Lookup(cache, String(id), now).None? && Kinds(id) != {}
    ensures var matches := Select(store, Dispatch(id).value, false);
      var (r, cache') := GetSpec(store, cache, id, now);
      && String(id) != ""
      && (matches == [] ==>
            r == Err(NoContent("")) &&
            cache' == cache[String(id) := Entry(CachedError(NoContent("")), now + 90 * 60)])
      && (matches != [] ==>
            r == Ok(Aggregate(matches)) &&
            cache' == cache[String(id) := Entry(CachedLocation(Aggregate(matches)), now + 30 * 60)])
  {
  }

  /** Get keeps the cache valid, and a second Get of the same id within the time to live gives
      the same answer without changing the cache again. */
  lemma {:induction false} GetRepeats(store: seq<Record>, cache: Cache<Cached>, id: LocationId, now: int, later: int)
    requires CacheValid(cache) && now <= later < now + 30 * 60
    ensures CacheValid(GetSpec(store, cache, id, now).1)
    ensures var (r, cache') := GetSpec(store, cache, id, now);
      Lookup(cache, String(id), now).None? ==> GetSpec(store, cache', id, later) == (r, cache')
  {
    var (r, cache') := GetSpec(store, cache, id, now);
    if Lookup(cache, String(id), now).None? && Kinds(id) != {} {
      var key := String(id);
      assert key in cache' && now < cache'[key].expires;
    }
  }

  /** PostalCode keeps the postal code as given while Open lower-cases column 1, and go-memdb
      compares exactly: a postal id whose code has an upper-case letter selects nothing. */
  lemma {:induction false} UpperCasePostalSelectsNothing(rows: seq<seq<string>>, parseFloat: ParseFloat, country: string, postal: string)
    requires LoadRows(rows, parseFloat).Loaded?
    requires postal != "" && !IsLower(postal)
    ensures PostalCode(country, postal).IsPostal()
    ensures Select(LoadRows(rows, parseFloat).store, Dispatch(PostalCode(country, postal)).value, false) == []
  {
    var id := PostalCode(country, postal);
    ConstructorKinds(country, "", "", "", postal);
    DispatchByKind(id);
    var store := LoadRows(rows, parseFloat).store;
    LoadedFromRows(rows, parseFloat);
    var matches := Select(store, Dispatch(id).value, false);
    if matches != [] {
      var y := matches[0];
      assert y in store;
      var j :| 0 <= j < |rows| && RowError(rows[j], parseFloat).None? && y == RowLocation(rows[j], parseFloat);
      RowLocationFields(rows[j], parseFloat);
      assert false;
    }
  }
}
