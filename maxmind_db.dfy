/** Model of maxmind/db.go: a geoip2 reader behind a ristretto cache that keeps both answers,
    found cities for 30 minutes and "no content" for 90. */
module MaxmindDb {
  import opened Wrappers
  import opened TtlCache
  import opened GeoIp

  /** What the cache holds for an address: the error or the city answered last time. */
  datatype Cached = CachedError(error: Error) | CachedCity(city: City)

  /** What Get answers, and the cache it leaves, for an address at instant `now`. A reader
      error is passed on and not cached. */
  function GetSpec(database: Database, closed: bool, cache: Cache<Cached>, ip: Ip, now: int): (Result<City>, Cache<Cached>) {
    var hit: Option<Cached> := Lookup(cache, ip.text, now);
    match hit
    case Some(CachedError(e)) => (Err(e), cache)
    case Some(CachedCity(c)) => (Ok(c), cache)
    case None =>
      match LookupCity(database, closed, ip)
      case Err(e) => (Err(e), cache)
      case Ok(c) =>
        if !Found(c) then
          (Err(NoContent("")), TtlCache.Store(cache, ip.text, CachedError(NoContent("")), NegativeTtl, now))
        else
          (Ok(c.value), TtlCache.Store(cache, ip.text, CachedCity(c.value), PositiveTtl, now))
  }

  class DB {
    const reader: Reader
    var cache: Cache<Cached>

    constructor (reader: Reader)
      ensures this.reader == reader && cache == map[]
    {
      this.reader := reader;
      cache := map[];
    }

    /** DB.Get at instant `now`. */
    method Get(ip: Ip, now: int) returns (r: Result<City>)
      modifies this`cache
      ensures (r, cache) == GetSpec(reader.database, reader.closed, old(cache), ip, now)
    {
      var hit := Lookup(cache, ip.text, now);
      if hit.Some? {
        match hit.value
        case CachedError(e) => return Err(e);
        case CachedCity(c) => return Ok(c);
      }
      var city := reader.City(ip);
      if city.Err? {
        return Err(city.error);
      }
      if city.value.None? || city.value.value.geoNameId == 0 {
        var err := NoContent("");
        cache := TtlCache.Store(cache, ip.text, CachedError(err), NegativeTtl, now);
        return Err(err);
      }
      cache := TtlCache.Store(cache, ip.text, CachedCity(city.value.value), PositiveTtl, now);
      return Ok(city.value.value);
    }

    /** DB.Close closes the reader; the cache is kept. */
    method Close()
      modifies reader
      ensures reader.closed
    {
      reader.Close();
    }
  }

  /** Open: the first member whose name does not start with a dot, read as a city database,
      behind an empty cache. */
  method Open(tarball: Tarball) returns (r: Result<DB>)
    ensures r.Err? <==> OpenDatabase(tarball, Visible).Err?
    ensures r.Err? ==> r.error == OpenDatabase(tarball, Visible).error
    ensures r.Ok? ==> fresh(r.value) && fresh(r.value.reader) && r.value.cache == map[]
    ensures r.Ok? ==> r.value.reader.database == OpenDatabase(tarball, Visible).value && !r.value.reader.closed
  {
    if tarball.Err? {
      return Err(tarball.error);
    }
    var database := ScanMembers(tarball.value, Visible);
    if database.Err? {
      return Err(database.error);
    }
    var reader := new Reader(database.value);
    var db := new DB(reader);
    return Ok(db);
  }

  /** An address the reader has no city for is answered "no content" from the cache for the
      next 90 minutes, whatever the reader would say by then, closed or not. */
  lemma {:induction false} NotFoundCached(database: Database, closed: bool, database': Database, closed': bool,
                                          cache: Cache<Cached>, ip: Ip, now: int, later: int)
    requires Lookup(cache, ip.text, now).None?
    requires LookupCity(database, closed, ip).Ok? && !Found(LookupCity(database, closed, ip).value)
    requires now <= later < now + 90 * 60
    ensures var (r, cache') := GetSpec(database, closed, cache, ip, now);
      && r == Err(NoContent(""))
      && GetSpec(database', closed', cache', ip, later) == (r, cache')
  {
  }

  /** A found city is answered from the cache for the next 30 minutes, whatever the reader
      would say by then, closed or not. */
  lemma {:induction false} FoundCached(database: Database, closed: bool, database': Database, closed': bool,
                                       cache: Cache<Cached>, ip: Ip, now: int, later: int)
    requires Lookup(cache, ip.text, now).None?
    requires LookupCity(database, closed, ip).Ok? && Found(LookupCity(database, closed, ip).value)
    requires now <= later < now + 30 * 60
    ensures var (r, cache') := GetSpec(database, closed, cache, ip, now);
      && r == Ok(LookupCity(database, closed, ip).value.value)
      && GetSpec(database', closed', cache', ip, later) == (r, cache')
  {
  }

  /** A reader error, a closed reader's included, leaves the cache as it was: the next Get asks
      the reader again. */
  lemma {:induction false} ReaderErrorNotCached(database: Database, closed: bool, cache: Cache<Cached>, ip: Ip, now: int)
    requires Lookup(cache, ip.text, now).None? && LookupCity(database, closed, ip).Err?
    ensures GetSpec(database, closed, cache, ip, now) == (Err(LookupCity(database, closed, ip).error), cache)
    ensures closed ==> GetSpec(database, closed, cache, ip, now).0 == Err(ReaderClosed)
  {
  }
}
