/** Model of mmdb/db.go: a geoip2 reader behind an ark key-value store that keeps found cities
    for 30 minutes. */
module MmdbDb {
  import opened Wrappers
  import opened TtlCache
  import opened GeoIp

  class DB {
    var size: int
    const reader: Reader
    var cache: Cache<City>

    constructor (reader: Reader)
      ensures this.reader == reader && size == reader.database.nodeCount && cache == map[]
    {
      this.reader := reader;
      size := reader.database.nodeCount;
      cache := map[];
    }

    /** DB.Close closes the reader. */
    method Close()
      modifies reader
      ensures reader.closed
    {
      reader.Close();
    }
  }

  /** DB.Get at instant `now`: a nil database is not ready. */
  method Get(db: DB?, ip: Ip, now: int) returns (r: Result<City>)
    modifies db
    ensures db == null ==> r == Err(NoContent("db not ready"))
    ensures db != null ==> (r, db.cache) == CachedLookup(db.reader.database, db.reader.closed, old(db.cache), ip, now)
    ensures db != null ==> db.size == old(db.size)
  {
    if db == null {
      return Err(NoContent("db not ready"));
    }
    var hit := Lookup(db.cache, ip.text, now);
    if hit.Some? {
      return Ok(hit.value);
    }
    var city := db.reader.City(ip);
    if city.Err? {
      return Err(city.error);
    }
    if city.value.None? || city.value.value.geoNameId == 0 {
      return Err(NoContent("not found"));
    }
    db.cache := TtlCache.Store(db.cache, ip.text, city.value.value, PositiveTtl, now);
    return Ok(city.value.value);
  }

  /** Open: the first member whose base name is a visible ".mmdb" file, read as a city
      database; Size is its node count. */
  method Open(tarball: Tarball) returns (r: Result<DB>)
    ensures r.Err? <==> OpenDatabase(tarball, MmdbFile).Err?
    ensures r.Err? ==> r.error == OpenDatabase(tarball, MmdbFile).error
    ensures r.Ok? ==> fresh(r.value) && fresh(r.value.reader) && r.value.cache == map[] && !r.value.reader.closed
    ensures r.Ok? ==> r.value.reader.database == OpenDatabase(tarball, MmdbFile).value
    ensures r.Ok? ==> r.value.size == OpenDatabase(tarball, MmdbFile).value.nodeCount
  {
    if tarball.Err? {
      return Err(tarball.error);
    }
    var database := ScanMembers(tarball.value, MmdbFile);
    if database.Err? {
      return Err(database.error);
    }
    var reader := new Reader(database.value);
    var db := new DB(reader);
    return Ok(db);
  }
}
