/** Model of maxmind/client.go: a geoip2 reader behind an ark in-memory store that keeps found
    cities for 30 minutes. */
module MaxmindClient {
  import opened Wrappers
  import opened TtlCache
  import opened GeoIp

  class Client {
    var ipCount: int
    const reader: Reader
    var cache: Cache<City>

    constructor (reader: Reader)
      ensures this.reader == reader && ipCount == reader.database.nodeCount && cache == map[]
    {
      this.reader := reader;
      ipCount := reader.database.nodeCount;
      cache := map[];
    }

    /** Client.Close closes the reader. */
    method Close()
      modifies reader
      ensures reader.closed
    {
      reader.Close();
    }
  }

  /** Client.Get at instant `now`: a nil client is not ready. */
  method Get(c: Client?, ip: Ip, now: int) returns (r: Result<City>)
    modifies c
    ensures c == null ==> r == Err(NoContent("client not ready"))
    ensures c != null ==> (r, c.cache) == CachedLookup(c.reader.database, c.reader.closed, old(c.cache), ip, now)
    ensures c != null ==> c.ipCount == old(c.ipCount)
  {
    if c == null {
      return Err(NoContent("client not ready"));
    }
    var hit := Lookup(c.cache, ip.text, now);
    if hit.Some? {
      return Ok(hit.value);
    }
    var city := c.reader.City(ip);
    if city.Err? {
      return Err(city.error);
    }
    if city.value.None? || city.value.value.geoNameId == 0 {
      return Err(NoContent("not found"));
    }
    c.cache := TtlCache.Store(c.cache, ip.text, city.value.value, PositiveTtl, now);
    return Ok(city.value.value);
  }

  /** NewClient: the first member whose base name is a visible ".mmdb" file, read as a city
      database; IPCount is its node count. */
  method NewClient(tarball: Tarball) returns (r: Result<Client>)
    ensures r.Err? <==> OpenDatabase(tarball, MmdbFile).Err?
    ensures r.Err? ==> r.error == OpenDatabase(tarball, MmdbFile).error
    ensures r.Ok? ==> fresh(r.value) && fresh(r.value.reader) && r.value.cache == map[] && !r.value.reader.closed
    ensures r.Ok? ==> r.value.reader.database == OpenDatabase(tarball, MmdbFile).value
    ensures r.Ok? ==> r.value.ipCount == OpenDatabase(tarball, MmdbFile).value.nodeCount
  {
    if tarball.Err? {
      return Err(tarball.error);
    }
    var database := ScanMembers(tarball.value, MmdbFile);
    if database.Err? {
      return Err(database.error);
    }
    var reader := new Reader(database.value);
    var c := new Client(reader);
    return Ok(c);
  }
}
