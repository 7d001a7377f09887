/** Model of radar_get.go: the lookups of the Radar service of radar.go. The read lock they
    take is not modelled; `parseIp` stands for net.ParseIP. */
module RadarGet {
  import opened Wrappers
  import opened GoStrings
  import opened LocationIndex
  import opened RadarCore
  import GeonamesLocation
  import GeoIp
  import GndbDb
  import MmdbDb

  /** IP: an address that does not parse is invalid; otherwise mmdb answers, and a city it
      finds becomes a Location with the country code as the record has it and no bounder. */
  method IP(r: Radar, addr: string, parseIp: string -> Option<GeoIp.Ip>, now: int)
    returns (res: Result<GeonamesLocation.Fence>)
    modifies r.mdb
    ensures parseIp(addr).None? ==> res == Err(InvalidIp) && (r.mdb != null ==> r.mdb.cache == old(r.mdb.cache))
    ensures parseIp(addr).Some? && r.mdb == null ==> res == Err(NoContent("db not ready"))
    ensures parseIp(addr).Some? && r.mdb != null ==>
      var (found, cache) := GeoIp.CachedLookup(r.mdb.reader.database, r.mdb.reader.closed, old(r.mdb.cache), parseIp(addr).value, now);
      && r.mdb.cache == cache
      && (found.Err? ==> res == Err(found.error))
      && (found.Ok? ==> res == Ok(GeonamesLocation.Fence(GeoIp.IpRecord(found.value, found.value.countryIsoCode), None)))
  {
    var ip := parseIp(addr);
    if ip.None? {
      return Err(InvalidIp);
    }
    var city := MmdbDb.Get(r.mdb, ip.value, now);
    if city.Err? {
      return Err(city.error);
    }
    return Ok(GeonamesLocation.Fence(GeoIp.IpRecord(city.value, city.value.countryIsoCode), None));
  }

  /** PrimarySubdivision: the primary-subdivision index with the key lower-cased, or, with no
      subdivision, the country lookup. */
  method PrimarySubdivision(r: Radar, country: string, subdivision1: string) returns (res: Result<GeonamesLocation.Fence>)
    ensures r.gdb == null ==> res == Err(NoContent("db not ready"))
    ensures r.gdb != null && subdivision1 != "" ==>
      res == GndbDb.Answer(r.gdb.store, PrimaryQuery(ToLower(country), ToLower(subdivision1)))
    ensures r.gdb != null && subdivision1 == "" ==> res == GndbDb.GetSpec(r.gdb.store, GeonamesLocation.Country(country))
  {
    ConstructorQueries(country, subdivision1, "", "", "");
    res := GndbDb.Get(r.gdb, GeonamesLocation.Primary(country, subdivision1));
  }

  /** City: the city index with the key lower-cased, or, with no city, the primary-subdivision
      lookup. */
  method City(r: Radar, country: string, subdivision1: string, city: string) returns (res: Result<GeonamesLocation.Fence>)
    ensures r.gdb == null ==> res == Err(NoContent("db not ready"))
    ensures r.gdb != null && city != "" ==>
      res == GndbDb.Answer(r.gdb.store, CityQuery(ToLower(country), ToLower(subdivision1), ToLower(city)))
    ensures r.gdb != null && city == "" ==> res == GndbDb.GetSpec(r.gdb.store, GeonamesLocation.Primary(country, subdivision1))
  {
    ConstructorQueries(country, subdivision1, "", city, "");
    res := GndbDb.Get(r.gdb, GeonamesLocation.City(country, subdivision1, city));
  }

  /** Postal: the postal index with the country lower-cased and the code as given (so the
      first location under that code, without a bounder), or, with no code, the country
      lookup. */
  method Postal(r: Radar, country: string, postal: string) returns (res: Result<GeonamesLocation.Fence>)
    ensures r.gdb == null ==> res == Err(NoContent("db not ready"))
    ensures r.gdb != null && postal != "" ==> res == GndbDb.Answer(r.gdb.store, PostalQuery(ToLower(country), postal))
    ensures r.gdb != null && postal != "" && res.Ok? ==> res.value.bounder == None
    ensures r.gdb != null && postal == "" ==> res == GndbDb.GetSpec(r.gdb.store, GeonamesLocation.Country(country))
  {
    ConstructorQueries(country, "", "", "", postal);
    res := GndbDb.Get(r.gdb, GeonamesLocation.PostalCode(country, postal));
  }

  /** SecondarySubdivision: the secondary-subdivision index with the key lower-cased, or,
      with no second subdivision, the primary-subdivision lookup. */
  method SecondarySubdivision(r: Radar, country: string, subdivision1: string, subdivision2: string)
    returns (res: Result<GeonamesLocation.Fence>)
    ensures r.gdb == null ==> res == Err(NoContent("db not ready"))
    ensures r.gdb != null && subdivision2 != "" ==>
      res == GndbDb.Answer(r.gdb.store, SecondaryQuery(ToLower(country), ToLower(subdivision1), ToLower(subdivision2)))
    ensures r.gdb != null && subdivision2 == "" ==>
      res == GndbDb.GetSpec(r.gdb.store, GeonamesLocation.Primary(country, subdivision1))
  {
    ConstructorQueries(country, subdivision1, subdivision2, "", "");
    res := GndbDb.Get(r.gdb, GeonamesLocation.Secondary(country, subdivision1, subdivision2));
  }

  /** Country: the country index with the key lower-cased; no country is a bad id. */
  method Country(r: Radar, country: string) returns (res: Result<GeonamesLocation.Fence>)
    ensures r.gdb == null ==> res == Err(NoContent("db not ready"))
    ensures r.gdb != null && country != "" ==> res == GndbDb.Answer(r.gdb.store, CountryQuery(ToLower(country)))
    ensures r.gdb != null && country == "" ==> res == Err(BadId)
  {
    ConstructorQueries(country, "", "", "", "");
    res := GndbDb.Get(r.gdb, GeonamesLocation.Country(country));
  }
}
