/** Model of location_get.go: the lookups of the LocationService. Neither database is checked
    for nil before use, so each lookup requires the database it reads. `parseIp` stands for
    net.ParseIP. */
module LocationGet {
  import opened Wrappers
  import opened LocationIndex
  import opened LocationRefresh
  import GeonamesLocation
  import GeoIp
  import GeonamesDb
  import MaxmindDb

  /** IP: an address that does not parse is invalid; otherwise the MaxMind database answers,
      and a city it finds becomes a Location with the country code as the record has it and
      no bounder. */
  method IP(s: LocationService, addr: string, parseIp: string -> Option<GeoIp.Ip>, now: int)
    returns (res: Result<GeonamesLocation.Fence>)
    requires parseIp(addr).Some? ==> s.mdb != null
    modifies s.mdb
    ensures parseIp(addr).None? ==> res == Err(InvalidIp) && (s.mdb != null ==> s.mdb.cache == old(s.mdb.cache))
    ensures parseIp(addr).Some? ==>
      var (found, cache) := MaxmindDb.GetSpec(s.mdb.reader.database, s.mdb.reader.closed, old(s.mdb.cache), parseIp(addr).value, now);
      && s.mdb.cache == cache
      && (found.Err? ==> res == Err(found.error))
      && (found.Ok? ==> res == Ok(GeonamesLocation.Fence(GeoIp.IpRecord(found.value, found.value.countryIsoCode), None)))
  {
    var ip := parseIp(addr);
    if ip.None? {
      return Err(InvalidIp);
    }
    var city := s.mdb.Get(ip.value, now);
    if city.Err? {
      return Err(city.error);
    }
    return Ok(GeonamesLocation.Fence(GeoIp.IpRecord(city.value, city.value.countryIsoCode), None));
  }

  /** Primary: the database's answer for the primary-subdivision id, which with no
      subdivision is the country id. */
  method Primary(s: LocationService, country: string, subdivision1: string, now: int)
    returns (res: Result<GeonamesLocation.Fence>)
    requires s.gdb != null
    modifies s.gdb
    ensures (res, s.gdb.cache) == GeonamesDb.GetSpec(s.gdb.store, old(s.gdb.cache), GeonamesLocation.Primary(country, subdivision1), now)
    ensures subdivision1 == "" ==> GeonamesLocation.Primary(country, subdivision1) == GeonamesLocation.Country(country)
  {
    ConstructorQueries(country, subdivision1, "", "", "");
    res := s.gdb.Get(GeonamesLocation.Primary(country, subdivision1), now);
  }

  /** City: the database's answer for the city id, which with no city is the
      primary-subdivision id. */
  method City(s: LocationService, country: string, subdivision1: string, city: string, now: int)
    returns (res: Result<GeonamesLocation.Fence>)
    requires s.gdb != null
    modifies s.gdb
    ensures (res, s.gdb.cache) == GeonamesDb.GetSpec(s.gdb.store, old(s.gdb.cache), GeonamesLocation.City(country, subdivision1, city), now)
    ensures city == "" ==> GeonamesLocation.City(country, subdivision1, city) == GeonamesLocation.Primary(country, subdivision1)
  {
    ConstructorQueries(country, subdivision1, "", city, "");
    res := s.gdb.Get(GeonamesLocation.City(country, subdivision1, city), now);
  }

  /** Postal: the database's answer for the postal id, which with no code is the country id. */
  method Postal(s: LocationService, country: string, postal: string, now: int)
    returns (res: Result<GeonamesLocation.Fence>)
    requires s.gdb != null
    modifies s.gdb
    ensures (res, s.gdb.cache) == GeonamesDb.GetSpec(s.gdb.store, old(s.gdb.cache), GeonamesLocation.PostalCode(country, postal), now)
    ensures postal == "" ==> GeonamesLocation.PostalCode(country, postal) == GeonamesLocation.Country(country)
  {
    ConstructorQueries(country, "", "", "", postal);
    res := s.gdb.Get(GeonamesLocation.PostalCode(country, postal), now);
  }

  /** Secondary: the database's answer for the secondary-subdivision id, which with no second
      subdivision is the primary-subdivision id. */
  method Secondary(s: LocationService, country: string, subdivision1: string, subdivision2: string, now: int)
    returns (res: Result<GeonamesLocation.Fence>)
    requires s.gdb != null
    modifies s.gdb
    ensures (res, s.gdb.cache) ==
      GeonamesDb.GetSpec(s.gdb.store, old(s.gdb.cache), GeonamesLocation.Secondary(country, subdivision1, subdivision2), now)
    ensures subdivision2 == "" ==>
      GeonamesLocation.Secondary(country, subdivision1, subdivision2) == GeonamesLocation.Primary(country, subdivision1)
  {
    ConstructorQueries(country, subdivision1, subdivision2, "", "");
    res := s.gdb.Get(GeonamesLocation.Secondary(country, subdivision1, subdivision2), now);
  }

  /** Country: the database's answer for the country id; no country is a bad id, which is
      not cached. */
  method Country(s: LocationService, country: string, now: int) returns (res: Result<GeonamesLocation.Fence>)
    requires s.gdb != null
    modifies s.gdb
    ensures (res, s.gdb.cache) == GeonamesDb.GetSpec(s.gdb.store, old(s.gdb.cache), GeonamesLocation.Country(country), now)
    ensures country == "" && GeonamesDb.CacheValid(old(s.gdb.cache)) ==> res == Err(BadId) && s.gdb.cache == old(s.gdb.cache)
  {
    GeonamesLocation.ConstructorKinds(country, "", "", "", "");
    if country == "" && GeonamesDb.CacheValid(s.gdb.cache) {
      GeonamesDb.BadIdNotCached(s.gdb.store, s.gdb.cache, GeonamesLocation.Country(country), now);
    }
    res := s.gdb.Get(GeonamesLocation.Country(country), now);
  }
}
