/** Model of way_get.go: the lookups of the Radar service of way.go. `parseIp` stands for
    net.ParseIP. */
module WayGet {
  import opened Wrappers
  import opened GoStrings
  import opened LocationIndex
  import opened Way
  import GeonamesLocation
  import GeoIp
  import GeonamesClient
  import MaxmindClient

  /** IP: an address that does not parse is invalid; otherwise mmdb answers, and a city it
      finds becomes a Location with the country code upper-cased and no bounder. */
  method IP(r: Radar, addr: string, parseIp: string -> Option<GeoIp.Ip>, now: int)
    returns (res: Result<GeonamesLocation.Fence>)
    modifies r.maxmind
    ensures parseIp(addr).None? ==> res == Err(InvalidIp) && (r.maxmind != null ==> r.maxmind.cache == old(r.maxmind.cache))
    ensures parseIp(addr).Some? && r.maxmind == null ==> res == Err(NoContent("client not ready"))
    ensures parseIp(addr).Some? && r.maxmind != null ==>
      var (found, cache) := GeoIp.CachedLookup(r.maxmind.reader.database, r.maxmind.reader.closed, old(r.maxmind.cache), parseIp(addr).value, now);
      && r.maxmind.cache == cache
      && (found.Err? ==> res == Err(found.error))
      && (found.Ok? ==> res == Ok(GeonamesLocation.Fence(GeoIp.IpRecord(found.value, ToUpper(found.value.countryIsoCode)), None)))
    ensures res.Ok? ==> IsUpper(res.value.record.country)
  {
    var ip := parseIp(addr);
    if ip.None? {
      return Err(InvalidIp);
    }
    var city := MaxmindClient.Get(r.maxmind, ip.value, now);
    if city.Err? {
      return Err(city.error);
    }
    UpperIdempotent(city.value.countryIsoCode);
    return Ok(GeonamesLocation.Fence(GeoIp.IpRecord(city.value, ToUpper(city.value.countryIsoCode)), None));
  }

  /** PSD: the primary-subdivision index with the key lower-cased, or, with no
      subdivision, the country lookup. */
  method PSD(r: Radar, country: string, subdivision1: string) returns (res: Result<GeonamesLocation.Fence>)
    ensures r.geonames == null ==> res == Err(NotFound("client not ready"))
    ensures r.geonames != null && subdivision1 != "" ==>
      res == GeonamesClient.Answer(r.geonames.store, PrimaryQuery(ToLower(country), ToLower(subdivision1)))
    ensures r.geonames != null && subdivision1 == "" ==> res == GeonamesClient.GetSpec(r.geonames.store, GeonamesLocation.Country(country))
  {
    ConstructorQueries(country, subdivision1, "", "", "");
    res := GeonamesClient.Get(r.geonames, GeonamesLocation.Primary(country, subdivision1));
  }

  /** City: the city index with the key lower-cased, or, with no city, the primary-subdivision
      lookup. */
  method City(r: Radar, country: string, subdivision1: string, city: string) returns (res: Result<GeonamesLocation.Fence>)
    ensures r.geonames == null ==> res == Err(NotFound("client not ready"))
    ensures r.geonames != null && city != "" ==>
      res == GeonamesClient.Answer(r.geonames.store, CityQuery(ToLower(country), ToLower(subdivision1), ToLower(city)))
    ensures r.geonames != null && city == "" ==> res == GeonamesClient.GetSpec(r.geonames.store, GeonamesLocation.Primary(country, subdivision1))
  {
    ConstructorQueries(country, subdivision1, "", city, "");
    res := GeonamesClient.Get(r.geonames, GeonamesLocation.City(country, subdivision1, city));
  }

  /** Postal: the postal index with the country lower-cased and the code as given, or, with
      no code, the country lookup. */
  method Postal(r: Radar, country: string, postal: string) returns (res: Result<GeonamesLocation.Fence>)
    ensures r.geonames == null ==> res == Err(NotFound("client not ready"))
    ensures r.geonames != null && postal != "" ==> res == GeonamesClient.Answer(r.geonames.store, PostalQuery(ToLower(country), postal))
    ensures r.geonames != null && postal == "" ==> res == GeonamesClient.GetSpec(r.geonames.store, GeonamesLocation.Country(country))
  {
    ConstructorQueries(country, "", "", "", postal);
    res := GeonamesClient.Get(r.geonames, GeonamesLocation.PostalCode(country, postal));
  }

  /** SSD: the secondary-subdivision index with the key lower-cased, or,
      with no second subdivision, the primary-subdivision lookup. */
  method SSD(r: Radar, country: string, subdivision1: string, subdivision2: string)
    returns (res: Result<GeonamesLocation.Fence>)
    ensures r.geonames == null ==> res == Err(NotFound("client not ready"))
    ensures r.geonames != null && subdivision2 != "" ==>
      res == GeonamesClient.Answer(r.geonames.store, SecondaryQuery(ToLower(country), ToLower(subdivision1), ToLower(subdivision2)))
    ensures r.geonames != null && subdivision2 == "" ==>
      res == GeonamesClient.GetSpec(r.geonames.store, GeonamesLocation.Primary(country, subdivision1))
  {
    ConstructorQueries(country, subdivision1, subdivision2, "", "");
    res := GeonamesClient.Get(r.geonames, GeonamesLocation.Secondary(country, subdivision1, subdivision2));
  }

  /** Country: the country index with the key lower-cased; no country is a bad id. */
  method Country(r: Radar, country: string) returns (res: Result<GeonamesLocation.Fence>)
    ensures r.geonames == null ==> res == Err(NotFound("client not ready"))
    ensures r.geonames != null && country != "" ==> res == GeonamesClient.Answer(r.geonames.store, CountryQuery(ToLower(country)))
    ensures r.geonames != null && country == "" ==> res == Err(BadId)
  {
    ConstructorQueries(country, "", "", "", "");
    res := GeonamesClient.Get(r.geonames, GeonamesLocation.Country(country));
  }
}
