/** Model of way_refresh.go: the refresh job of package way. The downloads are the parameters
    `archives` (the GeoNames zip at a URL) and `tarballs` (the MaxMind tarball at a URL); the
    timeout on them is not modelled. */
module WayRefresh {
  import opened Wrappers
  import opened Settings
  import opened Mailbox
  import opened Dataset
  import opened GeoIp
  import opened Way
  import GeonamesClient
  import MaxmindClient

  /** The GeoNames step: build a client and publish it, or send the error and keep the old
      one. */
  method RefreshGeonames(r: Radar, archive: Archive, countries: seq<string>, parseFloat: ParseFloat)
    returns (ok: bool)
    modifies r`geonames, r`errorSlot
    ensures var load := GeonamesClient.NewClientLoad(archive, countries, parseFloat);
      && (ok <==> load.error.None?)
      && (!ok ==> r.geonames == old(r.geonames) && r.errorSlot == Send(old(r.errorSlot), load.error.value))
      && (ok ==> r.geonames != null && fresh(r.geonames) && r.errorSlot == old(r.errorSlot))
      && (ok ==> r.geonames.store == load.store && r.geonames.locationCount == load.count)
  {
    var gc, err := GeonamesClient.NewClient(archive, countries, parseFloat);
    if err.Some? {
      r.SendError(err.value);
      return false;
    }
    r.geonames := gc;
    return true;
  }

  /** The MaxMind step: build a client, close the one it replaces and publish it, or send the
      error and keep the old one. */
  method RefreshMaxmind(r: Radar, tarball: Tarball)
    modifies r`maxmind, r`errorSlot, if r.maxmind != null then {r.maxmind.reader} else {}
    ensures var fetched := OpenDatabase(tarball, MmdbFile);
      fetched.Err? ==> r.maxmind == old(r.maxmind) && r.errorSlot == Send(old(r.errorSlot), fetched.error)
    ensures var fetched := OpenDatabase(tarball, MmdbFile);
      fetched.Ok? ==>
        && r.maxmind != null && fresh(r.maxmind) && r.maxmind.reader.database == fetched.value
        && !r.maxmind.reader.closed && r.maxmind.cache == map[] && r.errorSlot == old(r.errorSlot)
        && (old(r.maxmind) != null ==> old(r.maxmind).reader.closed)
  {
    var mc := MaxmindClient.NewClient(tarball);
    if mc.Err? {
      r.SendError(mc.error);
      return;
    }
    var next := mc.value;
    if r.maxmind != null {
      var prev := r.maxmind;
      assert prev.reader != next.reader;
      prev.Close();
    }
    r.maxmind := next;
  }

  /** The MaxMind step when it is wanted, at the URL with the license key substituted. */
  method RefreshMaxmindIfWanted(r: Radar, tarballs: string -> Tarball)
    modifies r`maxmind, r`errorSlot, if r.maxmind != null then {r.maxmind.reader} else {}
    ensures !MaxmindWanted(r.conf) ==> r.maxmind == old(r.maxmind) && r.errorSlot == old(r.errorSlot)
    ensures var fetched := OpenDatabase(tarballs(MaxmindUrl(r.conf)), MmdbFile);
      MaxmindWanted(r.conf) && fetched.Err? ==> r.maxmind == old(r.maxmind) && r.errorSlot == Send(old(r.errorSlot), fetched.error)
    ensures var fetched := OpenDatabase(tarballs(MaxmindUrl(r.conf)), MmdbFile);
      MaxmindWanted(r.conf) && fetched.Ok? ==>
        && r.maxmind != null && fresh(r.maxmind) && r.maxmind.reader.database == fetched.value
        && !r.maxmind.reader.closed && r.maxmind.cache == map[] && r.errorSlot == old(r.errorSlot)
        && (old(r.maxmind) != null ==> old(r.maxmind).reader.closed)
  {
    if MaxmindWanted(r.conf) {
      RefreshMaxmind(r, tarballs(MaxmindUrl(r.conf)));
    }
  }

  /** The body of a taken request: the GeoNames step, then, when it succeeded and MaxMind is
      wanted, the MaxMind step at the URL with the license key substituted. */
  method Reload(r: Radar, archives: string -> Archive, parseFloat: ParseFloat, tarballs: string -> Tarball)
    modifies r`geonames, r`maxmind, r`errorSlot, if r.maxmind != null then {r.maxmind.reader} else {}
    ensures var load := GeonamesClient.NewClientLoad(archives(r.conf.geonamesLocation), r.countries, parseFloat);
      load.error.Some? ==>
        r.geonames == old(r.geonames) && r.maxmind == old(r.maxmind) && r.errorSlot == Send(old(r.errorSlot), load.error.value)
    ensures var load := GeonamesClient.NewClientLoad(archives(r.conf.geonamesLocation), r.countries, parseFloat);
      load.error.None? ==>
        r.geonames != null && fresh(r.geonames) && r.geonames.store == load.store && r.geonames.locationCount == load.count
    ensures var ok := GeonamesClient.NewClientLoad(archives(r.conf.geonamesLocation), r.countries, parseFloat).error.None?;
      ok && !MaxmindWanted(r.conf) ==> r.maxmind == old(r.maxmind) && r.errorSlot == old(r.errorSlot)
    ensures var ok := GeonamesClient.NewClientLoad(archives(r.conf.geonamesLocation), r.countries, parseFloat).error.None?;
      var fetched := OpenDatabase(tarballs(MaxmindUrl(r.conf)), MmdbFile);
      ok && MaxmindWanted(r.conf) && fetched.Err? ==>
        r.maxmind == old(r.maxmind) && r.errorSlot == Send(old(r.errorSlot), fetched.error)
    ensures var ok := GeonamesClient.NewClientLoad(archives(r.conf.geonamesLocation), r.countries, parseFloat).error.None?;
      var fetched := OpenDatabase(tarballs(MaxmindUrl(r.conf)), MmdbFile);
      ok && MaxmindWanted(r.conf) && fetched.Ok? ==>
        && r.maxmind != null && fresh(r.maxmind) && r.maxmind.reader.database == fetched.value
        && !r.maxmind.reader.closed && r.maxmind.cache == map[] && r.errorSlot == old(r.errorSlot)
        && (old(r.maxmind) != null ==> old(r.maxmind).reader.closed)
  {
    var ok := RefreshGeonames(r, archives(r.conf.geonamesLocation), r.countries, parseFloat);
    if ok {
      RefreshMaxmindIfWanted(r, tarballs);
    }
  }

  /** refreshJob: with no request pending, nothing happens. Otherwise the request is taken,
      Reload runs, and the request's wait group is released on every path. */
  method RefreshJob(r: Radar, archives: string -> Archive, parseFloat: ParseFloat, tarballs: string -> Tarball)
    modifies r`pending, r`geonames, r`maxmind, r`errorSlot
    modifies if r.pending != null then {r.pending} else {}
    modifies if r.maxmind != null then {r.maxmind.reader} else {}
    ensures old(r.pending) == null ==>
      r.pending == null && r.geonames == old(r.geonames) && r.maxmind == old(r.maxmind) && r.errorSlot == old(r.errorSlot)
    ensures old(r.pending) != null ==> r.pending == null && old(r.pending).count == old(r.pending.count) - 1
    ensures var load := GeonamesClient.NewClientLoad(archives(r.conf.geonamesLocation), r.countries, parseFloat);
      old(r.pending) != null && load.error.Some? ==>
        r.geonames == old(r.geonames) && r.maxmind == old(r.maxmind) && r.errorSlot == Send(old(r.errorSlot), load.error.value)
    ensures var load := GeonamesClient.NewClientLoad(archives(r.conf.geonamesLocation), r.countries, parseFloat);
      old(r.pending) != null && load.error.None? ==>
        r.geonames != null && fresh(r.geonames) && r.geonames.store == load.store && r.geonames.locationCount == load.count
    ensures var ok := GeonamesClient.NewClientLoad(archives(r.conf.geonamesLocation), r.countries, parseFloat).error.None?;
      old(r.pending) != null && ok && !MaxmindWanted(r.conf) ==> r.maxmind == old(r.maxmind) && r.errorSlot == old(r.errorSlot)
    ensures var ok := GeonamesClient.NewClientLoad(archives(r.conf.geonamesLocation), r.countries, parseFloat).error.None?;
      var fetched := OpenDatabase(tarballs(MaxmindUrl(r.conf)), MmdbFile);
      old(r.pending) != null && ok && MaxmindWanted(r.conf) && fetched.Err? ==>
        r.maxmind == old(r.maxmind) && r.errorSlot == Send(old(r.errorSlot), fetched.error)
    ensures var ok := GeonamesClient.NewClientLoad(archives(r.conf.geonamesLocation), r.countries, parseFloat).error.None?;
      var fetched := OpenDatabase(tarballs(MaxmindUrl(r.conf)), MmdbFile);
      old(r.pending) != null && ok && MaxmindWanted(r.conf) && fetched.Ok? ==>
        && r.maxmind != null && fresh(r.maxmind) && r.maxmind.reader.database == fetched.value
        && !r.maxmind.reader.closed && r.maxmind.cache == map[] && r.errorSlot == old(r.errorSlot)
        && (old(r.maxmind) != null ==> old(r.maxmind).reader.closed)
  {
    var wg := r.pending;
    if wg == null {
      return;
    }
    r.pending := null;
    Reload(r, archives, parseFloat, tarballs);
    wg.Done();
  }
}
