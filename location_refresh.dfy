/** Model of location_refresh.go: the LocationService over a GeoNames database and a MaxMind
    database, and its Refresh. The downloads are the parameters `archives` (the GeoNames zip
    at a URL) and `tarballs` (the MaxMind tarball at a URL); the timeout on them is not
    modelled. */
module LocationRefresh {
  import opened Wrappers
  import opened Settings
  import opened Dataset
  import opened GeoIp
  import GeonamesDb
  import MaxmindDb

  /** The default wait for a refresh of this service: 60 seconds. */
  const DefaultRefreshTimeout: int := 60

  class LocationService {
    const conf: Config
    var gdb: GeonamesDb.DB?
    var mdb: MaxmindDb.DB?

    constructor (conf: Config)
      ensures this.conf == conf && gdb == null && mdb == null
    {
      this.conf := conf;
      gdb := null;
      mdb := null;
    }
  }

  /** The GeoNames step: open the database and publish it, or return the error and keep the
      old one. */
  method RefreshGeonames(s: LocationService, archive: Archive, parseFloat: ParseFloat) returns (err: Option<Error>)
    modifies s`gdb
    ensures var db := GeonamesDb.OpenSpec(archive, parseFloat);
      && (db.Err? ==> err == Some(db.error) && s.gdb == old(s.gdb))
      && (db.Ok? ==> err == None && s.gdb != null && fresh(s.gdb) && s.gdb.store == db.value)
      && (db.Ok? ==> s.gdb.cache == map[] && s.gdb.Valid())
  {
    var gdb := GeonamesDb.Open(archive, parseFloat);
    if gdb.Err? {
      return Some(gdb.error);
    }
    s.gdb := gdb.value;
    return None;
  }

  /** The MaxMind step: open the database, close the one it replaces and publish it, or
      return the error and keep the old one. */
  method RefreshMaxmind(s: LocationService, tarball: Tarball) returns (err: Option<Error>)
    modifies s`mdb, if s.mdb != null then {s.mdb.reader} else {}
    ensures var fetched := OpenDatabase(tarball, Visible);
      fetched.Err? ==> err == Some(fetched.error) && s.mdb == old(s.mdb)
    ensures var fetched := OpenDatabase(tarball, Visible);
      fetched.Ok? ==>
        && err == None && s.mdb != null && fresh(s.mdb) && s.mdb.reader.database == fetched.value
        && !s.mdb.reader.closed && s.mdb.cache == map[]
        && (old(s.mdb) != null ==> old(s.mdb).reader.closed)
  {
    var mdb := MaxmindDb.Open(tarball);
    if mdb.Err? {
      return Some(mdb.error);
    }
    var next := mdb.value;
    if s.mdb != null {
      var prev := s.mdb;
      assert prev.reader != next.reader;
      prev.Close();
    }
    s.mdb := next;
    return None;
  }

  /** Refresh: the GeoNames step, then, when it succeeded and MaxMind is wanted, the MaxMind
      step at the URL with the license key substituted. A MaxMind failure keeps the new
      GeoNames database. */
  method Refresh(s: LocationService, archives: string -> Archive, parseFloat: ParseFloat, tarballs: string -> Tarball)
    returns (err: Option<Error>)
    modifies s`gdb, s`mdb, if s.mdb != null then {s.mdb.reader} else {}
    ensures var db := GeonamesDb.OpenSpec(archives(s.conf.geonamesLocation), parseFloat);
      db.Err? ==> err == Some(db.error) && s.gdb == old(s.gdb) && s.mdb == old(s.mdb)
    ensures var db := GeonamesDb.OpenSpec(archives(s.conf.geonamesLocation), parseFloat);
      db.Ok? ==> s.gdb != null && fresh(s.gdb) && s.gdb.store == db.value && s.gdb.cache == map[] && s.gdb.Valid()
    ensures GeonamesDb.OpenSpec(archives(s.conf.geonamesLocation), parseFloat).Ok? && !MaxmindWanted(s.conf) ==>
      err == None && s.mdb == old(s.mdb)
    ensures var fetched := OpenDatabase(tarballs(MaxmindUrl(s.conf)), Visible);
      GeonamesDb.OpenSpec(archives(s.conf.geonamesLocation), parseFloat).Ok? && MaxmindWanted(s.conf) && fetched.Err? ==>
        err == Some(fetched.error) && s.mdb == old(s.mdb)
    ensures var fetched := OpenDatabase(tarballs(MaxmindUrl(s.conf)), Visible);
      GeonamesDb.OpenSpec(archives(s.conf.geonamesLocation), parseFloat).Ok? && MaxmindWanted(s.conf) && fetched.Ok? ==>
        && err == None && s.mdb != null && fresh(s.mdb) && s.mdb.reader.database == fetched.value
        && !s.mdb.reader.closed && s.mdb.cache == map[]
        && (old(s.mdb) != null ==> old(s.mdb).reader.closed)
  {
    err := RefreshGeonames(s, archives(s.conf.geonamesLocation), parseFloat);
    if err.Some? {
      return;
    }
    ghost var gdb := s.gdb;
    ghost var db := GeonamesDb.OpenSpec(archives(s.conf.geonamesLocation), parseFloat);
    if MaxmindWanted(s.conf) {
      err := RefreshMaxmind(s, tarballs(MaxmindUrl(s.conf)));
      assert s.gdb == gdb && gdb.store == db.value && gdb.cache == map[];
    }
  }
}
