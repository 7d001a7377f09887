/** Model of radar_refresh.go: Radar.Refresh. The downloads are the parameters `archives`
    (the GeoNames zip at a URL) and `tarballs` (the MaxMind tarball at a URL); the timeout
    on them is not modelled. */
module RadarRefresh {
  import opened Wrappers
  import opened Settings
  import opened Mailbox
  import opened Dataset
  import opened GeoIp
  import opened RadarCore
  import GndbDb
  import MmdbDb

  /** The GeoNames step: open gndb and publish it, or send the error. */
  method RefreshGeonames(r: Radar, archive: Archive, parseFloat: ParseFloat) returns (ok: bool)
    modifies r`gdb, r`errorSlot
    ensures var load := GndbDb.OpenLoad(archive, parseFloat);
      && (ok <==> load.error.None?)
      && (!ok ==> r.gdb == old(r.gdb) && r.errorSlot == Send(old(r.errorSlot), load.error.value))
      && (ok ==> r.gdb != null && fresh(r.gdb) && r.gdb.store == load.store && r.gdb.size == load.size)
      && (ok ==> r.errorSlot == old(r.errorSlot))
  {
    var gdb, err := GndbDb.Open(archive, parseFloat);
    if err.Some? {
      r.SendError(err.value);
      return false;
    }
    r.gdb := gdb;
    return true;
  }

  /** The MaxMind step: open mmdb, close the database it replaces and publish it, or send the
      error. */
  method RefreshMaxmind(r: Radar, tarball: Tarball)
    modifies r`mdb, r`errorSlot, if r.mdb != null then {r.mdb.reader} else {}
    ensures var fetched := OpenDatabase(tarball, MmdbFile);
      fetched.Err? ==> r.mdb == old(r.mdb) && r.errorSlot == Send(old(r.errorSlot), fetched.error)
    ensures var fetched := OpenDatabase(tarball, MmdbFile);
      fetched.Ok? ==>
        && r.mdb != null && fresh(r.mdb) && r.mdb.reader.database == fetched.value && !r.mdb.reader.closed
        && r.mdb.cache == map[] && r.errorSlot == old(r.errorSlot)
        && (old(r.mdb) != null ==> old(r.mdb).reader.closed)
  {
    var mdb := MmdbDb.Open(tarball);
    if mdb.Err? {
      r.SendError(mdb.error);
      return;
    }
    var next := mdb.value;
    if r.mdb != null {
      var prev := r.mdb;
      assert prev.reader != next.reader;
      prev.Close();
    }
    r.mdb := next;
  }

  /** Refresh: the GeoNames step, then, when it succeeded and MaxMind is wanted, the MaxMind
      step at the URL with the license key substituted. The radar stops refreshing on every
      path. */
  method Refresh(r: Radar, archives: string -> Archive, parseFloat: ParseFloat, tarballs: string -> Tarball)
    modifies r, if r.mdb != null then {r.mdb.reader} else {}
    ensures !r.refreshing && r.conf == old(r.conf)
    ensures var load := GndbDb.OpenLoad(archives(r.conf.geonamesLocation), parseFloat);
      load.error.Some? ==> r.gdb == old(r.gdb) && r.mdb == old(r.mdb) && r.errorSlot == Send(old(r.errorSlot), load.error.value)
    ensures var load := GndbDb.OpenLoad(archives(r.conf.geonamesLocation), parseFloat);
      load.error.None? ==> r.gdb != null && fresh(r.gdb) && r.gdb.store == load.store && r.gdb.size == load.size
    ensures GndbDb.OpenLoad(archives(r.conf.geonamesLocation), parseFloat).error.None? && !MaxmindWanted(r.conf) ==>
      r.mdb == old(r.mdb) && r.errorSlot == old(r.errorSlot)
    ensures var fetched := OpenDatabase(tarballs(MaxmindUrl(r.conf)), MmdbFile);
      GndbDb.OpenLoad(archives(r.conf.geonamesLocation), parseFloat).error.None? && MaxmindWanted(r.conf) && fetched.Err? ==>
        r.mdb == old(r.mdb) && r.errorSlot == Send(old(r.errorSlot), fetched.error)
    ensures var fetched := OpenDatabase(tarballs(MaxmindUrl(r.conf)), MmdbFile);
      GndbDb.OpenLoad(archives(r.conf.geonamesLocation), parseFloat).error.None? && MaxmindWanted(r.conf) && fetched.Ok? ==>
        && r.mdb != null && fresh(r.mdb) && r.mdb.reader.database == fetched.value && !r.mdb.reader.closed
        && r.mdb.cache == map[] && r.errorSlot == old(r.errorSlot)
        && (old(r.mdb) != null ==> old(r.mdb).reader.closed)
  {
    var conf := r.conf;
    r.SetRefreshing(true);
    var ok := RefreshGeonames(r, archives(conf.geonamesLocation), parseFloat);
    ghost var gdb := r.gdb;
    ghost var load := GndbDb.OpenLoad(archives(conf.geonamesLocation), parseFloat);
    if ok && MaxmindWanted(conf) {
      RefreshMaxmind(r, tarballs(MaxmindUrl(conf)));
      assert r.gdb == gdb && gdb.store == load.store && gdb.size == load.size;
    }
    r.SetRefreshing(false);
  }
}
