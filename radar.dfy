/** Model of radar.go: the Radar service over a gndb database and an mmdb database, its
    configuration, its refreshing flag and its single-slot error mailbox. The Option type
    applied to the configuration is not part of this model; it is taken to set one field of
    the configuration, as the options of way.go do. */
module RadarCore {
  import opened Wrappers
  import opened Settings
  import opened Mailbox
  import GndbDb
  import MmdbDb

  class Radar {
    var conf: Config
    var errorSlot: Option<Error>
    var refreshing: bool
    var gdb: GndbDb.DB?
    var mdb: MmdbDb.DB?

    /** A radar with the default configuration that counts as refreshing from the start and
        holds no database yet. */
    constructor ()
      ensures conf == Defaults && errorSlot == None && refreshing
      ensures gdb == null && mdb == null
    {
      conf := Defaults;
      errorSlot := None;
      refreshing := true;
      gdb := null;
      mdb := null;
    }

    method IsRefreshing() returns (b: bool)
      ensures b == refreshing
    {
      return refreshing;
    }

    method SetRefreshing(refreshing: bool)
      modifies this`refreshing
      ensures this.refreshing == refreshing
    {
      this.refreshing := refreshing;
    }

    /** Error: the pending error, if any, which leaves the slot empty. */
    method Error() returns (e: Option<Error>)
      modifies this`errorSlot
      ensures e == old(errorSlot) && errorSlot == None
    {
      e := errorSlot;
      errorSlot := None;
    }

    /** sendError: stored only when the slot is empty. */
    method SendError(e: Error)
      modifies this`errorSlot
      ensures errorSlot == Send(old(errorSlot), e)
    {
      if errorSlot.None? {
        errorSlot := Some(e);
      }
    }
  }

  /** NewRadar: the defaults, then each option in order. The refresh it starts in the
      background is RadarRefresh.Refresh. */
  method NewRadar(opts: seq<ConfigOption>) returns (r: Radar)
    ensures fresh(r) && r.conf == ConfigureAll(Defaults, opts)
    ensures r.refreshing && r.errorSlot == None && r.gdb == null && r.mdb == null
  {
    r := new Radar();
    var i := 0;
    while i < |opts|
      invariant 0 <= i <= |opts|
      invariant r.conf == ConfigureAll(Defaults, opts[..i])
      invariant r.refreshing && r.errorSlot == None && r.gdb == null && r.mdb == null
    {
      assert opts[..i + 1][..i] == opts[..i];
      r.conf := Configure(r.conf, opts[i]);
      i := i + 1;
    }
    assert opts[..i] == opts;
  }
}
