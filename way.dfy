/** Model of way.go: the Radar service of package way over a GeoNames client and a MaxMind
    client, its configuration, its single-slot error mailbox and its single-slot queue of
    refresh requests. The background worker that drains that queue is WayRefresh.RefreshJob. */
module Way {
  import opened Wrappers
  import opened Settings
  import opened Mailbox
  import GeonamesClient
  import MaxmindClient

  /** A sync.WaitGroup, reduced to its counter. */
  class WaitGroup {
    var count: int

    constructor (count: int)
      ensures this.count == count
    {
      this.count := count;
    }

    method Done()
      modifies this
      ensures count == old(count) - 1
    {
      count := count - 1;
    }
  }

  class Radar {
    /** The refresh timeout, the GeoNames location, the MaxMind location and the MaxMind
        license key. */
    var conf: Config
    /** The countries handed to the GeoNames client; nothing in the package sets them. */
    var countries: seq<string>
    /** The errors channel, of capacity one. */
    var errorSlot: Option<Error>
    /** The refreshes channel, of capacity one: the wait group of a pending request. */
    var pending: WaitGroup?
    var geonames: GeonamesClient.Client?
    var maxmind: MaxmindClient.Client?

    /** The radar New starts from: the defaults, no country, nothing pending, no client. */
    constructor ()
      ensures conf == Defaults && countries == [] && errorSlot == None && pending == null
      ensures geonames == null && maxmind == null
    {
      conf := Defaults;
      countries := [];
      errorSlot := None;
      pending := null;
      geonames := null;
      maxmind := null;
    }

    /** Error: the pending error, if any, which leaves the slot empty. */
    method Error() returns (e: Option<Error>)
      modifies this`errorSlot
      ensures e == old(errorSlot) && errorSlot == None
    {
      e := errorSlot;
      errorSlot := None;
    }

    /** sendError: stored only when the slot is empty, dropped otherwise. */
    method SendError(e: Error)
      modifies this`errorSlot
      ensures errorSlot == Send(old(errorSlot), e)
    {
      if errorSlot.None? {
        errorSlot := Some(e);
      }
    }

    /** Refresh, up to the point where it blocks: a new wait group is queued and counts one
        outstanding refresh. */
    method Refresh() returns (wg: WaitGroup)
      requires pending == null
      modifies this`pending
      ensures fresh(wg) && wg.count == 1 && pending == wg
    {
      wg := new WaitGroup(0);
      pending := wg;
      wg.count := wg.count + 1;
    }
  }

  /** New: the defaults, then each option in order; the first refresh it starts in the
      background is Radar.Refresh followed by WayRefresh.RefreshJob. */
  method New(opts: seq<ConfigOption>) returns (r: Radar)
    ensures fresh(r) && r.conf == ConfigureAll(Defaults, opts)
    ensures r.countries == [] && r.errorSlot == None && r.pending == null
    ensures r.geonames == null && r.maxmind == null
  {
    r := new Radar();
    var i := 0;
    while i < |opts|
      invariant 0 <= i <= |opts|
      invariant r.conf == ConfigureAll(Defaults, opts[..i])
      invariant r.countries == [] && r.errorSlot == None && r.pending == null
      invariant r.geonames == null && r.maxmind == null
    {
      assert opts[..i + 1][..i] == opts[..i];
      r.conf := Configure(r.conf, opts[i]);
      i := i + 1;
    }
    assert opts[..i] == opts;
  }
}
