/** The MaxMind side shared by maxmind/db.go, maxmind/client.go and mmdb/db.go: the city
    record geoip2 returns, the IP address as its canonical text, the reader over a city
    database, and the scan of the tar stream for the database member. */
module GeoIp {
  import opened Wrappers
  import opened GoStrings
  import opened TtlCache
  import GeonamesLocation

  /** The parts of geoip2.City the system reads. */
  datatype City = City(
    geoNameId: nat,
    names: map<string, string>,
    countryIsoCode: string,
    postalCode: string,
    subdivisionIsoCodes: seq<string>,
    latitude: real,
    longitude: real)

  /** net.IP, by the text its String method gives, which is the key of every cache. */
  datatype Ip = Ip(text: string)

  /** A city database as geoip2.FromBytes opens it: its City lookup (an error, no record, or a
      record) and the node count of its metadata. */
  datatype Database = Database(lookup: Ip -> Result<Option<City>>, nodeCount: nat)

  /** A lookup answer the system accepts: a record with a GeoNames id. */
  predicate Found(c: Option<City>) {
    c.Some? && c.value.geoNameId != 0
  }

  /** What City answers on a reader that is open or closed. */
  function LookupCity(database: Database, closed: bool, ip: Ip): (r: Result<Option<City>>)
    ensures closed ==> r == Err(ReaderClosed)
    ensures !closed ==> r == database.lookup(ip)
  {
    if closed then Err(ReaderClosed) else database.lookup(ip)
  }

  /** geoip2.Reader: a database that Close shuts for good. */
  class Reader {
    const database: Database
    var closed: bool

    constructor (database: Database)
      ensures this.database == database && !closed
    {
      this.database := database;
      closed := false;
    }

    method City(ip: Ip) returns (r: Result<Option<City>>)
      ensures r == LookupCity(database, closed, ip)
    {
      if closed {
        return Err(ReaderClosed);
      }
      return database.lookup(ip);
    }

    method Close()
      modifies this
      ensures closed
    {
      closed := true;
    }
  }

  /** A member of the tar stream: its header name, and what geoip2.FromBytes makes of its
      contents. */
  datatype Member = Member(name: string, content: Result<Database>)

  /** The downloaded tarball: its members, or the error of the fetch or of gzip decoding. */
  type Tarball = Result<seq<Member>>

  /** The member maxmind/db.go takes: any whose name does not start with a dot. */
  predicate Visible(name: string) {
    !HasPrefix(name, ".")
  }

  /** The member maxmind/client.go and mmdb/db.go take: one whose base name does not start
      with a dot and ends in ".mmdb". */
  predicate MmdbFile(name: string) {
    var base := Base(name);
    !HasPrefix(base, ".") && HasSuffix(base, ".mmdb")
  }

  /** The position of the first member whose name is accepted. */
  function FirstIndex(members: seq<Member>, accept: string -> bool): (r: Option<nat>)
    ensures r.Some? ==> r.value < |members|
  {
    if members == [] then None
    else if accept(members[0].name) then Some(0)
    else
      var rest := FirstIndex(members[1..], accept);
      if rest.None? then None else Some(rest.value + 1)
  }

  /** FirstIndex finds the first accepted member, and finds none exactly when no member is
      accepted. */
  lemma {:induction false} FirstIndexMeaning(members: seq<Member>, accept: string -> bool)
    ensures var r := FirstIndex(members, accept);
      && (r.None? <==> forall i :: 0 <= i < |members| ==> !accept(members[i].name))
      && (r.Some? ==> accept(members[r.value].name))
      && (r.Some? ==> forall j :: 0 <= j < r.value ==> !accept(members[j].name))
  {
    if members != [] && !accept(members[0].name) {
      FirstIndexMeaning(members[1..], accept);
      assert forall i :: 1 <= i < |members| ==> members[i] == members[1..][i - 1];
    }
  }

  /** The database of the first accepted member; the stream running out first is an error. */
  function FirstDatabase(members: seq<Member>, accept: string -> bool): Result<Database> {
    match FirstIndex(members, accept)
    case None => Err(MemberMissing)
    case Some(i) => members[i].content
  }

  /** The header loop of the openers: skip members until one is accepted. */
  method ScanMembers(members: seq<Member>, accept: string -> bool) returns (r: Result<Database>)
    ensures r == FirstDatabase(members, accept)
  {
    FirstIndexMeaning(members, accept);
    var i := 0;
    while i < |members|
      invariant 0 <= i <= |members|
      invariant forall j :: 0 <= j < i ==> !accept(members[j].name)
    {
      if accept(members[i].name) {
        return members[i].content;
      }
      i := i + 1;
    }
    return Err(MemberMissing);
  }

  /** The member read: the fetch, the gzip stream, the header loop, then the reader. */
  function OpenDatabase(tarball: Tarball, accept: string -> bool): Result<Database> {
    match tarball
    case Err(e) => Err(e)
    case Ok(members) => FirstDatabase(members, accept)
  }

  /** Hidden files are skipped: members whose names start with a dot, put before the
      others, change nothing the visible-member scan yields. */
  lemma {:induction false} HiddenSkipped(members: seq<Member>, hidden: seq<Member>)
    requires forall i :: 0 <= i < |hidden| ==> HasPrefix(hidden[i].name, ".")
    ensures FirstDatabase(hidden + members, Visible) == FirstDatabase(members, Visible)
  {
    var all := hidden + members;
    FirstIndexMeaning(all, Visible);
    FirstIndexMeaning(members, Visible);
    assert forall i :: 0 <= i < |hidden| ==> all[i] == hidden[i];
    assert forall i :: 0 <= i < |members| ==> all[|hidden| + i] == members[i];
    var v := FirstIndex(all, Visible);
    match FirstIndex(members, Visible)
    case None =>
      forall i | 0 <= i < |all| ensures !Visible(all[i].name) {
        if i >= |hidden| {
          assert all[i] == members[i - |hidden|];
        }
      }
    case Some(k) =>
      assert Visible(all[|hidden| + k].name);
      if v.value >= |hidden| {
        assert all[v.value] == members[v.value - |hidden|];
      }
  }

  /** The header name of a member inside a directory. */
  function InDirectory(dir: string, file: string): string {
    dir + "/" + file
  }

  lemma {:induction false} AfterLastSlashOf(dir: string, file: string)
    requires file != "" && '/' !in file
    ensures AfterLastSlash(InDirectory(dir, file)) == file
    decreases |file|
  {
    var s := InDirectory(dir, file);
    assert s[|s| - 1] == file[|file| - 1];
    if |file| > 1 {
      assert s[|s| - 2] == file[|file| - 2];
      assert s[..|s| - 1] == InDirectory(dir, file[..|file| - 1]);
      AfterLastSlashOf(dir, file[..|file| - 1]);
      assert file[..|file| - 1] + [file[|file| - 1]] == file;
    } else {
      assert s[|s| - 2] == '/';
      assert [file[0]] == file;
    }
  }

  /** The directory of a member decides whether maxmind/db.go reads it, and only its file
      name decides whether maxmind/client.go and mmdb/db.go do. */
  lemma {:induction false} MemberInDirectory(dir: string, file: string)
    requires file != "" && '/' !in file
    ensures MmdbFile(InDirectory(dir, file)) <==> !HasPrefix(file, ".") && HasSuffix(file, ".mmdb")
    ensures Visible(InDirectory(dir, file)) <==> dir == "" || dir[0] != '.'
  {
    var s := InDirectory(dir, file);
    AfterLastSlashOf(dir, file);
    assert TrimTrailingSlashes(s) == s;
    assert Base(s) == file;
    assert s[..1] == [s[0]];
    if dir != "" {
      assert s[0] == dir[0];
    }
  }

  /** The lookup of maxmind/client.go and mmdb/db.go behind a cache of found cities only: a
      cached city is answered as it is; otherwise the reader's error is passed on, a record
      without a GeoNames id is "not found" and is not cached, and a found city is cached for
      30 minutes under the address text. */
  function CachedLookup(database: Database, closed: bool, cache: Cache<City>, ip: Ip, now: int): (Result<City>, Cache<City>) {
    match Lookup(cache, ip.text, now)
    case Some(city) => (Ok(city), cache)
    case None =>
      match LookupCity(database, closed, ip)
      case Err(e) => (Err(e), cache)
      case Ok(c) =>
        if !Found(c) then (Err(NoContent("not found")), cache)
        else (Ok(c.value), TtlCache.Store(cache, ip.text, c.value, PositiveTtl, now))
  }

  /** Only found cities enter the cache, and an answer is either the cached city or the
      reader's own answer. */
  lemma {:induction false} CachedLookupAnswers(database: Database, closed: bool, cache: Cache<City>, ip: Ip, now: int)
    ensures var (r, cache') := CachedLookup(database, closed, cache, ip, now);
      && (cache' != cache ==> r.Ok? && cache' == cache[ip.text := Entry(r.value, now + 30 * 60)])
      && (Lookup(cache, ip.text, now).Some? ==> r == Ok(cache[ip.text].value) && cache' == cache)
      && (Lookup(cache, ip.text, now).None? ==>
            (r.Ok? <==> LookupCity(database, closed, ip).Ok? && Found(LookupCity(database, closed, ip).value)))
      && (r.Ok? && Lookup(cache, ip.text, now).None? ==> Some(r.value) == LookupCity(database, closed, ip).value)
  {
  }

  /** A city the reader found is answered from the cache for the next 30 minutes, even once
      the reader has been closed; "not found" is asked of the reader again every time. */
  lemma {:induction false} FoundStaysCached(database: Database, closed: bool, closedLater: bool, cache: Cache<City>, ip: Ip, now: int, later: int)
    requires now <= later < now + 30 * 60
    ensures var (r, cache') := CachedLookup(database, closed, cache, ip, now);
      r.Ok? && Lookup(cache, ip.text, now).None? ==> CachedLookup(database, closedLater, cache', ip, later) == (r, cache')
    ensures var (r, cache') := CachedLookup(database, closed, cache, ip, now);
      r == Err(NoContent("not found")) ==> cache' == cache
  {
  }

  /** The English name of a city record, or "" when it has none. */
  function EnglishName(c: City): string {
    if "en" in c.names then c.names["en"] else ""
  }

  /** The code of the first subdivision of a city record, or "" when it has none. */
  function FirstSubdivision(c: City): string {
    if |c.subdivisionIsoCodes| > 0 then c.subdivisionIsoCodes[0] else ""
  }

  /** The Location the IP lookups build from a city record, given the country code they
      chose for it: the postal code as it is, the English name, the first subdivision and
      the point; the second subdivision stays empty. */
  function IpRecord(c: City, country: string): GeonamesLocation.Record
  {
    GeonamesLocation.Record(GeonamesLocation.Coordinate(c.latitude, c.longitude), country, c.postalCode,
      EnglishName(c), FirstSubdivision(c), "")
  }
}
