# go-way in Dafny

This project models the core of go-way, a Go library that resolves geographic identifiers
(a country, a first or second order subdivision, a city or a postal code) and IP addresses to
locations. The library is built from GeoNames postal-code exports and MaxMind GeoLite2 city
databases. Several generations of the same design live side by side in the repository, and
each Go file is modelled in its own Dafny module:

| Go file | Dafny module | flavour |
|---|---|---|
| geonames/location.go | `GeonamesLocation` (geonames_location.dfy) | ids as datatypes; `Location` as a class whose `Add` updates its bounder |
| poco/location.go | `PocoLocation` (poco_location.dfy) | pure |
| geonames/client.go | `GeonamesClient` (geonames_client.dfy) | row loop as a method proved against `LoadSpec`; `Get` dispatch and fold |
| geonames/db.go | `GeonamesDb` (geonames_db.dfy) | `DB` class with a TTL cache field; row loop as a method |
| gndb/db.go | `GndbDb` (gndb_db.dfy) | row loop with `Size` counting; `Get` with the postal single-get |
| maxmind/db.go | `MaxmindDb` (maxmind_db.dfy) | `DB` class with positive and negative TTL caching |
| maxmind/client.go | `MaxmindClient` (maxmind_client.dfy) | `Client` class with positive-only caching |
| mmdb/db.go | `MmdbDb` (mmdb_db.dfy) | `DB` class with positive-only caching |
| radar.go | `RadarCore` (radar.dfy) | `Radar` class: configuration, `refreshing` flag, error slot |
| radar_refresh.go | `RadarRefresh` (radar_refresh.dfy) | refresh sequencing |
| way.go | `Way` (way.dfy) | `Radar` class: configuration, error slot, pending refresh |
| way_refresh.go | `WayRefresh` (way_refresh.dfy) | `refreshJob` sequencing |
| location_refresh.go | `LocationRefresh` (location_refresh.dfy) | refresh sequencing that returns its error |
| radar_get.go, way_get.go, location_get.go | `RadarGet`, `WayGet`, `LocationGet` | IP-to-location mapping and query routing |
| poco/location_get.go | `PocoLocationGet` (poco_location_get.dfy) | `GetAll` loop over the ids |
| poco/location_refresh.go | `PocoLocationRefresh` (poco_location_refresh.dfy) | row loop, de-duplicating map, bloom filter, commit |
| poco/location_envelope.go | `PocoLocationEnvelope` (poco_location_envelope.dfy) | `Envelope` class |

Shared modules hold what several files use:
- `Wrappers` holds `Option`, `Result` and the errors the system reports.
- `GoStrings` models `strings.ToLower` and `strings.ToUpper` on ASCII letters, `Split`, `Replace`, `HasPrefix`, `HasSuffix`, `filepath.Base` and `[]byte(string)`.
- `Dataset` holds the GeoNames row checks: 12 columns, then latitude from column 9 and longitude from column 10.
- `LocationIndex` holds the kind dispatch and the composite-key indexes.
- `GeoIp` holds the geoip2 city record, the reader and the tar member scan.
- `TtlCache` is a map of entries with expiry instants.
- `Stores` models the insert semantics of go-memdb (replace on the unique key) and of go-ark (refuse a taken key).
- `Mailbox` is the one-slot error channel.
- `Settings` holds the configuration and its options.

Inputs that are I/O in the source are parameters:
- a fetched and unpacked archive is an `Archive` (a list of tables of rows) or a `Tarball` (a list of named members);
- `strconv.ParseFloat` is a partial function `string -> Option<real>`;
- `net.ParseIP` is `string -> Option<Ip>`;
- the clock is an instant `now` in seconds;
- a bloom filter's false positives are a predicate on byte strings.

Two behaviours of the source are stated as lemmas rather than hidden:
- Ids lower-case their fields but keep the postal code as given, while every loader stores the postal code lower-cased. A postal id whose code has an upper-case letter therefore finds nothing (`GeonamesDb.UpperCasePostalSelectsNothing`, `PocoLocationGet.UpperPostalCodeMissed`).
- Country ids (in both id families) and State ids (in poco) print with the "city:" prefix, which the parsers refuse, so these ids do not round-trip through their text. `GeonamesLocation.ParseId` accepts "country:" and returns the zero id, which has no kind.

## Model

| member | source | states |
|---|---|---|
| GeonamesLocation.Location.Add | geonames/location.go:27-33 | the bounder is allocated on first use and receives the added location's point; the value fields are unchanged |
| GeonamesLocation.Location.Center | geonames/location.go:36-48 | with no bounder the centre is the location's own coordinate |
| GeonamesLocation.Location.Radius | geonames/location.go:51-57 | with no bounder the radius is 0 |
| GeonamesLocation.CenterOf | geonames/location.go:36-48 | with no bounder the centre is the location's own coordinate |
| GeonamesLocation.RadiusOf | geonames/location.go:51-57 | with no bounder the radius is 0 |
| GeonamesLocation.ZeroLocationEnvelope | geonames/location.go:36-57 | a zero Location has centre (0, 0) and radius 0, whatever the geometry |
| GeonamesLocation.KindsExclusive | geonames/location.go:75-97 | the five kind predicates are pairwise exclusive and the zero id has none |
| GeonamesLocation.ConstructorKinds | geonames/location.go:75-155 | each constructor gives exactly its own kind when its distinguishing argument is non-empty, otherwise the id of the next coarser constructor |
| GeonamesLocation.ConstructorsLowerCase | geonames/location.go:117-155 | constructors lower-case every field; PostalCode keeps the code verbatim |
| GeonamesLocation.KindFieldsLower | geonames/location.go:116-155 | every field except the postal code of an id that has a kind is lower-case |
| GeonamesLocation.String | geonames/location.go:99-114 | the text is empty exactly when the id has no kind |
| GeonamesLocation.StringOfKind | geonames/location.go:99-114 | the text of each kind: "city:c,p,ci", "subdivision:c,p,s", "postal:c,pc", "subdivision:c,p", and "city:c" for a Country id |
| GeonamesLocation.FromParts | geonames/location.go:160-174 | a kind and its areas denote an id exactly for country/1, subdivision/2, postal/2, subdivision/3 and city/3 |
| GeonamesLocation.ParseId | geonames/location.go:158-177 | the text is accepted exactly when its lower-cased form has two ':'-parts that form an accepted kind/arity pair; a refusal is the zero id with a "bad location" error |
| GeonamesLocation.ParseText | geonames/location.go:158-177 | what ParseId gives for "kind:f1[,f2[,f3]]" with lower-case fields that hold no separator |
| GeonamesLocation.ParseStringRoundTrip | geonames/location.go:99-177 | City, Secondary, Primary and lower-case Postal ids whose fields hold no separator are parsed back from their text |
| GeonamesLocation.CountryDoesNotRoundTrip | geonames/location.go:109-110 | a Country id prints as "city:c", which ParseId refuses |
| GeonamesLocation.ParseEmptyCountry | geonames/location.go:163-164 | "country:" parses without error to the zero id, which has no kind |
| PocoLocation.KindsExclusive | poco/location.go:61-83 | the five kind predicates are pairwise exclusive and the zero id has none |
| PocoLocation.ConstructorKinds | poco/location.go:61-145 | each constructor gives exactly its own kind when its distinguishing argument is non-empty, otherwise the id of the next coarser constructor |
| PocoLocation.ConstructorsLowerCase | poco/location.go:107-145 | constructors lower-case every field; PostalCode keeps the code verbatim |
| PocoLocation.KindFieldsLower | poco/location.go:106-145 | every field except the postal code of an id that has a kind is lower-case |
| PocoLocation.LocationIds | poco/location.go:21-43 | a location's five ids are the constructors applied to its own fields, and each has its kind exactly when its own field is set |
| PocoLocation.IdTexts | poco/location.go:21-100 | the text of each of a location's ids, with an empty field falling back to the next coarser kind |
| PocoLocation.StringOfKind | poco/location.go:85-100 | the text of each kind: "city:c,s,ci", "county:c,s,co", "postal:c,pc", and "city:c,s" and "city:c" for State and Country ids |
| PocoLocation.EmptyIffNoKind | poco/location.go:85-104 | the text and the bytes are empty exactly when the id has no kind |
| PocoLocation.BytesOfRender | poco/location.go:102-104 | Bytes is the UTF-8 encoding of String, piece by piece |
| PocoLocation.FromParts | poco/location.go:150-163 | a kind and its areas denote an id exactly for country/1, state/2, postal/2, county/3 and city/3 |
| PocoLocation.ParseLocation | poco/location.go:148-167 | the text is accepted exactly when its lower-cased form has two ':'-parts that form an accepted kind/arity pair; a refusal is the zero id with an error |
| PocoLocation.ParseText | poco/location.go:148-167 | what ParseLocation gives for "kind:f1[,f2[,f3]]" with lower-case fields that hold no separator |
| PocoLocation.ParseStringRoundTrip | poco/location.go:85-167 | City, County and lower-case Postal ids whose fields hold no separator are parsed back from their text |
| PocoLocation.StateDoesNotRoundTrip | poco/location.go:93-94 | a State id prints as "city:c,s", which ParseLocation refuses |
| PocoLocation.CountryDoesNotRoundTrip | poco/location.go:95-96 | a Country id prints as "city:c", which ParseLocation refuses |
| Dataset.SingleMember | geonames/db.go:163-170 | the archive is accepted exactly when it holds one member; otherwise the member-count error or the unpacking error |
| Dataset.Coordinates | geonames/db.go:196-204 | latitude from column 9, then longitude from column 10; the first that does not parse is the error |
| Dataset.RowError | geonames/db.go:192-204 | a row is refused for a column count other than 12, checked first, or for an unparsable coordinate |
| Dataset.CheckRow | geonames/db.go:192-204 | the row checks in source order give exactly RowError |
| LocationIndex.Dispatch | geonames/client.go:53-66 | an id of no kind is "bad id"; every other id selects an index |
| LocationIndex.DispatchByKind | geonames/db.go:114-127 | each kind queries the index whose key fields it supplies, with the id's own values |
| LocationIndex.ConstructorQueries | geonames/location.go:117-155 | each constructor's id queries its own index with lower-cased keys (the postal code as given), and an empty distinguishing argument falls back to the coarser lookup, down to "bad id" |
| LocationIndex.Select | geonames/client.go:68-71 | a query returns exactly the stored locations whose index fields equal its keys |
| LocationIndex.SelectUnique | gndb/db.go:28-34 | selecting from a store with unique keys keeps them unique |
| LocationIndex.FoldMatches | geonames/client.go:73-81 | the first match is the base and every later match is added to its bounder; a single match leaves no bounder |
| Stores.MemdbInsert | geonames/db.go:38-51 | a go-memdb insert fails with "object missing primary index" exactly when the object gives the "id" index no value, and otherwise upserts it |
| Stores.Upsert | geonames/db.go:218-220 | an insert that the indexes take stores the new object, keeps every object under another key, and adds nothing else |
| Stores.UpsertNewKey | geonames/db.go:218-220 | an insert under a new key appends |
| Stores.UpsertUnique | geonames/db.go:38-47 | inserts keep the unique index unique, and the object under the inserted key is the new one |
| Stores.InsertNew | gndb/db.go:153-155 | a go-ark insert is refused exactly when the key is taken, and otherwise appends |
| Stores.InsertNewUnique | gndb/db.go:28-34 | an accepted insert keeps the primary key unique |
| Stores.AtMostOneUnderKey | gndb/db.go:54-61 | a store with unique keys holds at most one object under a key |
| TtlCache.Lookup | geonames/db.go:98-107 | an entry is found exactly while it has not expired |
| TtlCache.Store | geonames/db.go:144-148 | SetWithTTL adds the key and keeps every other entry |
| TtlCache.StoredThenFound | geonames/db.go:25-29 | a stored value is found until its time to live has run out, and not after |
| TtlCache.StoreIsolated | geonames/db.go:144-148 | storing under one key leaves every other lookup as it was |
| GeonamesClient.AllowList | geonames/client.go:96-99 | the allow-list holds exactly the upper-cased given codes |
| GeonamesClient.RowError | geonames/client.go:133-153 | the column count is checked for every row; the coordinates only for a row the allow-list admits |
| GeonamesClient.RowLocationFields | geonames/client.go:155-167 | an inserted location has an allowed upper-case country, lower-case columns 1/2/4/5, the point of columns 9/10 and the key "COUNTRY.postal" |
| GeonamesClient.LoadStep | geonames/client.go:127-171 | one turn of the row loop is LoadRow |
| GeonamesClient.LoadTable | geonames/client.go:121-179 | the row loop computes LoadSpec: count, table and the error that stopped it |
| GeonamesClient.ErrorPersists | geonames/client.go:133-153 | once a row has stopped the loop, later rows change nothing |
| GeonamesClient.SkippedRow | geonames/client.go:137-143 | a 12-column row the allow-list turns away changes nothing, whatever its coordinates |
| GeonamesClient.StopsAtFirstBadRow | geonames/client.go:133-153 | the load stops with the first bad row's error; a wrong-width row stops it even when it would have been skipped |
| GeonamesClient.NoErrorWhileRowsGood | geonames/client.go:123-179 | with every row good, the loop ends without error |
| GeonamesClient.CountBounded | geonames/client.go:169-171 | LocationCount is the number of stored locations, their keys are distinct, and it is at most the number of rows that reached the insert |
| GeonamesClient.StoredFromRows | geonames/client.go:155-171 | every stored location is the location of an inserted row |
| GeonamesClient.StoredLocations | geonames/client.go:155-171 | every stored location has an allowed upper-case country, lower-case text fields and the key "COUNTRY.postal" |
| GeonamesClient.NewClient | geonames/client.go:89-183 | fetch, zip or member-count failures give no client; otherwise the client with the loop's count, its table only when the batch committed, and the loop's error |
| GeonamesClient.Get | geonames/client.go:45-86 | a nil client is "client not ready"; otherwise the fold of the dispatched index's matches |
| GeonamesClient.SingleMatch | geonames/client.go:73-81 | a lone match is returned as it is: its centre is its own point and its radius 0 |
| GeonamesDb.RowLocationFields | geonames/db.go:206-216 | a stored location has lower-case columns 0/1/2/4/5 and the point of columns 9/10 |
| GeonamesDb.RowFailure | geonames/db.go:192-220 | a row stops the loop with its column or coordinate error; a good row stops it with "object missing primary index" exactly when column 0 or column 1 is empty |
| GeonamesDb.LoadTable | geonames/db.go:179-226 | the row loop gives the store of OpenSpec or its error |
| GeonamesDb.AbortPersists | geonames/db.go:186-204 | once a row has aborted the load, later rows change nothing |
| GeonamesDb.LoadedIffRowsGood | geonames/db.go:186-221 | a load goes through exactly when every row has 12 columns, both coordinates, and a non-empty country and postal code |
| GeonamesDb.AbortsAtFirstBadRow | geonames/db.go:192-220 | the load aborts with the error of the first row that fails a check or the insert |
| GeonamesDb.LoadedUnique | geonames/db.go:38-47 | the store holds one location per country and postal code |
| GeonamesDb.LoadedFromRows | geonames/db.go:206-220 | every stored location is the location of a good row |
| GeonamesDb.LoadedCoversRows | geonames/db.go:218-220 | for every row the store holds its location or that of a later row with the same key |
| GeonamesDb.Aggregate | geonames/db.go:133-140 | the base is the first match, and every match, the first included, is added to its bounder |
| GeonamesDb.DB.Get | geonames/db.go:97-151 | the answer and the new cache are GetSpec's, and a cache without the empty key stays so |
| GeonamesDb.Open | geonames/db.go:154-239 | the database holds the loaded store behind an empty cache, or Open returns the error |
| GeonamesDb.CacheHit | geonames/db.go:98-107 | a cached error or location is returned as it is and the cache is left alone |
| GeonamesDb.BadIdNotCached | geonames/db.go:125-131 | an id of no kind gets "bad id" and is never cached |
| GeonamesDb.MissCached | geonames/db.go:142-150 | a miss with no match caches NoContent for 90 minutes; a miss with matches caches their aggregate for 30 minutes |
| GeonamesDb.GetRepeats | geonames/db.go:97-151 | Get keeps the cache valid, and a second Get within the time to live gives the same answer without changing the cache |
| GeonamesDb.UpperCasePostalSelectsNothing | geonames/db.go:117-118 | a postal id whose code has an upper-case letter selects nothing from a loaded store |
| GndbDb.LoadStep | gndb/db.go:127-155 | one turn of the row loop is LoadRow |
| GndbDb.LoadTable | gndb/db.go:121-163 | the row loop computes LoadSpec: Size, table and the error that stopped it |
| GndbDb.ErrorPersists | gndb/db.go:127-139 | once a row has stopped the loop, later rows change nothing |
| GndbDb.NoErrorIffRowsGood | gndb/db.go:121-163 | the loop ends without error exactly when every row is good |
| GndbDb.StopsAtFirstBadRow | gndb/db.go:127-139 | the loop stops with the first bad row's error |
| GndbDb.SizeCountsStore | gndb/db.go:153-155 | Size is the number of stored locations, their primary keys are distinct, and it is at most the number of rows |
| GndbDb.StoreGrows | gndb/db.go:153-155 | a row never removes a stored location |
| GndbDb.FirstRowWins | gndb/db.go:153-155 | a good row is stored, or an earlier row holds its primary key |
| GndbDb.StoredFromRows | gndb/db.go:141-155 | every stored location is the location of a good row |
| GndbDb.StoredLowerCase | gndb/db.go:141-151 | every stored text field is lower-case |
| GndbDb.Open | gndb/db.go:93-167 | fetch, zip or member-count failures give no database; otherwise the database with the loop's Size, its table only when the transaction committed, and the loop's error |
| GndbDb.Get | gndb/db.go:43-90 | a nil database is "db not ready"; otherwise GetSpec: the postal single-get or the fold of the index's matches |
| GndbDb.PostalGetIsFold | gndb/db.go:54-61 | in a loaded store a postal id matches at most one location, so the single-get agrees with the fold |
| GeoIp.FirstIndexMeaning | maxmind/db.go:82-93 | the scan finds the first accepted member, and none exactly when no member is accepted |
| GeoIp.ScanMembers | maxmind/client.go:82-92 | the header loop yields the database of the first accepted member, or an error when the stream runs out |
| GeoIp.HiddenSkipped | maxmind/db.go:88-90 | members whose names start with a dot change nothing the scan yields |
| GeoIp.MemberInDirectory | maxmind/client.go:88-89 | only the base name decides the ".mmdb" scan; the directory decides the visible-member scan |
| GeoIp.CachedLookupAnswers | maxmind/client.go:40-59 | only found cities enter the cache, for 30 minutes; a hit is answered from the cache; a miss succeeds exactly when the reader finds a city with a GeoNames id |
| GeoIp.FoundStaysCached | mmdb/db.go:40-59 | a found city is answered from the cache for 30 minutes, even from a closed reader; "not found" leaves the cache alone |
| MaxmindDb.DB.Get | maxmind/db.go:35-60 | the answer and the new cache are GetSpec's |
| MaxmindDb.DB.Close | maxmind/db.go:63-65 | the reader is closed |
| MaxmindDb.Open | maxmind/db.go:68-111 | the database of the first visible member behind an empty cache, or the error |
| MaxmindDb.NotFoundCached | maxmind/db.go:52-56 | an address without a city is NoContent, and is answered so for the next 90 minutes whatever the reader says |
| MaxmindDb.FoundCached | maxmind/db.go:58-59 | a found city is answered from the cache for the next 30 minutes whatever the reader says |
| MaxmindDb.ReaderErrorNotCached | maxmind/db.go:47-50 | a reader error is returned and the cache is unchanged |
| MaxmindClient.Get | maxmind/client.go:35-60 | a nil client is "client not ready"; otherwise CachedLookup, with IPCount unchanged |
| MaxmindClient.Client.Close | maxmind/client.go:63-65 | the reader is closed |
| MaxmindClient.NewClient | maxmind/client.go:68-107 | the database of the first visible ".mmdb" member, IPCount its node count, or the error |
| MmdbDb.Get | mmdb/db.go:34-60 | a nil database is "db not ready"; otherwise CachedLookup, with Size unchanged |
| MmdbDb.DB.Close | mmdb/db.go:63-65 | the reader is closed |
| MmdbDb.Open | mmdb/db.go:68-109 | the database of the first visible ".mmdb" member, Size its node count, or the error |
| Mailbox.Send | way.go:72-77 | a send fills an empty slot and is dropped when the slot is full |
| Mailbox.FirstErrorKept | radar.go:62-67 | of a run of sends into an empty slot, the first error is the one kept |
| Settings.ConfigureOneField | way.go:106-131 | an option sets its own field to its value and leaves the other three alone |
| Settings.LastOptionWins | way.go:91-93 | the last option for a field decides it |
| Settings.UnsetFieldKept | way.go:81-93 | a field no option names keeps its default |
| Settings.ReplaceAfterHead | radar_refresh.go:36 | replacing the first placeholder substitutes the one after the head |
| Settings.DefaultMaxmindUrl | radar_refresh.go:35-36 | with the default location, the key lands in the license_key parameter, and the MaxMind step runs exactly when a key is given |
| RadarCore.Radar.constructor | radar.go:71-79 | default configuration, refreshing, empty error slot, no database |
| RadarCore.Radar.IsRefreshing | radar.go:38-42 | returns the refreshing flag |
| RadarCore.Radar.SetRefreshing | radar.go:45-49 | sets the refreshing flag |
| RadarCore.Radar.Error | radar.go:52-59 | returns the pending error, if any, and empties the slot |
| RadarCore.Radar.SendError | radar.go:62-67 | the slot becomes Send of the old slot |
| RadarCore.NewRadar | radar.go:70-87 | the defaults with every option applied in order; refreshing from the start |
| RadarRefresh.RefreshGeonames | radar_refresh.go:25-33 | gndb is published when the load has no error; otherwise the error is sent and gdb kept |
| RadarRefresh.RefreshMaxmind | radar_refresh.go:36-48 | the new mmdb replaces the old one, which is closed; or the error is sent and mdb kept |
| RadarRefresh.Refresh | radar_refresh.go:18-50 | the two steps in order, the MaxMind one only when wanted and at the substituted URL; refreshing is false on every path |
| RadarGet.IP | radar_get.go:12-43 | an unparsable address is "invalid ip" with the cache untouched; mmdb's error is passed on; a found city becomes a Location with the country code as given |
| RadarGet.PrimarySubdivision | radar_get.go:46-50 | the primary-subdivision lookup with lower-cased keys, or the country lookup with no subdivision |
| RadarGet.City | radar_get.go:53-57 | the city lookup with lower-cased keys, or the primary-subdivision lookup with no city |
| RadarGet.Postal | radar_get.go:60-64 | the postal single-get with the code as given, which has no bounder, or the country lookup with no code |
| RadarGet.SecondarySubdivision | radar_get.go:67-71 | the secondary-subdivision lookup with lower-cased keys, or the primary-subdivision lookup |
| RadarGet.Country | radar_get.go:74-78 | the country lookup with the lower-cased key; no country is "bad id" |
| Way.Radar.constructor | way.go:81-88 | default configuration, empty error slot, nothing pending, no client |
| Way.Radar.Error | way.go:62-69 | returns the pending error, if any, and empties the slot |
| Way.Radar.SendError | way.go:72-77 | the slot becomes Send of the old slot |
| Way.Radar.Refresh | way_refresh.go:13-18 | a new wait group counting one refresh becomes the pending request |
| Way.New | way.go:80-100 | the defaults with every option applied in order |
| WayRefresh.RefreshGeonames | way_refresh.go:29-35 | the client built with the allow-list is published when its load has no error; otherwise the error is sent and the old client kept |
| WayRefresh.RefreshMaxmind | way_refresh.go:36-48 | the new client replaces the old one, which is closed; or the error is sent and the old client kept |
| WayRefresh.RefreshMaxmindIfWanted | way_refresh.go:36-48 | the MaxMind step runs only when the location differs from the default or a key is given, at the URL with the key substituted; otherwise nothing changes |
| WayRefresh.Reload | way_refresh.go:26-48 | the two steps in order, the MaxMind one only when wanted and at the substituted URL |
| WayRefresh.RefreshJob | way_refresh.go:21-51 | nothing happens with no request pending; a taken request runs Reload and its wait group is released on every path |
| WayGet.IP | way_get.go:14-42 | an unparsable address is "invalid ip"; the client's error is passed on; a found city becomes a Location with an upper-cased country code |
| WayGet.PSD | way_get.go:45-47 | the primary-subdivision lookup with lower-cased keys, or the country lookup |
| WayGet.City | way_get.go:50-52 | the city lookup with lower-cased keys, or the primary-subdivision lookup |
| WayGet.Postal | way_get.go:55-57 | the postal lookup with the code as given, or the country lookup |
| WayGet.SSD | way_get.go:60-62 | the secondary-subdivision lookup with lower-cased keys, or the primary-subdivision lookup |
| WayGet.Country | way_get.go:65-67 | the country lookup with the lower-cased key; no country is "bad id" |
| LocationGet.IP | location_get.go:12-40 | an unparsable address is "invalid ip"; the database's error is passed on; a found city becomes a Location with the country code as given |
| LocationGet.Primary | location_get.go:43-45 | the database's answer and cache for the Primary id, which is the Country id with no subdivision |
| LocationGet.City | location_get.go:48-50 | the database's answer and cache for the City id, which is the Primary id with no city |
| LocationGet.Postal | location_get.go:53-55 | the database's answer and cache for the PostalCode id, which is the Country id with no code |
| LocationGet.Secondary | location_get.go:58-60 | the database's answer and cache for the Secondary id, which is the Primary id with no second subdivision |
| LocationGet.Country | location_get.go:63-65 | the database's answer and cache for the Country id; no country is "bad id" and is not cached |
| LocationRefresh.RefreshGeonames | location_refresh.go:24-28 | the new database is published, or the error is returned and the old one kept |
| LocationRefresh.RefreshMaxmind | location_refresh.go:30-41 | the new database replaces the old one, which is closed; or the error is returned and the old one kept |
| LocationRefresh.Refresh | location_refresh.go:20-44 | the two steps in order; a MaxMind failure keeps the new GeoNames database |
| PocoLocationRefresh.RowLocationLowered | poco/location_refresh.go:85-95 | every text field of a row's location is lower-case (state from column 4, county from column 5), and its point is columns 9/10 |
| PocoLocationRefresh.MapKeyIsIdText | poco/location_refresh.go:101 | the map key is the text of the location's postal id |
| PocoLocationRefresh.ParseRow | poco/location_refresh.go:71-95 | a row gives a location exactly when it passes the row checks |
| PocoLocationRefresh.RowFailure | poco/location_refresh.go:71-98 | a row stops the loop with its column or coordinate error; a good row stops it with "object missing primary index" exactly when column 0 or column 1 is empty |
| PocoLocationRefresh.LoadStep | poco/location_refresh.go:66-101 | one turn of the row loop is LoadRow |
| PocoLocationRefresh.LoadTable | poco/location_refresh.go:65-102 | the row loop computes LoadRows |
| PocoLocationRefresh.AbortPersists | poco/location_refresh.go:71-83 | once a row has aborted the load, later rows change nothing |
| PocoLocationRefresh.LoadedIffRowsGood | poco/location_refresh.go:65-102 | the load goes through exactly when every row parses and its location has a non-empty country and postal code |
| PocoLocationRefresh.AbortedByFirstBadRow | poco/location_refresh.go:71-98 | the load aborts with the error of the first row that fails a check or the insert |
| PocoLocationRefresh.LoadKeepsKeysUnique | poco/location_refresh.go:97-99 | the table keeps one location per country and postal code |
| PocoLocationRefresh.MapHasEveryRow | poco/location_refresh.go:101 | the map holds the key of every row |
| PocoLocationRefresh.MapValuesStored | poco/location_refresh.go:97-101 | every location in the map is under its own key and is in the table |
| PocoLocationRefresh.MapHoldsLastRow | poco/location_refresh.go:101 | under each key the map holds the location of the last row with that key |
| PocoLocationRefresh.RefreshedStoredLowered | poco/location_refresh.go:85-101 | after a successful refresh every location in the map is in the committed table and is lower-case |
| PocoLocationRefresh.AddAll | poco/location_refresh.go:110-116 | the filter loop leaves exactly the ids of the map's locations in the filter |
| PocoLocationRefresh.BuildFilter | poco/location_refresh.go:109-116 | the filter holds the five ids of every location in the map, and nothing else |
| PocoLocationRefresh.Refresh | poco/location_refresh.go:33-125 | a failure returns its error and keeps the table and the filter; success commits the table and replaces the filter |
| PocoLocationGet.IndexOf | poco/location_get.go:27-40 | an id selects an index exactly when it has a kind, and the index is of its kind |
| PocoLocationGet.Lookup | poco/location_get.go:30-40 | an index lookup returns exactly the stored locations whose index values are the arguments |
| PocoLocationGet.Found | poco/location_get.go:30-49 | the matches of an id are exactly the stored locations that answer its query |
| PocoLocationGet.AppendAll | poco/location_get.go:46-49 | the iterator loop appends every match in order |
| PocoLocationGet.CollectLoop | poco/location_get.go:24-50 | the loop over the ids computes CollectWith |
| PocoLocationGet.GetAll | poco/location_get.go:19-57 | GetAll computes GetAllSpec |
| PocoLocationGet.Get | poco/location_get.go:9-16 | Get is GetAll's first location, or its error |
| PocoLocationGet.CollectWithMembers | poco/location_get.go:24-50 | the loop fails exactly when an id fails the test, with NoContent; otherwise it holds the matches of the ids and nothing else |
| PocoLocationGet.GetAllMembers | poco/location_get.go:19-57 | GetAll fails with NoContent exactly when an id fails the filter or nothing matches; otherwise it returns the matching stored locations and only those |
| PocoLocationGet.CollectAppend | poco/location_get.go:24-50 | the matches come in the order of the ids |
| PocoLocationGet.NothingLookedUp | poco/location_get.go:30-40 | a lookup on values no stored location has finds nothing |
| PocoLocationGet.UpperPostalCodeMissed | poco/location_get.go:34-35 | a postal id whose code has an upper-case letter matches nothing Refresh stored |
| PocoLocationGet.OwnIdIndexed | poco/location_get.go:30-40 | each of a stored location's own ids selects the index of its kind and matches the location |
| PocoLocationGet.FoundByOwnIds | poco/location_get.go:28-40 | a stored location whose ids are in the filter is found by each of its own ids |
| PocoLocationGet.RefreshedLocationsFound | poco/location_get.go:28-40 | after a refresh every location in the map is found by each of its own ids, whatever the false positives |
| PocoLocationEnvelope.Envelope.AddLocation | poco/location_envelope.go:20-23 | appends the location and gives its point to the bounder |
| PocoLocationEnvelope.AddLocations | poco/location_envelope.go:55-57 | the loop appends the locations in order and keeps every point paired with its location |
| PocoLocationEnvelope.EnvelopeOf | poco/location_envelope.go:45-60 | GetAll's error gives no envelope; otherwise a new envelope whose Locations are GetAll's result in order |

## Left out

- Concurrency is not modelled: goroutines, the mutexes and read locks, the `red.Worker`, and the background `go r.Refresh(...)` in the constructors. Each refresh is modelled as one sequential run. The error channel is a one-slot `Option<Error>` field.
- The polling `Wait` (radar.go:31-35) and the wait-group `Wait` (way.go:54-59) only block, so they are not modelled.
- Way.Radar.Refresh: requires that no request is pending, because with one pending the source blocks on the full channel. The `wg.Add(1)` that comes after the send (way_refresh.go:15-16) races with `refreshJob`'s `Done`. The model counts the request before handing it over.
- Context timeouts are not modelled (`refreshTimeout`, the 60-second and 5-minute defaults). A fetch that times out is one of the error outcomes of the `Archive` or `Tarball` input.
- HTTP fetching (client/client.go) is not modelled, and neither are zip, gzip, tar and encoding/csv decoding. Their outcomes are inputs: an `Archive`, a `Tarball`, or a table of rows with a read-failure flag.
- `strconv.ParseFloat`, `net.ParseIP` and the geoip2 reader's lookups are function parameters.
- Spherical geometry is not modelled: s2 `RectBounder`, the rectangle centre, the cap area, and the radius formula with the constant 6371.01. The bounder is the list of points it was given. Only the no-bounder centre and radius are fixed; the others are parameters.
- GeonamesLocation.Location.Center: the centre with a bounder is left to the `rectCenter` parameter.
- GeonamesLocation.Location.Radius: the radius with a bounder is left to the `capRadius` parameter.
- PocoLocationEnvelope.Envelope: `Center` and `Radius` (poco/location_envelope.go:31-42) are geometry only and are not modelled.
- ristretto may drop or evict a set, and the model treats the cache as a reliable map. Entries expire only when their time to live runs out.
- go-memdb iterates in radix order, and the model lists matches in insertion order. Index misses on empty fields (`AllowMissing`) are not distinguished from empty values. Of go-memdb's insert errors, only the one for a missing "id" value is modelled: that is the only one the two location schemas can raise.
- GoStrings.ToLower/ToUpper: the case mapping covers ASCII letters only, while Go's `strings.ToLower` and `strings.ToUpper` map every Unicode letter. A letter outside ASCII ("Évry") is therefore stored and looked up as given in GeonamesDb, GndbDb, GeonamesClient and PocoLocationRefresh, and in the id constructors of GeonamesLocation and PocoLocation. Full Unicode case tables are not modelled.
- The ark stores are taken to compare keys regardless of ASCII case (`Same(..., ignoreCase)`). Their `List` with no match is taken to fail with NotFound, and their insert is taken to refuse a taken key.
- The country table (country/countries.go) is not part of this model. `country.Country(code)` is the upper-cased code itself.
- way.go declares `refreshes` as a channel of contexts while way_refresh.go sends wait groups on it, and way_refresh.go reads a `countries` field that way.go does not declare. The model follows way_refresh.go: a pending wait group and a `countries` allow-list field.
- radar.go uses an `Option` type and a `Config.Apply` that are not in the repository's core files. The model applies the same four setters that way.go defines.
- location_refresh.go and location_get.go use a `LocationService` with `conf`, `gdb` and `mdb` fields whose declaration is not part of this model; LocationRefresh.LocationService stands in for it.
- LocationGet.IP, LocationGet.Primary, LocationGet.City, LocationGet.Postal, LocationGet.Secondary and LocationGet.Country require the database they use to be open. In the source, `geonames.DB.Get` and `maxmind.DB.Get` dereference a nil receiver and panic.
- PocoLocationGet.GetAll: requires `Safe`: every id that passes the filter, up to the first that fails it, must have a kind. The source dereferences a nil iterator for an id of no kind that passes the bloom test.
- PocoLocationGet.Get: requires `Safe` for its one id, for the same reason.
- PocoLocationEnvelope.EnvelopeOf: requires `Safe`, for the same reason.
- Bloom filters are modelled as the set of added byte strings plus a false-positive predicate. The filter's sizing (`BloomFalsePositiveRate`) is kept as a constant only.
- The poco `source` reader, its `Seek`, poco/location_export.go and the poco/poco.go wiring are not modelled: they hold no logic.
- The duplicate `DefaultRefreshTimeout` constants of way.go and radar_refresh.go (5 minutes) and of location_refresh.go (60 seconds) live in separate modules.
- The debug logging every 50000 rows in geonames/client.go is not modelled.
- RadarCore.NewRadar: does not start the background refresh. That refresh is RadarRefresh.Refresh, run separately.
- Way.New: does not start the worker or the first refresh. That refresh is Way.Radar.Refresh followed by WayRefresh.RefreshJob.
