/** The composite-key indexes the GeoNames stores keep over their locations, and the choice of
    index a location id makes. A lookup on an index yields the stored locations whose key
    fields equal the values the id supplies, in store order. */
module LocationIndex {
  import opened Wrappers
  import opened GeonamesLocation
  import opened GoStrings
  import opened Stores

  /** An index query: which index, with the key values the id supplies. */
  datatype Query =
    | CityQuery(country: string, subdivision1: string, city: string)
    | PostalQuery(country: string, postalCode: string)
    | PrimaryQuery(country: string, subdivision1: string)
    | SecondaryQuery(country: string, subdivision1: string, subdivision2: string)
    | CountryQuery(country: string)

  /** How an index compares a key value: go-memdb compares exactly; the ark stores are taken
      to compare regardless of ASCII case. */
  predicate Same(stored: string, wanted: string, ignoreCase: bool) {
    if ignoreCase then ToLower(stored) == ToLower(wanted) else stored == wanted
  }

  predicate Selects(q: Query, r: Record, ignoreCase: bool) {
    match q
    case CityQuery(c, s1, ci) =>
      Same(r.country, c, ignoreCase) && Same(r.subdivision1, s1, ignoreCase) && Same(r.city, ci, ignoreCase)
    case PostalQuery(c, pc) => Same(r.country, c, ignoreCase) && Same(r.postalCode, pc, ignoreCase)
    case PrimaryQuery(c, s1) => Same(r.country, c, ignoreCase) && Same(r.subdivision1, s1, ignoreCase)
    case SecondaryQuery(c, s1, s2) =>
      Same(r.country, c, ignoreCase) && Same(r.subdivision1, s1, ignoreCase) && Same(r.subdivision2, s2, ignoreCase)
    case CountryQuery(c) => Same(r.country, c, ignoreCase)
  }

  /** The switch of the Get operations: City, Postal, Primary, Secondary, Country, tried in
      that order, and "bad id" for an id of no kind. */
  function Dispatch(id: LocationId): (r: Result<Query>)
    ensures r.Err? <==> Kinds(id) == {}
    ensures r.Err? ==> r.error == BadId
  {
    if id.IsCity() then Ok(CityQuery(id.country, id.primary, id.city))
    else if id.IsPostal() then Ok(PostalQuery(id.country, id.postalCode))
    else if id.IsPrimary() then Ok(PrimaryQuery(id.country, id.primary))
    else if id.IsSecondary() then Ok(SecondaryQuery(id.country, id.primary, id.secondary))
    else if id.IsCountry() then Ok(CountryQuery(id.country))
    else Err(BadId)
  }

  /** Each kind queries the index whose key fields it supplies; since the kinds exclude each
      other, the order of the switch does not matter. */
  lemma {:induction false} DispatchByKind(id: LocationId)
    ensures id.IsCity() ==> Dispatch(id) == Ok(CityQuery(id.country, id.primary, id.city))
    ensures id.IsPostal() ==> Dispatch(id) == Ok(PostalQuery(id.country, id.postalCode))
    ensures id.IsPrimary() ==> Dispatch(id) == Ok(PrimaryQuery(id.country, id.primary))
    ensures id.IsSecondary() ==> Dispatch(id) == Ok(SecondaryQuery(id.country, id.primary, id.secondary))
    ensures id.IsCountry() ==> Dispatch(id) == Ok(CountryQuery(id.country))
  {
    KindsExclusive(id);
  }

  /** The lookups by area hand their arguments to the matching constructor: with its
      distinguishing argument non-empty, each queries its own index, with the key values
      lower-cased except the postal code; with it empty, the id is that of the next coarser
      constructor, down to the Country lookup with no country, which is a bad id. */
  lemma {:induction false} ConstructorQueries(c: string, p: string, s: string, ci: string, pc: string)
    ensures c != "" ==> Dispatch(Country(c)) == Ok(CountryQuery(ToLower(c)))
    ensures c == "" ==> Dispatch(Country(c)) == Err(BadId)
    ensures p != "" ==> Dispatch(Primary(c, p)) == Ok(PrimaryQuery(ToLower(c), ToLower(p)))
    ensures s != "" ==> Dispatch(Secondary(c, p, s)) == Ok(SecondaryQuery(ToLower(c), ToLower(p), ToLower(s)))
    ensures ci != "" ==> Dispatch(City(c, p, ci)) == Ok(CityQuery(ToLower(c), ToLower(p), ToLower(ci)))
    ensures pc != "" ==> Dispatch(PostalCode(c, pc)) == Ok(PostalQuery(ToLower(c), pc))
    ensures p == "" ==> Primary(c, p) == Country(c)
    ensures s == "" ==> Secondary(c, p, s) == Primary(c, p)
    ensures ci == "" ==> City(c, p, ci) == Primary(c, p)
    ensures pc == "" ==> PostalCode(c, pc) == Country(c)
  {
    ConstructorKinds(c, p, s, ci, pc);
    DispatchByKind(Country(c));
    DispatchByKind(Primary(c, p));
    DispatchByKind(Secondary(c, p, s));
    DispatchByKind(City(c, p, ci));
    DispatchByKind(PostalCode(c, pc));
  }

  /** The stored locations a query selects, in store order. */
  function Select(store: seq<Record>, q: Query, ignoreCase: bool): (r: seq<Record>)
    ensures |r| <= |store|
    ensures forall x :: x in r <==> x in store && Selects(q, x, ignoreCase)
  {
    if store == [] then []
    else
      var rest := Select(store[..|store| - 1], q, ignoreCase);
      var last := store[|store| - 1];
      assert store == store[..|store| - 1] + [last];
      if Selects(q, last, ignoreCase) then rest + [last] else rest
  }

  /** A selection keeps the store's order, so keys unique in the store stay unique in it. */
  lemma {:induction false} SelectUnique<K>(store: seq<Record>, q: Query, ignoreCase: bool, key: Record -> K)
    requires UniqueKeys(store, key)
    ensures UniqueKeys(Select(store, q, ignoreCase), key)
    decreases |store|
  {
    if store != [] {
      var init := store[..|store| - 1];
      var last := store[|store| - 1];
      assert forall i :: 0 <= i < |init| ==> init[i] == store[i];
      SelectUnique(init, q, ignoreCase, key);
      var rest := Select(init, q, ignoreCase);
      if Selects(q, last, ignoreCase) {
        var r := rest + [last];
        forall i, j | 0 <= i < j < |r| ensures key(r[i]) != key(r[j]) {
          if j == |rest| {
            assert r[i] in init;
            var k :| 0 <= k < |init| && init[k] == r[i];
            assert store[k] == r[i];
          } else {
            assert r[i] == rest[i] && r[j] == rest[j];
          }
        }
      }
    }
  }

  /** The points of a list of locations. */
  function Coords(rs: seq<Record>): (r: seq<Coordinate>)
    ensures |r| == |rs|
    ensures forall i :: 0 <= i < |rs| ==> r[i] == rs[i].coordinate
  {
    seq(|rs|, i requires 0 <= i < |rs| => rs[i].coordinate)
  }

  /** The location the ark-backed Get operations build from their matches: the first match,
      with every later match added to its bounder; a single match leaves no bounder. */
  function FoldMatches(matches: seq<Record>): (f: Fence)
    requires matches != []
    ensures f.record == matches[0]
    ensures f.bounder.None? <==> |matches| == 1
    ensures Points(f.bounder) == Coords(matches[1..])
  {
    if |matches| == 1 then Fence(matches[0], None) else Fence(matches[0], Some(Coords(matches[1..])))
  }
}
