/** Model of poco/location_get.go: Get and GetAll on the postal-code service. Each id is first
    tested against the bloom filter, then looked up in the go-memdb index its kind selects;
    the matches of all ids are concatenated in the order of the ids. The filter's false
    positives are the parameter `falsePositive`, and an index lookup returns the matching
    locations in table order. */
module PocoLocationGet {
  import opened Wrappers
  import opened GoStrings
  import opened Dataset
  import opened PocoLocation
  import opened PocoLocationRefresh

  /** BloomFilter.Test: every byte string that was added passes; any other passes exactly
      when `falsePositive` says so. */
  predicate Test(filter: set<seq<bv8>>, b: seq<bv8>, falsePositive: seq<bv8> -> bool) {
    b in filter || falsePositive(b)
  }

  /** The index GetAll queries for an id, in the order of its switch: city, county, postal
      (the unique "id" index), state, country; None for an id of no kind. */
  function IndexOf(id: LocationId): (r: Option<Kind>)
    ensures r.Some? <==> Kinds(id) != {}
    ensures r.Some? ==> r.value in Kinds(id)
  {
    KindsExclusive(id);
    if id.IsCity() then Some(CityKind)
    else if id.IsCounty() then Some(CountyKind)
    else if id.IsPostal() then Some(PostalKind)
    else if id.IsState() then Some(StateKind)
    else if id.IsCountry() then Some(CountryKind)
    else None
  }

  /** The arguments GetAll passes to the index of kind k. */
  function IndexArgs(id: LocationId, k: Kind): seq<string> {
    match k
    case CityKind => [id.country, id.state, id.city]
    case CountyKind => [id.country, id.state, id.county]
    case PostalKind => [id.country, id.postalCode]
    case StateKind => [id.country, id.state]
    case CountryKind => [id.country]
  }

  /** The values a stored location has in the index of kind k. */
  function IndexValues(l: Location, k: Kind): seq<string> {
    match k
    case CityKind => [l.country, l.state, l.city]
    case CountyKind => [l.country, l.state, l.county]
    case PostalKind => [l.country, l.postalCode]
    case StateKind => [l.country, l.state]
    case CountryKind => [l.country]
  }

  /** txn.Get on the index of kind k: the stored locations whose index values are `args`, in
      table order. */
  function Lookup(table: seq<Location>, k: Kind, args: seq<string>): (r: seq<Location>)
    ensures forall l :: l in r <==> l in table && IndexValues(l, k) == args
    ensures |r| <= |table|
    decreases |table|
  {
    if table == [] then []
    else
      var rest := Lookup(table[1..], k, args);
      assert forall l :: l in table <==> l == table[0] || l in table[1..];
      if IndexValues(table[0], k) == args then [table[0]] + rest else rest
  }

  /** A stored location answers the query GetAll makes for id. */
  predicate Matches(id: LocationId, l: Location) {
    IndexOf(id).Some? && IndexValues(l, IndexOf(id).value) == IndexArgs(id, IndexOf(id).value)
  }

  /** The matches of one id: its index lookup; an id of no kind selects no index and so has
      no iterator at all (see Safe). */
  function Found(table: seq<Location>, id: LocationId): (r: seq<Location>)
    ensures forall l :: l in r <==> l in table && Matches(id, l)
  {
    match IndexOf(id)
    case None => []
    case Some(k) => Lookup(table, k, IndexArgs(id, k))
  }

  /** The filter test GetAll makes for each id. */
  function PassesFilter(filter: set<seq<bv8>>, falsePositive: seq<bv8> -> bool): LocationId -> bool {
    id => Test(filter, Bytes(id), falsePositive)
  }

  /** The index lookup GetAll makes for each id. */
  function FoundIn(table: seq<Location>): LocationId -> seq<Location> {
    id => Found(table, id)
  }

  /** GetAll does not dereference a missing iterator: every id that passes the filter before
      the first one that fails it has a kind. */
  predicate Safe(filter: set<seq<bv8>>, falsePositive: seq<bv8> -> bool, ids: seq<LocationId>)
    decreases |ids|
  {
    ids == [] || !Test(filter, Bytes(ids[0]), falsePositive) || (Kinds(ids[0]) != {} && Safe(filter, falsePositive, ids[1..]))
  }

  function Prepend(front: seq<Location>, r: Result<seq<Location>>): Result<seq<Location>> {
    match r
    case Err(e) => Err(e)
    case Ok(back) => Ok(front + back)
  }

  /** The loop over the ids: the first id that fails `passes` ends it with NoContent;
      otherwise the matches `found` gives for each id in turn. */
  function CollectWith(ids: seq<LocationId>, passes: LocationId -> bool, found: LocationId -> seq<Location>)
    : Result<seq<Location>>
    decreases |ids|
  {
    if ids == [] then Ok([])
    else if !passes(ids[0]) then Err(NoContent(""))
    else Prepend(found(ids[0]), CollectWith(ids[1..], passes, found))
  }

  function Collect(table: seq<Location>, filter: set<seq<bv8>>, falsePositive: seq<bv8> -> bool, ids: seq<LocationId>)
    : Result<seq<Location>>
  {
    CollectWith(ids, PassesFilter(filter, falsePositive), FoundIn(table))
  }

  /** GetAll: no match at all is NoContent. */
  function GetAllSpec(table: seq<Location>, filter: set<seq<bv8>>, falsePositive: seq<bv8> -> bool, ids: seq<LocationId>)
    : Result<seq<Location>>
  {
    match Collect(table, filter, falsePositive, ids)
    case Err(e) => Err(e)
    case Ok(found) => if found == [] then Err(NoContent("")) else Ok(found)
  }

  /** The loop over one id's iterator: each match is appended in turn. */
  method AppendAll(locations: seq<Location>, found: seq<Location>) returns (r: seq<Location>)
    ensures r == locations + found
  {
    r := locations;
    var j := 0;
    while j < |found|
      invariant 0 <= j <= |found|
      invariant r == locations + found[..j]
    {
      r := r + [found[j]];
      j := j + 1;
    }
    assert found[..j] == found;
  }

  /** The loop of GetAll over the ids, with the filter test and the index lookup given. */
  method CollectLoop(ids: seq<LocationId>, passes: LocationId -> bool, found: LocationId -> seq<Location>)
    returns (r: Result<seq<Location>>)
    ensures r == CollectWith(ids, passes, found)
  {
    var locations: seq<Location> := [];
    var i := 0;
    assert ids[0..] == ids;
    PrependNothing(CollectWith(ids, passes, found));
    while i < |ids|
      invariant 0 <= i <= |ids|
      invariant CollectWith(ids, passes, found) == Prepend(locations, CollectWith(ids[i..], passes, found))
    {
      assert ids[i..][0] == ids[i] && ids[i..][1..] == ids[i + 1..];
      if !passes(ids[i]) {
        return Err(NoContent(""));
      }
      PrependTwice(locations, found(ids[i]), CollectWith(ids[i + 1..], passes, found));
      locations := AppendAll(locations, found(ids[i]));
      i := i + 1;
    }
    assert ids[i..] == [];
    assert locations + [] == locations;
    return Ok(locations);
  }

  /** GetAll. */
  method GetAll(s: LocationService, ids: seq<LocationId>, falsePositive: seq<bv8> -> bool)
    returns (r: Result<seq<Location>>)
    requires Safe(s.filter, falsePositive, ids)
    ensures r == GetAllSpec(s.table, s.filter, falsePositive, ids)
  {
    var locations := CollectLoop(ids, PassesFilter(s.filter, falsePositive), FoundIn(s.table));
    if locations.Err? {
      return Err(locations.error);
    }
    if |locations.value| == 0 {
      return Err(NoContent(""));
    }
    return Ok(locations.value);
  }

  /** Get: the first location GetAll finds for the id. */
  method Get(s: LocationService, id: LocationId, falsePositive: seq<bv8> -> bool) returns (r: Result<Location>)
    requires Safe(s.filter, falsePositive, [id])
    ensures var all := GetAllSpec(s.table, s.filter, falsePositive, [id]);
      && (all.Err? ==> r == Err(all.error))
      && (all.Ok? ==> r == Ok(all.value[0]))
  {
    var locations := GetAll(s, [id], falsePositive);
    if locations.Err? {
      return Err(locations.error);
    }
    return Ok(locations.value[0]);
  }

  lemma PrependNothing(r: Result<seq<Location>>)
    ensures Prepend([], r) == r
  {
    if r.Ok? {
      assert [] + r.value == r.value;
    }
  }

  lemma PrependTwice(a: seq<Location>, b: seq<Location>, r: Result<seq<Location>>)
    ensures Prepend(a, Prepend(b, r)) == Prepend(a + b, r)
  {
    if r.Ok? {
      assert a + (b + r.value) == a + b + r.value;
    }
  }

  /** The loop fails exactly when an id fails the test, and then with NoContent; otherwise it
      holds the matches of the ids and nothing else. */
  lemma {:induction false} CollectWithMembers(ids: seq<LocationId>, passes: LocationId -> bool, found: LocationId -> seq<Location>)
    ensures var r := CollectWith(ids, passes, found);
      && (r.Err? <==> exists i :: 0 <= i < |ids| && !passes(ids[i]))
      && (r.Err? ==> r.error == NoContent(""))
      && (r.Ok? ==> forall l :: l in r.value <==> exists i :: 0 <= i < |ids| && l in found(ids[i]))
    decreases |ids|
  {
    if ids != [] && passes(ids[0]) {
      var rest := ids[1..];
      CollectWithMembers(rest, passes, found);
      assert forall i :: 0 < i < |ids| ==> ids[i] == rest[i - 1];
      assert forall i :: 0 <= i < |rest| ==> rest[i] == ids[i + 1];
    }
  }

  /** GetAll fails with NoContent exactly when an id fails the filter or nothing matches;
      otherwise it returns the stored locations that match one of the ids, and only those. */
  lemma GetAllMembers(table: seq<Location>, filter: set<seq<bv8>>, falsePositive: seq<bv8> -> bool, ids: seq<LocationId>)
    ensures var r := GetAllSpec(table, filter, falsePositive, ids);
      && (r.Err? <==>
        || (exists i :: 0 <= i < |ids| && !Test(filter, Bytes(ids[i]), falsePositive))
        || (forall l, i :: l in table && 0 <= i < |ids| ==> !Matches(ids[i], l)))
      && (r.Err? ==> r.error == NoContent(""))
      && (r.Ok? ==> r.value != [] && forall l :: l in r.value <==> l in table && exists i :: 0 <= i < |ids| && Matches(ids[i], l))
  {
    var passes := PassesFilter(filter, falsePositive);
    var found := FoundIn(table);
    CollectWithMembers(ids, passes, found);
    var c := Collect(table, filter, falsePositive, ids);
    assert forall i :: 0 <= i < |ids| ==> passes(ids[i]) == Test(filter, Bytes(ids[i]), falsePositive);
    assert forall i, l :: 0 <= i < |ids| ==> (l in found(ids[i]) <==> l in table && Matches(ids[i], l));
    if c.Ok? && c.value != [] {
      var l := c.value[0];
      assert l in c.value;
    }
  }

  /** The matches come in the order of the ids: asking for two lists of ids at once gives the
      matches of the first list followed by those of the second. */
  lemma {:induction false} CollectAppend(ids: seq<LocationId>, more: seq<LocationId>,
                                         passes: LocationId -> bool, found: LocationId -> seq<Location>)
    ensures var a := CollectWith(ids, passes, found);
      CollectWith(ids + more, passes, found) == if a.Err? then a else Prepend(a.value, CollectWith(more, passes, found))
    decreases |ids|
  {
    if ids != [] {
      assert (ids + more)[0] == ids[0] && (ids + more)[1..] == ids[1..] + more;
      if passes(ids[0]) {
        CollectAppend(ids[1..], more, passes, found);
        var a := CollectWith(ids[1..], passes, found);
        if a.Ok? {
          PrependTwice(found(ids[0]), a.value, CollectWith(more, passes, found));
        }
      }
    } else {
      assert ids + more == more;
      PrependNothing(CollectWith(more, passes, found));
    }
  }

  /** A lookup on an index value no stored location has finds nothing. */
  lemma {:induction false} NothingLookedUp(table: seq<Location>, k: Kind, args: seq<string>)
    requires forall l :: l in table ==> IndexValues(l, k) != args
    ensures Lookup(table, k, args) == []
    decreases |table|
  {
    if table != [] {
      assert table[0] in table;
      assert forall l :: l in table[1..] ==> l in table;
      NothingLookedUp(table[1..], k, args);
    }
  }

  /** Ids are lower-cased by their constructors but a postal id keeps its postal code as
      given, while Refresh stores postal codes lower-cased: a postal id whose postal code has
      an upper-case letter matches no location Refresh stored. */
  lemma UpperPostalCodeMissed(table: seq<Location>, id: LocationId)
    requires forall l :: l in table ==> Lowered(l)
    requires IndexOf(id) == Some(PostalKind) && !IsLower(id.postalCode)
    ensures Found(table, id) == []
  {
    var args := IndexArgs(id, PostalKind);
    forall l | l in table
      ensures IndexValues(l, PostalKind) != args
    {
      assert IndexValues(l, PostalKind)[1] == l.postalCode && args[1] == id.postalCode;
    }
    NothingLookedUp(table, PostalKind, args);
  }

  /** The id of one of a location's five kinds, whose own field is set. */
  predicate OwnId(l: Location, id: LocationId) {
    || (id == l.Id() && l.postalCode != "")
    || (id == l.CityId() && l.city != "")
    || (id == l.CountyId() && l.county != "")
    || (id == l.StateId() && l.state != "")
    || (id == l.CountryId() && l.country != "")
  }

  /** The index an own id selects is the one of its kind, and the location has the id's
      arguments as its index values. */
  lemma OwnIdIndexed(l: Location, id: LocationId)
    requires Lowered(l) && OwnId(l, id)
    ensures Kinds(id) != {} && Matches(id, l)
  {
    LocationIds(l);
    KindsExclusive(id);
  }

  /** A stored location whose ids are in the filter is found by each of its own ids. */
  lemma FoundByOwnIds(table: seq<Location>, filter: set<seq<bv8>>, falsePositive: seq<bv8> -> bool, l: Location, id: LocationId)
    requires l in table && Lowered(l) && IdBytes(l) <= filter && OwnId(l, id)
    ensures Safe(filter, falsePositive, [id])
    ensures var r := GetAllSpec(table, filter, falsePositive, [id]);
      r.Ok? && l in r.value
  {
    OwnIdIndexed(l, id);
    OwnIdBytes(l, id);
    SingleIdFound(table, filter, falsePositive, id, l);
  }

  /** An own id is one of the five whose bytes Refresh adds to the filter. */
  lemma OwnIdBytes(l: Location, id: LocationId)
    requires OwnId(l, id)
    ensures Bytes(id) in IdBytes(l)
  {
    if id == l.Id() {
    } else if id == l.CityId() {
    } else if id == l.CountyId() {
    } else if id == l.StateId() {
    } else {
    }
  }

  /** An id of some kind whose bytes are in the filter finds every stored location it
      matches. */
  lemma SingleIdFound(table: seq<Location>, filter: set<seq<bv8>>, falsePositive: seq<bv8> -> bool, id: LocationId, l: Location)
    requires Kinds(id) != {} && Bytes(id) in filter && l in table && Matches(id, l)
    ensures Safe(filter, falsePositive, [id])
    ensures var r := GetAllSpec(table, filter, falsePositive, [id]);
      r.Ok? && l in r.value
  {
    assert [id][1..] == [];
    assert [id][0] == id;
    GetAllMembers(table, filter, falsePositive, [id]);
  }

  /** After a refresh, every location recorded for the filter is found by each of its own ids,
      whatever the filter's false positives. */
  lemma RefreshedLocationsFound(table: seq<Location>, archive: Archive, parseFloat: ParseFloat,
                                filter: set<seq<bv8>>, falsePositive: seq<bv8> -> bool, k: string, id: LocationId)
    requires RefreshSpec(table, archive, parseFloat).Ok?
    requires var m := RefreshSpec(table, archive, parseFloat).value.1;
      k in m && FilterOf(filter, m) && OwnId(m[k], id)
    ensures Safe(filter, falsePositive, [id])
    ensures var spec := RefreshSpec(table, archive, parseFloat).value;
      var r := GetAllSpec(spec.0, filter, falsePositive, [id]);
      r.Ok? && spec.1[k] in r.value
  {
    var spec := RefreshSpec(table, archive, parseFloat).value;
    RefreshedStoredLowered(table, archive, parseFloat, k);
    FoundByOwnIds(spec.0, filter, falsePositive, spec.1[k], id);
  }
}
