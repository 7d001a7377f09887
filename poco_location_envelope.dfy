/** Model of poco/location_envelope.go: the envelope of the locations a set of ids finds. The
    s2 rectangle bounder is represented by the sequence of points it was given; the centre and
    radius it computes from them are geometry and are not modelled. */
module PocoLocationEnvelope {
  import opened Wrappers
  import opened PocoLocation
  import opened PocoLocationRefresh
  import opened PocoLocationGet

  class Envelope {
    var locations: seq<Location>
    /** The points given to the bounder, one per location, in order. */
    var points: seq<Coordinate>

    constructor ()
      ensures locations == [] && points == []
    {
      locations := [];
      points := [];
    }

    /** AddLocation: the location is appended and its coordinate given to the bounder. */
    method AddLocation(loc: Location)
      modifies this
      ensures locations == old(locations) + [loc]
      ensures points == old(points) + [loc.coordinate]
    {
      locations := locations + [loc];
      points := points + [loc.coordinate];
    }

    function Locations(): seq<Location>
      reads this
    {
      locations
    }

    /** Every point the bounder holds is the coordinate of the location at the same place. */
    predicate Valid()
      reads this
    {
      |points| == |locations| && forall i :: 0 <= i < |points| ==> points[i] == locations[i].coordinate
    }
  }

  /** The loop of Envelope: each location is added in turn. */
  method AddLocations(e: Envelope, locations: seq<Location>)
    requires e.Valid()
    modifies e
    ensures e.Valid() && e.locations == old(e.locations) + locations
  {
    var i := 0;
    while i < |locations|
      invariant 0 <= i <= |locations|
      invariant e.Valid() && e.locations == old(e.locations) + locations[..i]
    {
      e.AddLocation(locations[i]);
      assert locations[..i + 1] == locations[..i] + [locations[i]];
      i := i + 1;
    }
    assert locations[..i] == locations;
  }

  /** Envelope: the locations GetAll finds for the ids, each added in turn; GetAll's error is
      returned with no envelope. */
  method EnvelopeOf(s: LocationService, ids: seq<LocationId>, falsePositive: seq<bv8> -> bool)
    returns (e: Envelope?, err: Option<Error>)
    requires Safe(s.filter, falsePositive, ids)
    ensures var all := GetAllSpec(s.table, s.filter, falsePositive, ids);
      && (all.Err? ==> e == null && err == Some(all.error))
      && (all.Ok? ==> err == None && e != null && fresh(e) && e.Valid() && e.Locations() == all.value)
  {
    var locations := GetAll(s, ids, falsePositive);
    if locations.Err? {
      return null, Some(locations.error);
    }
    e := new Envelope();
    AddLocations(e, locations.value);
    return e, None;
  }
}
