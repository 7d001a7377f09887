/** Model of geonames/location.go: the hierarchical location identifier (its per-kind
    constructors, its kind predicates, its text form and parser) and the Location whose
    bounder accumulates the points of an envelope. */
module GeonamesLocation {
  import opened Wrappers
  import opened GoStrings

  datatype Coordinate = Coordinate(latitude: real, longitude: real)

  /** The value fields of a Location: the coordinate and the five text fields. */
  datatype Record = Record(
    coordinate: Coordinate,
    country: string,
    postalCode: string,
    city: string,
    subdivision1: string,
    subdivision2: string)

  const ZeroRecord := Record(Coordinate(0.0, 0.0), "", "", "", "", "")

  /** What a Location holds: its value fields and its bounder, None until the first Add,
      then the points added so far. */
  datatype Fence = Fence(record: Record, bounder: Option<seq<Coordinate>>)

  function Points(bounder: Option<seq<Coordinate>>): seq<Coordinate> {
    if bounder.Some? then bounder.value else []
  }

  /** Center of an envelope. The rectangle centre computed by the spherical geometry library
      is the parameter `rectCenter`; Center hands it the added points followed by the
      location's own coordinate. */
  function CenterOf(f: Fence, rectCenter: seq<Coordinate> -> Coordinate): (c: Coordinate)
    ensures f.bounder.None? ==> c == f.record.coordinate
  {
    match f.bounder
    case None => f.record.coordinate
    case Some(points) => rectCenter(points + [f.record.coordinate])
  }

  /** Radius of an envelope in km. The cap-derived radius is the parameter `capRadius`; it is
      applied to the added points only. */
  function RadiusOf(f: Fence, capRadius: seq<Coordinate> -> real): (r: real)
    ensures f.bounder.None? ==> r == 0.0
  {
    match f.bounder
    case None => 0.0
    case Some(points) => capRadius(points)
  }

  /** A zero Location has no bounder: its centre is (0, 0) and its radius 0, whatever the
      geometry would compute. */
  lemma ZeroLocationEnvelope(rectCenter: seq<Coordinate> -> Coordinate, capRadius: seq<Coordinate> -> real)
    ensures CenterOf(Fence(ZeroRecord, None), rectCenter) == Coordinate(0.0, 0.0)
    ensures RadiusOf(Fence(ZeroRecord, None), capRadius) == 0.0
  {
  }

  class Location {
    var record: Record
    var bounder: Option<seq<Coordinate>>

    constructor (record: Record)
      ensures this.record == record && bounder == None
    {
      this.record := record;
      bounder := None;
    }

    function View(): Fence
      reads this
    {
      Fence(record, bounder)
    }

    /** Add: allocates the bounder on first use, then adds the point of `loc`; the value
        fields are not touched. */
    method Add(loc: Record)
      modifies this`bounder
      ensures bounder == Some(Points(old(bounder)) + [loc.coordinate])
      ensures record == old(record)
    {
      if bounder.None? {
        bounder := Some([]);
      }
      bounder := Some(bounder.value + [loc.coordinate]);
    }

    function Center(rectCenter: seq<Coordinate> -> Coordinate): (c: Coordinate)
      reads this
      ensures bounder.None? ==> c == record.coordinate
    {
      CenterOf(View(), rectCenter)
    }

    function Radius(capRadius: seq<Coordinate> -> real): (r: real)
      reads this
      ensures bounder.None? ==> r == 0.0
    {
      RadiusOf(View(), capRadius)
    }
  }

  datatype Kind = CountryKind | PrimaryKind | SecondaryKind | CityKind | PostalKind

  /** LocationId: which fields are set, and how, decides its kind. */
  datatype LocationId = LocationId(
    country: string,
    city: string,
    postalCode: string,
    primary: string,
    secondary: string)
  {
    predicate IsCountry() {
      country != "" && this == Country(country)
    }

    predicate IsPrimary() {
      primary != "" && this == Primary(country, primary)
    }

    predicate IsSecondary() {
      secondary != "" && this == Secondary(country, primary, secondary)
    }

    predicate IsCity() {
      city != "" && this == City(country, primary, city)
    }

    predicate IsPostal() {
      postalCode != "" && this == PostalCode(country, postalCode)
    }
  }

  const ZeroId := LocationId("", "", "", "", "")

  function Country(country: string): LocationId {
    ZeroId.(country := ToLower(country))
  }

  function Primary(country: string, subdivision1: string): LocationId {
    ZeroId.(country := ToLower(country), primary := ToLower(subdivision1))
  }

  function Secondary(country: string, subdivision1: string, subdivision2: string): LocationId {
    ZeroId.(country := ToLower(country), primary := ToLower(subdivision1), secondary := ToLower(subdivision2))
  }

  function City(country: string, primary: string, city: string): LocationId {
    ZeroId.(country := ToLower(country), primary := ToLower(primary), city := ToLower(city))
  }

  /** The postal code is stored as given; only the country is lower-cased. */
  function PostalCode(country: string, postalCode: string): LocationId {
    ZeroId.(country := ToLower(country), postalCode := postalCode)
  }

  /** The kinds an id has; the lemmas below show it has at most one. */
  function Kinds(id: LocationId): set<Kind> {
    (if id.IsCountry() then {CountryKind} else {})
    + (if id.IsPrimary() then {PrimaryKind} else {})
    + (if id.IsSecondary() then {SecondaryKind} else {})
    + (if id.IsCity() then {CityKind} else {})
    + (if id.IsPostal() then {PostalKind} else {})
  }

  /** The five kind predicates are pairwise exclusive, and the zero id has none of them. */
  lemma KindsExclusive(id: LocationId)
    ensures !(id.IsCountry() && id.IsPrimary()) && !(id.IsCountry() && id.IsSecondary())
    ensures !(id.IsCountry() && id.IsCity()) && !(id.IsCountry() && id.IsPostal())
    ensures !(id.IsPrimary() && id.IsSecondary()) && !(id.IsPrimary() && id.IsCity())
    ensures !(id.IsPrimary() && id.IsPostal()) && !(id.IsSecondary() && id.IsCity())
    ensures !(id.IsSecondary() && id.IsPostal()) && !(id.IsCity() && id.IsPostal())
    ensures |Kinds(id)| <= 1
    ensures Kinds(ZeroId) == {}
  {
  }

  /** Each constructor yields an id of exactly its own kind when its distinguishing argument is
      non-empty, and otherwise the id of the next coarser constructor. */
  lemma {:induction false} ConstructorKinds(c: string, p: string, s: string, ci: string, pc: string)
    ensures Kinds(Country(c)) == if c != "" then {CountryKind} else {}
    ensures Kinds(Primary(c, p)) == if p != "" then {PrimaryKind} else Kinds(Country(c))
    ensures Kinds(Secondary(c, p, s)) == if s != "" then {SecondaryKind} else Kinds(Primary(c, p))
    ensures Kinds(City(c, p, ci)) == if ci != "" then {CityKind} else Kinds(Primary(c, p))
    ensures Kinds(PostalCode(c, pc)) == if pc != "" then {PostalKind} else Kinds(Country(c))
  {
    LowerIdempotent(c);
    LowerIdempotent(p);
    LowerIdempotent(s);
    LowerIdempotent(ci);
    LowerEmpty(c);
    LowerEmpty(p);
    LowerEmpty(s);
    LowerEmpty(ci);
    KindsExclusive(Country(c));
    KindsExclusive(Primary(c, p));
    KindsExclusive(Secondary(c, p, s));
    KindsExclusive(City(c, p, ci));
    KindsExclusive(PostalCode(c, pc));
  }

  /** Constructors lower-case every field they set, except the postal code. */
  lemma {:induction false} ConstructorsLowerCase(c: string, p: string, s: string, ci: string, pc: string)
    ensures IsLower(Country(c).country)
    ensures IsLower(Primary(c, p).country) && IsLower(Primary(c, p).primary)
    ensures IsLower(Secondary(c, p, s).primary) && IsLower(Secondary(c, p, s).secondary)
    ensures IsLower(City(c, p, ci).primary) && IsLower(City(c, p, ci).city)
    ensures IsLower(PostalCode(c, pc).country) && PostalCode(c, pc).postalCode == pc
  {
    LowerIdempotent(c);
    LowerIdempotent(p);
    LowerIdempotent(s);
    LowerIdempotent(ci);
  }

  /** LocationId.String: the text form of an id, chosen by its kind. */
  function String(id: LocationId): (r: string)
    ensures r == "" <==> Kinds(id) == {}
  {
    if id.IsCity() then Render("city", [id.country, id.primary, id.city])
    else if id.IsSecondary() then Render("subdivision", [id.country, id.primary, id.secondary])
    else if id.IsPostal() then Render("postal", [id.country, id.postalCode])
    else if id.IsPrimary() then Render("subdivision", [id.country, id.primary])
    else if id.IsCountry() then Render("city", [id.country])
    else ""
  }

  /** The kind-and-arity pairs ParseId accepts. */
  predicate Accepted(kind: string, arity: nat) {
    || (kind == "country" && arity == 1)
    || (kind == "subdivision" && (arity == 2 || arity == 3))
    || (kind == "postal" && arity == 2)
    || (kind == "city" && arity == 3)
  }

  /** The id that a kind and its comma-separated areas denote, when ParseId accepts the pair. */
  function FromParts(kind: string, areas: seq<string>): (r: Option<LocationId>)
    ensures r.Some? <==> Accepted(kind, |areas|)
  {
    if |areas| == 1 && kind == "country" then Some(Country(areas[0]))
    else if |areas| == 2 && kind == "subdivision" then Some(Primary(areas[0], areas[1]))
    else if |areas| == 2 && kind == "postal" then Some(PostalCode(areas[0], areas[1]))
    else if |areas| == 3 && kind == "subdivision" then Some(Secondary(areas[0], areas[1], areas[2]))
    else if |areas| == 3 && kind == "city" then Some(City(areas[0], areas[1], areas[2]))
    else None
  }

  /** ParseId: the text is lower-cased, split at ':' into exactly two words, and the second
      word split at ','. Anything but an accepted kind/arity pair is refused with the zero id. */
  function ParseId(s: string): (r: (LocationId, Option<Error>))
    ensures r.1.Some? ==> r == (ZeroId, Some(BadLocation(s)))
    ensures r.1.None? <==>
      var words := Split(ToLower(s), ':');
      |words| == 2 && Accepted(words[0], |Split(words[1], ',')|)
  {
    var words := Split(ToLower(s), ':');
    var parsed := if |words| == 2 then FromParts(words[0], Split(words[1], ',')) else None;
    if parsed.Some? then (parsed.value, None) else (ZeroId, Some(BadLocation(s)))
  }

  /** What ParseId makes of the text "kind:f1[,f2[,f3]]" of lower-case plain fields. */
  lemma {:induction false} ParseText(kind: string, fields: seq<string>)
    requires ':' !in kind && forall i :: 0 <= i < |kind| ==> !('A' <= kind[i] <= 'Z')
    requires 1 <= |fields| <= 3
    requires forall i :: 0 <= i < |fields| ==> Plain(fields[i]) && IsLower(fields[i])
    ensures var text := kind + ":" + Join(fields);
      ParseId(text) ==
        if FromParts(kind, fields).Some? then (FromParts(kind, fields).value, None)
        else (ZeroId, Some(BadLocation(text)))
  {
    ParseRendered(kind, fields);
  }

  /** The fields of an id of some kind are lower-case, except its postal code. */
  lemma {:induction false} KindFieldsLower(id: LocationId)
    requires Kinds(id) != {}
    ensures IsLower(id.country) && IsLower(id.primary) && IsLower(id.secondary) && IsLower(id.city)
  {
    LowerIdempotent(id.country);
    LowerIdempotent(id.primary);
    LowerIdempotent(id.secondary);
    LowerIdempotent(id.city);
    assert IsLower("");
  }

  /** The text String gives each kind, written with Join. */
  lemma {:induction false} StringOfKind(id: LocationId)
    ensures id.IsCity() ==> String(id) == Render("city", [id.country, id.primary, id.city])
    ensures id.IsSecondary() ==> String(id) == Render("subdivision", [id.country, id.primary, id.secondary])
    ensures id.IsPostal() ==> String(id) == Render("postal", [id.country, id.postalCode])
    ensures id.IsPrimary() ==> String(id) == Render("subdivision", [id.country, id.primary])
    ensures id.IsCountry() ==> String(id) == Render("city", [id.country])
  {
    KindsExclusive(id);
  }

  /** Round trip: City, Secondary, Primary and Postal ids whose fields hold no separator are
      recovered by ParseId from their text; a postal code must already be lower-case, since
      ParseId lower-cases the whole text. */
  lemma {:induction false} ParseStringRoundTrip(id: LocationId)
    requires id.IsCity() || id.IsSecondary() || id.IsPrimary() || (id.IsPostal() && IsLower(id.postalCode))
    requires Plain(id.country) && Plain(id.primary) && Plain(id.secondary)
    requires Plain(id.city) && Plain(id.postalCode)
    ensures ParseId(String(id)) == (id, None)
  {
    KindFieldsLower(id);
    StringOfKind(id);
    if id.IsCity() {
      ParseText("city", [id.country, id.primary, id.city]);
    } else if id.IsSecondary() {
      ParseText("subdivision", [id.country, id.primary, id.secondary]);
    } else if id.IsPostal() {
      ParseText("postal", [id.country, id.postalCode]);
    } else {
      ParseText("subdivision", [id.country, id.primary]);
    }
  }

  /** A Country id renders as "city:<country>", which ParseId refuses: Country ids do not
      round-trip. */
  lemma {:induction false} CountryDoesNotRoundTrip(id: LocationId)
    requires id.IsCountry() && Plain(id.country)
    ensures String(id) == "city:" + id.country
    ensures ParseId(String(id)) == (ZeroId, Some(BadLocation(String(id))))
  {
    KindFieldsLower(id);
    StringOfKind(id);
    ParseText("city", [id.country]);
  }

  /** ParseId accepts "country:" yet yields the zero id, which has no kind. */
  lemma ParseEmptyCountry()
    ensures ParseId("country:") == (ZeroId, None)
    ensures Kinds(ParseId("country:").0) == {}
  {
    NoUpperIsLower("country:");
    assert "country:" == "country" + [':'] + "";
    SplitAtSeparator("country", ':', "");
    SplitNoSeparator("", ',');
  }
}
