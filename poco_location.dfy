/** Model of poco/location.go: the postal-code service's location record and its hierarchical
    identifier with the kinds country, state, county, city and postal code. */
module PocoLocation {
  import opened Wrappers
  import opened GoStrings

  datatype Coordinate = Coordinate(latitude: real, longitude: real)

  /** A GeoNames location as the postal-code service stores it. */
  datatype Location = Location(
    coordinate: Coordinate,
    country: string,
    postalCode: string,
    city: string,
    county: string,
    state: string)
  {
    function CountryId(): LocationId {
      Country(country)
    }

    function StateId(): LocationId {
      State(country, state)
    }

    function CountyId(): LocationId {
      County(country, state, county)
    }

    function CityId(): LocationId {
      City(country, state, city)
    }

    /** The location's own id is its postal id. */
    function Id(): LocationId {
      PostalCode(country, postalCode)
    }
  }

  datatype Kind = CountryKind | StateKind | CountyKind | CityKind | PostalKind

  datatype LocationId = LocationId(
    country: string,
    city: string,
    state: string,
    postalCode: string,
    county: string)
  {
    predicate IsCountry() {
      country != "" && this == Country(country)
    }

    predicate IsState() {
      state != "" && this == State(country, state)
    }

    predicate IsCounty() {
      county != "" && this == County(country, state, county)
    }

    predicate IsCity() {
      city != "" && this == City(country, state, city)
    }

    predicate IsPostal() {
      postalCode != "" && this == PostalCode(country, postalCode)
    }
  }

  const ZeroId := LocationId("", "", "", "", "")

  function Country(country: string): LocationId {
    ZeroId.(country := ToLower(country))
  }

  function State(country: string, state: string): LocationId {
    ZeroId.(country := ToLower(country), state := ToLower(state))
  }

  function County(country: string, state: string, county: string): LocationId {
    ZeroId.(country := ToLower(country), state := ToLower(state), county := ToLower(county))
  }

  function City(country: string, state: string, city: string): LocationId {
    ZeroId.(country := ToLower(country), state := ToLower(state), city := ToLower(city))
  }

  /** The postal code is stored as given; only the country is lower-cased. */
  function PostalCode(country: string, postalCode: string): LocationId {
    ZeroId.(country := ToLower(country), postalCode := postalCode)
  }

  function Kinds(id: LocationId): set<Kind> {
    (if id.IsCountry() then {CountryKind} else {})
    + (if id.IsState() then {StateKind} else {})
    + (if id.IsCounty() then {CountyKind} else {})
    + (if id.IsCity() then {CityKind} else {})
    + (if id.IsPostal() then {PostalKind} else {})
  }

  /** The five kind predicates are pairwise exclusive, and the zero id has none of them. */
  lemma KindsExclusive(id: LocationId)
    ensures !(id.IsCountry() && id.IsState()) && !(id.IsCountry() && id.IsCounty())
    ensures !(id.IsCountry() && id.IsCity()) && !(id.IsCountry() && id.IsPostal())
    ensures !(id.IsState() && id.IsCounty()) && !(id.IsState() && id.IsCity())
    ensures !(id.IsState() && id.IsPostal()) && !(id.IsCounty() && id.IsCity())
    ensures !(id.IsCounty() && id.IsPostal()) && !(id.IsCity() && id.IsPostal())
    ensures |Kinds(id)| <= 1
    ensures Kinds(ZeroId) == {}
  {
  }

  /** Each constructor yields an id of exactly its own kind when its distinguishing argument is
      non-empty, and otherwise the id of the next coarser constructor. */
  lemma {:induction false} ConstructorKinds(c: string, s: string, co: string, ci: string, pc: string)
    ensures Kinds(Country(c)) == if c != "" then {CountryKind} else {}
    ensures Kinds(State(c, s)) == if s != "" then {StateKind} else Kinds(Country(c))
    ensures Kinds(County(c, s, co)) == if co != "" then {CountyKind} else Kinds(State(c, s))
    ensures Kinds(City(c, s, ci)) == if ci != "" then {CityKind} else Kinds(State(c, s))
    ensures Kinds(PostalCode(c, pc)) == if pc != "" then {PostalKind} else Kinds(Country(c))
  {
    LowerIdempotent(c);
    LowerIdempotent(s);
    LowerIdempotent(co);
    LowerIdempotent(ci);
    LowerEmpty(c);
    LowerEmpty(s);
    LowerEmpty(co);
    LowerEmpty(ci);
    KindsExclusive(Country(c));
    KindsExclusive(State(c, s));
    KindsExclusive(County(c, s, co));
    KindsExclusive(City(c, s, ci));
    KindsExclusive(PostalCode(c, pc));
  }

  /** Constructors lower-case every field they set, except the postal code. */
  lemma {:induction false} ConstructorsLowerCase(c: string, s: string, co: string, ci: string, pc: string)
    ensures IsLower(Country(c).country)
    ensures IsLower(State(c, s).country) && IsLower(State(c, s).state)
    ensures IsLower(County(c, s, co).state) && IsLower(County(c, s, co).county)
    ensures IsLower(City(c, s, ci).state) && IsLower(City(c, s, ci).city)
    ensures IsLower(PostalCode(c, pc).country) && PostalCode(c, pc).postalCode == pc
  {
    LowerIdempotent(c);
    LowerIdempotent(s);
    LowerIdempotent(co);
    LowerIdempotent(ci);
  }

  /** The five ids of a location are the constructors applied to its own fields, and each has
      its own kind exactly when its distinguishing field is set. */
  lemma {:induction false} LocationIds(l: Location)
    ensures l.CountryId() == Country(l.country) && l.StateId() == State(l.country, l.state)
    ensures l.CountyId() == County(l.country, l.state, l.county)
    ensures l.CityId() == City(l.country, l.state, l.city)
    ensures l.Id() == PostalCode(l.country, l.postalCode)
    ensures l.Id().IsPostal() <==> l.postalCode != ""
    ensures l.CityId().IsCity() <==> l.city != ""
    ensures l.CountyId().IsCounty() <==> l.county != ""
    ensures l.StateId().IsState() <==> l.state != ""
    ensures l.CountryId().IsCountry() <==> l.country != ""
    ensures l.postalCode != "" ==> Kinds(l.Id()) == {PostalKind}
    ensures l.city != "" ==> Kinds(l.CityId()) == {CityKind}
    ensures l.county != "" ==> Kinds(l.CountyId()) == {CountyKind}
    ensures l.state != "" ==> Kinds(l.StateId()) == {StateKind}
    ensures l.country != "" ==> Kinds(l.CountryId()) == {CountryKind}
  {
    ConstructorKinds(l.country, l.state, l.county, l.city, l.postalCode);
  }

  /** The text of each of a location's five ids, case by case: an id whose own field is
      empty is the id of the next coarser kind, and a location with no country gives "" for
      its country id. */
  function IdText(l: Location, k: Kind): string {
    var country := if l.country != "" then "city:" + ToLower(l.country) else "";
    var state := if l.state != "" then "city:" + ToLower(l.country) + "," + ToLower(l.state) else country;
    match k
    case CountryKind => country
    case StateKind => state
    case CountyKind =>
      if l.county != "" then "county:" + ToLower(l.country) + "," + ToLower(l.state) + "," + ToLower(l.county)
      else state
    case CityKind =>
      if l.city != "" then "city:" + ToLower(l.country) + "," + ToLower(l.state) + "," + ToLower(l.city)
      else state
    case PostalKind => if l.postalCode != "" then "postal:" + ToLower(l.country) + "," + l.postalCode else country
  }

  /** LocationId.String: the text form of an id, chosen by its kind. State and Country ids
      are written with the "city:" prefix. */
  function String(id: LocationId): string {
    if id.IsCity() then Render("city", [id.country, id.state, id.city])
    else if id.IsCounty() then Render("county", [id.country, id.state, id.county])
    else if id.IsPostal() then Render("postal", [id.country, id.postalCode])
    else if id.IsState() then Render("city", [id.country, id.state])
    else if id.IsCountry() then Render("city", [id.country])
    else ""
  }

  /** LocationId.Bytes: the UTF-8 bytes of the text form. */
  function Bytes(id: LocationId): seq<bv8> {
    Utf8(String(id))
  }

  /** Only an id of no kind has the empty text, and so the empty byte form. */
  lemma {:induction false} EmptyIffNoKind(id: LocationId)
    ensures String(id) == "" <==> Kinds(id) == {}
    ensures |Bytes(id)| >= |String(id)|
    ensures Bytes(id) == [] <==> Kinds(id) == {}
  {
    Utf8Length(String(id));
  }

  /** Bytes is the byte form of String: concatenating texts concatenates their bytes. */
  lemma {:induction false} BytesOfRender(kind: string, fields: seq<string>, id: LocationId)
    requires 1 <= |fields| <= 3
    requires String(id) == Render(kind, fields)
    ensures Bytes(id) == Utf8(kind) + Utf8(":") + Utf8(Join(fields))
  {
    Utf8Append(kind, ":");
    Utf8Append(kind + ":", Join(fields));
  }

  /** The kind-and-arity pairs ParseLocation accepts. */
  predicate Accepted(kind: string, arity: nat) {
    || (kind == "country" && arity == 1)
    || (kind == "state" && arity == 2)
    || (kind == "postal" && arity == 2)
    || (kind == "county" && arity == 3)
    || (kind == "city" && arity == 3)
  }

  /** The id that a kind and its comma-separated areas denote, when ParseLocation accepts the
      pair. */
  function FromParts(kind: string, areas: seq<string>): (r: Option<LocationId>)
    ensures r.Some? <==> Accepted(kind, |areas|)
  {
    if |areas| == 1 && kind == "country" then Some(Country(areas[0]))
    else if |areas| == 2 && kind == "state" then Some(State(areas[0], areas[1]))
    else if |areas| == 2 && kind == "postal" then Some(PostalCode(areas[0], areas[1]))
    else if |areas| == 3 && kind == "county" then Some(County(areas[0], areas[1], areas[2]))
    else if |areas| == 3 && kind == "city" then Some(City(areas[0], areas[1], areas[2]))
    else None
  }

  /** ParseLocation: lower-case, split at ':' into exactly two words, split the second at ','
      and accept only the listed kind/arity pairs; otherwise the zero id and an error. */
  function ParseLocation(s: string): (r: (LocationId, Option<Error>))
    ensures r.1.Some? ==> r == (ZeroId, Some(BadLocation(s)))
    ensures r.1.None? <==>
      var words := Split(ToLower(s), ':');
      |words| == 2 && Accepted(words[0], |Split(words[1], ',')|)
  {
    var words := Split(ToLower(s), ':');
    var parsed := if |words| == 2 then FromParts(words[0], Split(words[1], ',')) else None;
    if parsed.Some? then (parsed.value, None) else (ZeroId, Some(BadLocation(s)))
  }

  /** What ParseLocation makes of the text "kind:f1[,f2[,f3]]" of lower-case plain fields. */
  lemma {:induction false} ParseText(kind: string, fields: seq<string>)
    requires ':' !in kind && forall i :: 0 <= i < |kind| ==> !('A' <= kind[i] <= 'Z')
    requires 1 <= |fields| <= 3
    requires forall i :: 0 <= i < |fields| ==> Plain(fields[i]) && IsLower(fields[i])
    ensures var text := Render(kind, fields);
      ParseLocation(text) ==
        if FromParts(kind, fields).Some? then (FromParts(kind, fields).value, None)
        else (ZeroId, Some(BadLocation(text)))
  {
    ParseRendered(kind, fields);
  }

  /** The fields of an id of some kind are lower-case, except its postal code. */
  lemma {:induction false} KindFieldsLower(id: LocationId)
    requires Kinds(id) != {}
    ensures IsLower(id.country) && IsLower(id.state) && IsLower(id.county) && IsLower(id.city)
  {
    LowerIdempotent(id.country);
    LowerIdempotent(id.state);
    LowerIdempotent(id.county);
    LowerIdempotent(id.city);
    assert IsLower("");
  }

  lemma {:induction false} StringOfKind(id: LocationId)
    ensures id.IsCity() ==> String(id) == Render("city", [id.country, id.state, id.city])
    ensures id.IsCounty() ==> String(id) == Render("county", [id.country, id.state, id.county])
    ensures id.IsPostal() ==> String(id) == Render("postal", [id.country, id.postalCode])
    ensures id.IsState() ==> String(id) == Render("city", [id.country, id.state])
    ensures id.IsCountry() ==> String(id) == Render("city", [id.country])
  {
    KindsExclusive(id);
  }

  /** Round trip: City, County and Postal ids whose fields hold no separator are recovered by
      ParseLocation from their text; a postal code must already be lower-case. */
  lemma {:induction false} ParseStringRoundTrip(id: LocationId)
    requires id.IsCity() || id.IsCounty() || (id.IsPostal() && IsLower(id.postalCode))
    requires Plain(id.country) && Plain(id.state) && Plain(id.county)
    requires Plain(id.city) && Plain(id.postalCode)
    ensures ParseLocation(String(id)) == (id, None)
  {
    KindFieldsLower(id);
    StringOfKind(id);
    if id.IsCity() {
      ParseText("city", [id.country, id.state, id.city]);
    } else if id.IsCounty() {
      ParseText("county", [id.country, id.state, id.county]);
    } else {
      ParseText("postal", [id.country, id.postalCode]);
    }
  }

  /** A State id renders as "city:<country>,<state>", which ParseLocation refuses, since
      "city" needs three areas: State ids do not round-trip. */
  lemma {:induction false} StateDoesNotRoundTrip(id: LocationId)
    requires id.IsState() && Plain(id.country) && Plain(id.state)
    ensures String(id) == Render("city", [id.country, id.state])
    ensures ParseLocation(String(id)) == (ZeroId, Some(BadLocation(String(id))))
  {
    KindFieldsLower(id);
    StringOfKind(id);
    ParseText("city", [id.country, id.state]);
  }

  /** A Country id renders as "city:<country>", which ParseLocation refuses: Country ids do not
      round-trip. */
  lemma {:induction false} CountryDoesNotRoundTrip(id: LocationId)
    requires id.IsCountry() && Plain(id.country)
    ensures String(id) == Render("city", [id.country])
    ensures ParseLocation(String(id)) == (ZeroId, Some(BadLocation(String(id))))
  {
    KindFieldsLower(id);
    StringOfKind(id);
    ParseText("city", [id.country]);
  }

  lemma IdTextCountry(l: Location)
    ensures String(l.CountryId()) == IdText(l, CountryKind)
  {
    LocationIds(l);
    if l.country != "" {
      StringOfKind(l.CountryId());
      RenderFields("city", ToLower(l.country), "", "");
    } else {
      ConstructorKinds(l.country, l.state, l.county, l.city, l.postalCode);
      EmptyIffNoKind(l.CountryId());
    }
  }

  lemma IdTextState(l: Location)
    ensures String(l.StateId()) == IdText(l, StateKind)
  {
    LocationIds(l);
    if l.state != "" {
      StringOfKind(l.StateId());
      RenderFields("city", ToLower(l.country), ToLower(l.state), "");
    } else {
      LowerEmpty(l.state);
      assert l.StateId() == l.CountryId();
      IdTextCountry(l);
    }
  }

  lemma IdTextCounty(l: Location)
    ensures String(l.CountyId()) == IdText(l, CountyKind)
  {
    LocationIds(l);
    if l.county != "" {
      StringOfKind(l.CountyId());
      RenderFields("county", ToLower(l.country), ToLower(l.state), ToLower(l.county));
    } else {
      LowerEmpty(l.county);
      assert l.CountyId() == l.StateId();
      IdTextState(l);
    }
  }

  lemma IdTextCity(l: Location)
    ensures String(l.CityId()) == IdText(l, CityKind)
  {
    LocationIds(l);
    if l.city != "" {
      StringOfKind(l.CityId());
      RenderFields("city", ToLower(l.country), ToLower(l.state), ToLower(l.city));
    } else {
      LowerEmpty(l.city);
      assert l.CityId() == l.StateId();
      IdTextState(l);
    }
  }

  lemma IdTextPostal(l: Location)
    ensures String(l.Id()) == IdText(l, PostalKind)
  {
    LocationIds(l);
    if l.postalCode != "" {
      StringOfKind(l.Id());
      RenderFields("postal", ToLower(l.country), l.postalCode, "");
    } else {
      assert l.Id() == l.CountryId();
      IdTextCountry(l);
    }
  }

  /** The texts of a location's five ids are the ones IdText spells out. */
  lemma IdTexts(l: Location)
    ensures String(l.CountryId()) == IdText(l, CountryKind)
    ensures String(l.StateId()) == IdText(l, StateKind)
    ensures String(l.CountyId()) == IdText(l, CountyKind)
    ensures String(l.CityId()) == IdText(l, CityKind)
    ensures String(l.Id()) == IdText(l, PostalKind)
  {
    IdTextCountry(l);
    IdTextState(l);
    IdTextCounty(l);
    IdTextCity(l);
    IdTextPostal(l);
  }
}
