/** The configuration the refresh paths read: where the GeoNames and MaxMind exports are
    fetched from, the MaxMind license key, and the refresh timeout; the options that set them,
    applied in order; and the license-key substitution into the MaxMind location. */
module Settings {
  import opened GoStrings

  /** The placeholder the default MaxMind location carries for the license key. */
  const LicenseKeyPlaceholder := "YOUR_LICENSE_KEY"

  const DefaultGeonamesLocation := "https://download.geonames.org/export/zip/allCountries.zip"

  /** The default MaxMind location around its placeholder; the head holds no 'Y', so the
      placeholder is the first match Replace finds. */
  const MaxmindLocationHead :=
    "https://download.max" + "mind.com/app/geoip_d" + "ownload?edition_id=G" + "eoLite2-City&license" + "_key="
  const MaxmindLocationTail := "&suffix=tar.gz"

  const DefaultMaxmindLocation := MaxmindLocationHead + LicenseKeyPlaceholder + MaxmindLocationTail

  /** Timeouts, in seconds. */
  const DefaultRefreshTimeout: int := 5 * 60

  datatype Config = Config(
    refreshTimeout: int,
    geonamesLocation: string,
    maxmindLocation: string,
    maxmindKey: string)

  /** The configuration before any option: the 5-minute timeout, both default locations and no
      license key. */
  const Defaults := Config(DefaultRefreshTimeout, DefaultGeonamesLocation, DefaultMaxmindLocation, "")

  /** One option: each sets one field. */
  datatype ConfigOption =
    | RefreshTimeout(timeout: int)
    | GeonamesLocation(location: string)
    | MaxmindLocation(location: string)
    | MaxmindKey(key: string)

  function Configure(c: Config, o: ConfigOption): Config {
    match o
    case RefreshTimeout(t) => c.(refreshTimeout := t)
    case GeonamesLocation(l) => c.(geonamesLocation := l)
    case MaxmindLocation(l) => c.(maxmindLocation := l)
    case MaxmindKey(k) => c.(maxmindKey := k)
  }

  /** The options applied one after the other. */
  function ConfigureAll(c: Config, opts: seq<ConfigOption>): Config
    decreases |opts|
  {
    if opts == [] then c else Configure(ConfigureAll(c, opts[..|opts| - 1]), opts[|opts| - 1])
  }

  /** The fields of a configuration, by name, and their values. */
  datatype Field = TimeoutField | GeonamesField | MaxmindField | KeyField
  datatype Value = Seconds(seconds: int) | Text(text: string)

  function FieldOf(o: ConfigOption): Field {
    match o
    case RefreshTimeout(_) => TimeoutField
    case GeonamesLocation(_) => GeonamesField
    case MaxmindLocation(_) => MaxmindField
    case MaxmindKey(_) => KeyField
  }

  function ValueOf(o: ConfigOption): Value {
    match o
    case RefreshTimeout(t) => Seconds(t)
    case GeonamesLocation(l) => Text(l)
    case MaxmindLocation(l) => Text(l)
    case MaxmindKey(k) => Text(k)
  }

  function Get(c: Config, f: Field): Value {
    match f
    case TimeoutField => Seconds(c.refreshTimeout)
    case GeonamesField => Text(c.geonamesLocation)
    case MaxmindField => Text(c.maxmindLocation)
    case KeyField => Text(c.maxmindKey)
  }

  /** An option sets its own field to its value and leaves the other three alone. */
  lemma ConfigureOneField(c: Config, o: ConfigOption)
    ensures Get(Configure(c, o), FieldOf(o)) == ValueOf(o)
    ensures forall f :: f != FieldOf(o) ==> Get(Configure(c, o), f) == Get(c, f)
  {
  }

  /** The last option for a field decides it, whatever came before. */
  lemma {:induction false} LastOptionWins(c: Config, opts: seq<ConfigOption>, i: int)
    requires 0 <= i < |opts|
    requires forall j :: i < j < |opts| ==> FieldOf(opts[j]) != FieldOf(opts[i])
    ensures Get(ConfigureAll(c, opts), FieldOf(opts[i])) == ValueOf(opts[i])
    decreases |opts|
  {
    var n := |opts| - 1;
    ConfigureOneField(ConfigureAll(c, opts[..n]), opts[n]);
    if i < n {
      LastOptionWins(c, opts[..n], i);
    }
  }

  /** A field no option names keeps its value. */
  lemma {:induction false} UnsetFieldKept(c: Config, opts: seq<ConfigOption>, f: Field)
    requires forall j :: 0 <= j < |opts| ==> FieldOf(opts[j]) != f
    ensures Get(ConfigureAll(c, opts), f) == Get(c, f)
    decreases |opts|
  {
    if opts != [] {
      var n := |opts| - 1;
      ConfigureOneField(ConfigureAll(c, opts[..n]), opts[n]);
      UnsetFieldKept(c, opts[..n], f);
    }
  }

  /** The MaxMind step runs when the location was changed or a license key was given. */
  predicate MaxmindWanted(c: Config) {
    c.maxmindLocation != DefaultMaxmindLocation || c.maxmindKey != ""
  }

  /** The MaxMind URL fetched: the location with its first placeholder replaced by the key. */
  function MaxmindUrl(c: Config): string {
    ReplaceFirst(c.maxmindLocation, LicenseKeyPlaceholder, c.maxmindKey)
  }

  /** strings.Replace with count 1 replaces the first occurrence: here, the one after a head
      that cannot hold the placeholder's first character. */
  lemma {:induction false} ReplaceAfterHead(head: string, pattern: string, tail: string, replacement: string)
    requires pattern != "" && pattern[0] !in head
    ensures ReplaceFirst(head + pattern + tail, pattern, replacement) == head + replacement + tail
  {
    var s := head + pattern + tail;
    assert OccursAt(s, pattern, |head|) by {
      assert s[|head|..|head| + |pattern|] == pattern;
    }
    forall j: nat | j < |head| ensures !OccursAt(s, pattern, j) {
      assert s[j] == head[j];
    }
    assert s[..|head|] == head;
    assert s[|head| + |pattern|..] == tail;
  }

  /** With the default location, the key given lands in the license_key parameter. */
  lemma DefaultMaxmindUrl(key: string)
    ensures MaxmindUrl(Defaults.(maxmindKey := key)) == MaxmindLocationHead + key + MaxmindLocationTail
    ensures MaxmindWanted(Defaults.(maxmindKey := key)) <==> key != ""
  {
    assert 'Y' !in MaxmindLocationHead;
    ReplaceAfterHead(MaxmindLocationHead, LicenseKeyPlaceholder, MaxmindLocationTail, key);
  }
}
