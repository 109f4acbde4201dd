// internal/config: scaler metadata to settings. The string parsers are parameters (strconv and
// time.ParseDuration are not part of this model); what matters is what is done with their results.
module Config {
  import opened Wrappers

  const MIN_INT64 := -0x8000_0000_0000_0000
  const MAX_INT64 := 0x7FFF_FFFF_FFFF_FFFF

  // A duration or an int as the program holds it.
  newtype int64 = x: int | MIN_INT64 <= x <= MAX_INT64

  datatype Parsers = Parsers(
    float: string -> Option<real>,
    boolean: string -> Option<bool>,
    duration: string -> Option<int64>,
    integer: string -> Option<int64>)

  datatype Config = Config(
    promAddr: string, queueQuery: string, kvQuery: string,
    queueThreshold: real, kvThreshold: real, activation: real,
    treatMissingAsError: bool, cacheTTL: int64, streamPollInterval: int64, streamMaxConsecutiveFailures: int64)

  datatype Result = Ok(config: Config) | MissingAddress

  const DEFAULTS := Config("", "sum(vllm:num_requests_waiting)", "max(vllm:gpu_cache_usage_perc)",
                           3.0, 0.7, 1.0, false, 15_000_000_000, 10_000_000_000, 5)

  // An absent key reads as the empty string.
  function Field(m: map<string, string>, key: string): string {
    if key in m then m[key] else ""
  }

  function Or<T>(parse: string -> Option<T>, s: string, default: T): T {
    if s == "" then default
    else match parse(s) case Some(v) => v case None => default
  }

  function PositiveDurationOr(p: Parsers, s: string, default: int64): int64 {
    var d := Or(p.duration, s, default);
    if d > 0 then d else default
  }

  function PositiveIntOr(p: Parsers, s: string, default: int64): int64 {
    if s == "" then default
    else match p.integer(s) case Some(n) => (if n < 1 then default else n) case None => default
  }

  function StringOr(s: string, default: string): string {
    if s != "" then s else default
  }

  // The settings a map spells out, whatever its address.
  function Settings(p: Parsers, m: map<string, string>): Config {
    Config(
      Field(m, "prometheusAddress"),
      StringOr(Field(m, "queueQuery"), DEFAULTS.queueQuery),
      StringOr(Field(m, "kvCacheQuery"), DEFAULTS.kvQuery),
      Or(p.float, Field(m, "queueThreshold"), DEFAULTS.queueThreshold),
      Or(p.float, Field(m, "kvCacheThreshold"), DEFAULTS.kvThreshold),
      Or(p.float, Field(m, "activationThreshold"), DEFAULTS.activation),
      Or(p.boolean, Field(m, "treatMissingAsError"), false),
      Or(p.duration, Field(m, "cacheTTL"), DEFAULTS.cacheTTL),
      PositiveDurationOr(p, Field(m, "streamPollInterval"), DEFAULTS.streamPollInterval),
      PositiveIntOr(p, Field(m, "streamMaxConsecutiveFailures"), DEFAULTS.streamMaxConsecutiveFailures))
  }

  function Parse(p: Parsers, m: map<string, string>): (r: Result)
    // An address is all that is required, and the stream loop always gets a positive interval and limit.
    ensures r.Ok? <==> "prometheusAddress" in m && m["prometheusAddress"] != ""
    ensures r.Ok? ==> r.config.streamPollInterval > 0 && r.config.streamMaxConsecutiveFailures >= 1
    ensures r.Ok? ==> r.config.promAddr != "" && r.config.queueQuery != "" && r.config.kvQuery != ""
  {
    if Field(m, "prometheusAddress") == "" then MissingAddress else Ok(Settings(p, m))
  }

  // The override is used exactly when it parses to a positive value; everything else falls back.
  lemma StreamOverridesUsedIff(p: Parsers, m: map<string, string>)
    requires Parse(p, m).Ok?
    ensures var c := Parse(p, m).config; var raw := Field(m, "streamPollInterval");
      c.streamPollInterval ==
        (if raw != "" && p.duration(raw).Some? && p.duration(raw).value > 0 then p.duration(raw).value
         else DEFAULTS.streamPollInterval)
    ensures var c := Parse(p, m).config; var raw := Field(m, "streamMaxConsecutiveFailures");
      c.streamMaxConsecutiveFailures ==
        (if raw != "" && p.integer(raw).Some? && p.integer(raw).value > 0 then p.integer(raw).value
         else DEFAULTS.streamMaxConsecutiveFailures)
  {
  }

  lemma OnlyAddressGivesDefaults(p: Parsers, addr: string)
    requires addr != ""
    ensures Parse(p, map["prometheusAddress" := addr]) == Ok(DEFAULTS.(promAddr := addr))
    // Spelled out: 3 waiting requests, 70 % of the KV cache, activation above 1, 15 s, 10 s, 5 failures.
    ensures Parse(p, map["prometheusAddress" := addr])
         == Ok(Config(addr, "sum(vllm:num_requests_waiting)", "max(vllm:gpu_cache_usage_perc)", 3.0, 0.7, 1.0, false,
                      15_000_000_000, 10_000_000_000, 5))
  {
  }

  // A setting is what its own key parses to, or its default: 3, 0.7 and 1 for the thresholds, false, 15 s.
  lemma OverridesUsedIff(p: Parsers, m: map<string, string>)
    requires Parse(p, m).Ok?
    ensures var c := Parse(p, m).config;
      && c.promAddr == m["prometheusAddress"]
      && c.queueQuery == (if "queueQuery" in m && m["queueQuery"] != "" then m["queueQuery"]
                          else "sum(vllm:num_requests_waiting)")
      && c.kvQuery == (if "kvCacheQuery" in m && m["kvCacheQuery"] != "" then m["kvCacheQuery"]
                       else "max(vllm:gpu_cache_usage_perc)")
      && c.queueThreshold == ParsedOr(p.float, m, "queueThreshold", 3.0)
      && c.kvThreshold == ParsedOr(p.float, m, "kvCacheThreshold", 0.7)
      && c.activation == ParsedOr(p.float, m, "activationThreshold", 1.0)
      && c.treatMissingAsError == ParsedOr(p.boolean, m, "treatMissingAsError", false)
      && c.cacheTTL == ParsedOr(p.duration, m, "cacheTTL", 15_000_000_000)
  {
  }

  ghost function ParsedOr<T>(parse: string -> Option<T>, m: map<string, string>, key: string, default: T): T {
    if key in m && m[key] != "" && parse(m[key]).Some? then parse(m[key]).value else default
  }

  // What `parse` makes of a value, if it is set and parses.
  function Override<T>(parse: string -> Option<T>, s: string): Option<T> {
    if s == "" then None else parse(s)
  }

  function Else<T>(o: Option<T>, default: T): T {
    if o.Some? then o.value else default
  }

  function IfPositive(o: Option<int64>, default: int64): int64 {
    if o.Some? && o.value > 0 then o.value else default
  }

  // The configuration after one key is set to v: every setting keeps its value unless the key is its own. A value
  // that is empty, does not parse or, for the stream loop, is not positive resets the setting to its default.
  function Assign(p: Parsers, c: Config, key: string, v: string): Config {
    Config(
      if key == "prometheusAddress" then v else c.promAddr,
      if key != "queueQuery" then c.queueQuery else if v != "" then v else DEFAULTS.queueQuery,
      if key != "kvCacheQuery" then c.kvQuery else if v != "" then v else DEFAULTS.kvQuery,
      if key == "queueThreshold" then Else(Override(p.float, v), DEFAULTS.queueThreshold) else c.queueThreshold,
      if key == "kvCacheThreshold" then Else(Override(p.float, v), DEFAULTS.kvThreshold) else c.kvThreshold,
      if key == "activationThreshold" then Else(Override(p.float, v), DEFAULTS.activation) else c.activation,
      if key == "treatMissingAsError" then Else(Override(p.boolean, v), false) else c.treatMissingAsError,
      if key == "cacheTTL" then Else(Override(p.duration, v), DEFAULTS.cacheTTL) else c.cacheTTL,
      if key == "streamPollInterval" then IfPositive(Override(p.duration, v), DEFAULTS.streamPollInterval)
      else c.streamPollInterval,
      if key == "streamMaxConsecutiveFailures" then
        IfPositive(Override(p.integer, v), DEFAULTS.streamMaxConsecutiveFailures)
      else c.streamMaxConsecutiveFailures)
  }

  lemma FieldAfter(m: map<string, string>, key: string, v: string, k: string)
    ensures Field(m[key := v], k) == if k == key then v else Field(m, k)
  {
  }

  // Setting one key changes the setting it names and no other.
  lemma EachKeySetsItsOwnSetting(p: Parsers, m: map<string, string>, key: string, v: string)
    ensures Settings(p, m[key := v]) == Assign(p, Settings(p, m), key, v)
  {
    FieldAfter(m, key, v, "prometheusAddress");
    FieldAfter(m, key, v, "queueQuery");
    FieldAfter(m, key, v, "kvCacheQuery");
    FieldAfter(m, key, v, "queueThreshold");
    FieldAfter(m, key, v, "kvCacheThreshold");
    FieldAfter(m, key, v, "activationThreshold");
    FieldAfter(m, key, v, "treatMissingAsError");
    FieldAfter(m, key, v, "cacheTTL");
    FieldAfter(m, key, v, "streamPollInterval");
    FieldAfter(m, key, v, "streamMaxConsecutiveFailures");
  }

  // Metadata written as key-value pairs, a later pair overriding an earlier one of the same key.
  function MapOf(pairs: seq<(string, string)>): map<string, string> {
    if pairs == [] then map[]
    else var (key, v) := pairs[|pairs| - 1]; MapOf(pairs[..|pairs| - 1])[key := v]
  }

  function AssignAll(p: Parsers, pairs: seq<(string, string)>): Config {
    if pairs == [] then DEFAULTS
    else var (key, v) := pairs[|pairs| - 1]; Assign(p, AssignAll(p, pairs[..|pairs| - 1]), key, v)
  }

  lemma {:induction false} SettingsAreAssignments(p: Parsers, pairs: seq<(string, string)>)
    ensures Settings(p, MapOf(pairs)) == AssignAll(p, pairs)
  {
    if pairs != [] {
      var before, last := pairs[..|pairs| - 1], pairs[|pairs| - 1];
      SettingsAreAssignments(p, before);
      EachKeySetsItsOwnSetting(p, MapOf(before), last.0, last.1);
    }
  }

  // Parsing any metadata is starting from the defaults and assigning the pairs one by one; it fails
  // exactly when that leaves no address.
  lemma ParseIsAssignmentInOrder(p: Parsers, pairs: seq<(string, string)>)
    ensures var c := AssignAll(p, pairs);
      Parse(p, MapOf(pairs)) == if c.promAddr == "" then MissingAddress else Ok(c)
  {
    SettingsAreAssignments(p, pairs);
  }
}
