/**
 * The Sensor.community ingest handler of the SensorDotCommunity plugin.
 *
 * A device posts a report: its chip id and a list of readings. Each reading of one of the
 * four supported metric types is mapped to a sensor record of the home-automation gateway,
 * found through the gateway's sensor list or registered on first sight, and its value is
 * pushed to the gateway. Registration failures become the response's error lines.
 *
 * The gateway is a class whose state is a list of sensor configurations, a map from sensor id
 * to value, and a log of the calls the plugin made to it. Every operation of the gateway and of
 * the plugin is specified by a function over `GatewayState`; the methods are proved to
 * follow those functions, and the properties of the functions are proved in
 * SensorDotCommunityProperties.
 */
module SensorDotCommunityPlugin {
  import opened Options

  type SensorId = int

  /** The plugin's name; every sensor the plugin registers carries it as its source name. */
  const PluginName: string := "SensorDotCommunity"
  /** The source type of every sensor the plugin registers. */
  const PluginSourceType: string := "plugin"

  // ---------------------------------------------------------------------------------------
  // The inbound report
  // ---------------------------------------------------------------------------------------

  /** One entry of `sensordatavalues`; the value is already parsed to a number. */
  datatype Reading = Reading(valueType: string, value: real)

  /** A decoded report: `esp8266id` and, when the key is present, `sensordatavalues`. */
  datatype Report = Report(deviceId: string, sensorDataValues: Option<seq<Reading>>)

  /** The readings the handler iterates over: a missing key counts as an empty list. */
  function Readings(report: Report): (rs: seq<Reading>)
    ensures report.sensorDataValues.None? ==> rs == []
  {
    match report.sensorDataValues
    case Some(values) => values
    case None => []
  }

  // ---------------------------------------------------------------------------------------
  // Classification
  // ---------------------------------------------------------------------------------------

  /** What a supported metric type becomes: display name, physical quantity and unit. */
  datatype Kind = Kind(name: string, quantity: string, unit: string)

  /** The four supported metric types, as a lookup table (the unit spelling is the plugin's). */
  const KindTable: seq<(string, Kind)> := [
    ("temperature", Kind("Temperature", "temperature", "celcius")),
    ("humidity", Kind("Humidity", "humidity", "percent")),
    ("SDS_P1", Kind("PM10", "dust", "micro_gram_per_cubic_meter")),
    ("SDS_P2", Kind("PM2.5", "dust", "micro_gram_per_cubic_meter"))
  ]

  /** The entry of `table` for `key`, the first one if there are several. */
  function LookUp(table: seq<(string, Kind)>, key: string): Option<Kind>
  {
    if table == [] then None
    else if table[0].0 == key then Some(table[0].1)
    else LookUp(table[1..], key)
  }

  /** The if/elif chain of the handler: a kind for the four supported types, nothing otherwise. */
  function Classify(valueType: string): (r: Option<Kind>)
    ensures r == LookUp(KindTable, valueType)
    ensures r.Some? <==> valueType in {"temperature", "humidity", "SDS_P1", "SDS_P2"}
  {
    if valueType == "temperature" then Some(Kind("Temperature", "temperature", "celcius"))
    else if valueType == "humidity" then Some(Kind("Humidity", "humidity", "percent"))
    else if valueType == "SDS_P1" then Some(Kind("PM10", "dust", "micro_gram_per_cubic_meter"))
    else if valueType == "SDS_P2" then Some(Kind("PM2.5", "dust", "micro_gram_per_cubic_meter"))
    else
      assert LookUp(KindTable, valueType) == LookUp(KindTable[1..], valueType) == LookUp(KindTable[2..], valueType)
        == LookUp(KindTable[3..], valueType) == LookUp(KindTable[4..], valueType) == None;
      None
  }

  predicate Supported(r: Reading)
  {
    Classify(r.valueType).Some?
  }

  /** The external id of a device's metric: the device id, a slash, the metric type. */
  function ExternalId(deviceId: string, valueType: string): (ext: string)
    ensures |ext| == |deviceId| + 1 + |valueType|
    ensures ext[..|deviceId|] == deviceId && ext[|deviceId|] == '/'
    ensures ext[|deviceId| + 1..] == valueType
  {
    deviceId + "/" + valueType
  }

  // ---------------------------------------------------------------------------------------
  // The gateway's sensor records
  // ---------------------------------------------------------------------------------------

  /** The `source` object of a sensor record. */
  datatype Source = Source(kind: string, name: string)

  /**
   * One entry of the gateway's sensor list. An absent or null `external_id` is `None`; an absent
   * `source` is `None` (a `source` that is present but null is not modelled).
   */
  datatype SensorConfig = SensorConfig(id: SensorId, externalId: Option<string>, source: Option<Source>)

  /** The record's source name is the plugin's name. */
  predicate FromPlugin(c: SensorConfig)
  {
    c.source.Some? && c.source.value.name == PluginName
  }

  /** The filter of the known-sensor comprehension: from the plugin, external id neither null nor empty. */
  predicate Tracked(c: SensorConfig)
  {
    FromPlugin(c) && c.externalId.Some? && c.externalId.value != ""
  }

  /** The filter of the search after a registration: from the plugin, with external id `ext`. */
  predicate OwnedAs(c: SensorConfig, ext: string)
  {
    FromPlugin(c) && c.externalId == Some(ext)
  }

  /**
   * The known-sensor map: external id to sensor id over the tracked records. Like the dict
   * comprehension it models, it walks the list in order, so a later record overwrites an
   * earlier one with the same external id.
   */
  function KnownSensors(cs: seq<SensorConfig>): (known: map<string, SensorId>)
    ensures "" !in known
  {
    if cs == [] then map[]
    else
      var known := KnownSensors(cs[..|cs| - 1]);
      var c := cs[|cs| - 1];
      if Tracked(c) then known[c.externalId.value := c.id] else known
  }

  /** The `next(...)` search: the id of the first record owned as `ext`, if any. */
  function FindRegistered(cs: seq<SensorConfig>, ext: string): (id: Option<SensorId>)
    ensures cs == [] ==> id == None
    ensures cs != [] && OwnedAs(cs[0], ext) ==> id == Some(cs[0].id)
  {
    if cs == [] then None
    else if OwnedAs(cs[0], ext) then Some(cs[0].id)
    else FindRegistered(cs[1..], ext)
  }

  // ---------------------------------------------------------------------------------------
  // The gateway
  // ---------------------------------------------------------------------------------------

  /** The payload of a registration call. */
  datatype Registration = Registration(externalId: string, source: Source, name: string, quantity: string, unit: string)

  /** The payload of a status-update call. */
  datatype StatusUpdate = StatusUpdate(id: SensorId, value: real)

  /**
   * The gateway as the plugin sees it: its sensor list, the value of each sensor, the id it
   * gives the next sensor it registers, and the success flags of its answers to the coming
   * registration calls (an exhausted list answers without a success flag). The last three
   * fields log the plugin's calls: every registration payload, every status update, and the
   * number of sensor-list requests.
   */
  datatype GatewayState = GatewayState(
    configs: seq<SensorConfig>,
    values: map<SensorId, real>,
    nextId: SensorId,
    replies: seq<bool>,
    registrations: seq<Registration>,
    updates: seq<StatusUpdate>,
    listings: nat)

  /** The gateway after a sensor-list request. */
  function AfterListing(s: GatewayState): GatewayState
  {
    s.(listings := s.listings + 1)
  }

  /** Whether the gateway accepts the next registration. */
  predicate Accepts(s: GatewayState)
  {
    s.replies != [] && s.replies[0]
  }

  /** The gateway after a registration call, and the success flag of its answer. */
  function AfterRegistration(s: GatewayState, p: Registration): (GatewayState, bool)
  {
    var rest := if s.replies == [] then [] else s.replies[1..];
    var logged := s.(replies := rest, registrations := s.registrations + [p]);
    if Accepts(s) then
      (logged.(configs := s.configs + [SensorConfig(s.nextId, Some(p.externalId), Some(p.source))],
               nextId := s.nextId + 1),
       true)
    else
      (logged, false)
  }

  /** The gateway after a status update: the value is stored when the sensor exists. */
  function AfterStatus(s: GatewayState, u: StatusUpdate): (GatewayState, bool)
  {
    var logged := s.(updates := s.updates + [u]);
    if exists c :: c in s.configs && c.id == u.id then
      (logged.(values := s.values[u.id := u.value]), true)
    else
      (logged, false)
  }

  class Gateway {
    var configs: seq<SensorConfig>
    var values: map<SensorId, real>
    var nextId: SensorId
    var replies: seq<bool>
    var registrations: seq<Registration>
    var updates: seq<StatusUpdate>
    var listings: nat

    function State(): GatewayState
      reads this
    {
      GatewayState(configs, values, nextId, replies, registrations, updates, listings)
    }

    constructor (configs: seq<SensorConfig>, values: map<SensorId, real>, nextId: SensorId, replies: seq<bool>)
      ensures State() == GatewayState(configs, values, nextId, replies, [], [], 0)
    {
      this.configs := configs;
      this.values := values;
      this.nextId := nextId;
      this.replies := replies;
      registrations := [];
      updates := [];
      listings := 0;
    }

    /** `get_sensor_configurations`: the sensor list. */
    method GetSensorConfigurations() returns (cs: seq<SensorConfig>)
      modifies this`listings
      ensures cs == configs
      ensures State() == AfterListing(old(State()))
    {
      listings := listings + 1;
      cs := configs;
    }

    /** `set_sensor_configuration`: registers a sensor when the gateway accepts. */
    method SetSensorConfiguration(p: Registration) returns (success: bool)
      modifies this
      ensures (State(), success) == AfterRegistration(old(State()), p)
    {
      success := replies != [] && replies[0];
      replies := if replies == [] then [] else replies[1..];
      registrations := registrations + [p];
      if success {
        configs := configs + [SensorConfig(nextId, Some(p.externalId), Some(p.source))];
        nextId := nextId + 1;
      }
    }

    /** `set_sensor_status`: stores a value for an existing sensor. */
    method SetSensorStatus(u: StatusUpdate) returns (success: bool)
      modifies this`values, this`updates
      ensures (State(), success) == AfterStatus(old(State()), u)
    {
      updates := updates + [u];
      success := exists c :: c in configs && c.id == u.id;
      if success {
        values := values[u.id := u.value];
      }
    }
  }

  // ---------------------------------------------------------------------------------------
  // The handler, as functions over the gateway state
  // ---------------------------------------------------------------------------------------

  /** The payload `_register_sensor` sends for a sensor of kind `kind` and external id `ext`. */
  function RegistrationFor(ext: string, kind: Kind): (p: Registration)
    ensures p.source == Source("plugin", "SensorDotCommunity")
  {
    Registration(ext, Source(PluginSourceType, PluginName), kind.name, kind.quantity, kind.unit)
  }

  /**
   * `_register_sensor`: one registration call; on a failed answer no id and no further call;
   * on success one sensor-list request and the id of the first record owned as `ext`.
   */
  function RegisterSensorSpec(s: GatewayState, ext: string, kind: Kind): (r: (GatewayState, Option<SensorId>))
    ensures r.0.registrations == s.registrations + [RegistrationFor(ext, kind)]
    ensures !Accepts(s) ==> r.1 == None && r.0.configs == s.configs && r.0.listings == s.listings
    ensures Accepts(s) ==> r.0.listings == s.listings + 1 && r.1 == FindRegistered(r.0.configs, ext)
    ensures Accepts(s) ==> r.0.configs == s.configs + [SensorConfig(s.nextId, Some(ext), Some(Source(PluginSourceType, PluginName)))]
    ensures r.0.updates == s.updates && r.0.values == s.values
  {
    var (s1, success) := AfterRegistration(s, RegistrationFor(ext, kind));
    if !success then (s1, None)
    else
      var s2 := AfterListing(s1);
      (s2, FindRegistered(s2.configs, ext))
  }

  /** `_update_sensor`: one status-update call, whose failure is only logged. */
  function UpdateSensorSpec(s: GatewayState, id: SensorId, value: real): (s': GatewayState)
    ensures s'.updates == s.updates + [StatusUpdate(id, value)]
    ensures s'.configs == s.configs && s'.registrations == s.registrations && s'.listings == s.listings
    ensures s'.replies == s.replies
  {
    AfterStatus(s, StatusUpdate(id, value)).0
  }

  /** The error line for a reading whose sensor could not be resolved. */
  function NotFoundMessage(name: string, ext: string): (msg: string)
    ensures |msg| == 37 + |name| + |ext|
  {
    "Sensor.community sensor " + name + " (" + ext + ") not found"
  }

  /** One iteration of the handler's loop: the new gateway state and the error it adds, if any. */
  function HandleReading(s: GatewayState, known: map<string, SensorId>, deviceId: string, r: Reading)
    : (out: (GatewayState, Option<string>))
    ensures !Supported(r) ==> out == (s, None)
  {
    var ext := ExternalId(deviceId, r.valueType);
    match Classify(r.valueType)
    case None => (s, None)
    case Some(kind) =>
      var (s1, id) := if ext !in known then RegisterSensorSpec(s, ext, kind) else (s, Some(known[ext]));
      match id
      case Some(sensorId) => (UpdateSensorSpec(s1, sensorId, r.value), None)
      case None => (s1, Some(NotFoundMessage(kind.name, ext)))
  }

  /** The handler's loop over `rs`, in order, with a fixed known-sensor map. */
  function HandleReadings(s: GatewayState, known: map<string, SensorId>, deviceId: string, rs: seq<Reading>)
    : (out: (GatewayState, seq<string>))
    ensures |out.1| <= |rs|
  {
    if rs == [] then (s, [])
    else
      var (s1, errors) := HandleReadings(s, known, deviceId, rs[..|rs| - 1]);
      var (s2, error) := HandleReading(s1, known, deviceId, rs[|rs| - 1]);
      (s2, errors + (if error.Some? then [error.value] else []))
  }

  /** An HTTP response: status code and body. */
  datatype Response = Response(status: int, body: string)

  /** Python's `sep.join(xs)`. */
  function Join(xs: seq<string>, sep: string): (joined: string)
    ensures xs == [] ==> joined == ""
    ensures xs != [] ==> |joined| >= |xs[0]| && joined[..|xs[0]|] == xs[0]
    ensures |xs| > 1 ==> |joined| >= |xs[0]| + |sep| && joined[|xs[0]|..|xs[0]| + |sep|] == sep
  {
    if xs == [] then ""
    else if |xs| == 1 then xs[0]
    else xs[0] + sep + Join(xs[1..], sep)
  }

  /** The response: 500 with the error lines joined by newlines if there are any, else 200. */
  function Respond(errors: seq<string>): (r: Response)
    ensures r.status == 500 <==> errors != []
    ensures r.status == 200 <==> errors == []
    ensures errors == [] ==> r.body == "success"
    ensures errors != [] ==> r.body == Join(errors, "\n")
  {
    if errors != [] then Response(500, Join(errors, "\n")) else Response(200, "success")
  }

  /**
   * `api`: the known-sensor map is taken once, from one sensor-list request, before the
   * loop; then every reading is handled and the collected errors decide the response.
   */
  function HandleReport(s: GatewayState, report: Report): (out: (GatewayState, Response))
    ensures Readings(report) == [] ==> out == (AfterListing(s), Response(200, "success"))
    ensures out.1.status == 200 || out.1.status == 500
  {
    var known := KnownSensors(s.configs);
    var (s', errors) := HandleReadings(AfterListing(s), known, report.deviceId, Readings(report));
    (s', Respond(errors))
  }

  // ---------------------------------------------------------------------------------------
  // The plugin
  // ---------------------------------------------------------------------------------------

  class SensorDotCommunity {
    const gateway: Gateway

    constructor (gateway: Gateway)
      ensures this.gateway == gateway
    {
      this.gateway := gateway;
    }

    /** `_get_known_sensors`. */
    method GetKnownSensors() returns (known: map<string, SensorId>)
      modifies gateway`listings
      ensures known == KnownSensors(old(gateway.configs))
      ensures gateway.State() == AfterListing(old(gateway.State()))
    {
      var cs := gateway.GetSensorConfigurations();
      known := KnownSensors(cs);
    }

    /** `_register_sensor`. */
    method RegisterSensor(ext: string, kind: Kind) returns (id: Option<SensorId>)
      modifies gateway
      ensures (gateway.State(), id) == RegisterSensorSpec(old(gateway.State()), ext, kind)
    {
      var success := gateway.SetSensorConfiguration(RegistrationFor(ext, kind));
      if !success {
        return None;
      }
      var cs := gateway.GetSensorConfigurations();
      id := FindRegistered(cs, ext);
    }

    /** `_update_sensor`: the success flag of the answer is dropped. */
    method UpdateSensor(id: SensorId, value: real)
      modifies gateway
      ensures gateway.State() == UpdateSensorSpec(old(gateway.State()), id, value)
    {
      var _ := gateway.SetSensorStatus(StatusUpdate(id, value));
    }

    /** The body of `api`'s loop: handles one reading and returns the error line it adds, if any. */
    method HandleEntry(known: map<string, SensorId>, deviceId: string, entry: Reading) returns (error: Option<string>)
      modifies gateway
      ensures (gateway.State(), error) == HandleReading(old(gateway.State()), known, deviceId, entry)
    {
      error := None;
      var ext := ExternalId(deviceId, entry.valueType);
      var kind := Classify(entry.valueType);
      if kind.Some? {
        var id: Option<SensorId>;
        if ext !in known {
          id := RegisterSensor(ext, kind.value);
        } else {
          id := Some(known[ext]);
        }
        if id.Some? {
          UpdateSensor(id.value, entry.value);
        } else {
          error := Some(NotFoundMessage(kind.value.name, ext));
        }
      }
    }

    /** `api`: handles one report. */
    method Api(report: Report) returns (response: Response)
      modifies gateway
      ensures (gateway.State(), response) == HandleReport(old(gateway.State()), report)
    {
      var known := GetKnownSensors();
      ghost var start := gateway.State();
      var deviceId := report.deviceId;
      var rs := Readings(report);
      var errors: seq<string> := [];
      var i := 0;
      while i < |rs|
        invariant 0 <= i <= |rs|
        invariant known == KnownSensors(old(gateway.configs))
        invariant (gateway.State(), errors) == HandleReadings(start, known, deviceId, rs[..i])
      {
        ghost var before, errorsBefore := gateway.State(), errors;
        assert rs[..i + 1][..i] == rs[..i] && rs[..i + 1][i] == rs[i];
        var error := HandleEntry(known, deviceId, rs[i]);
        if error.Some? {
          errors := errors + [error.value];
        }
        assert (gateway.State(), error) == HandleReading(before, known, deviceId, rs[i]);
        assert errors == errorsBefore + (if error.Some? then [error.value] else []);
        i := i + 1;
      }
      assert rs[..i] == rs;
      response := Respond(errors);
    }
  }
}
