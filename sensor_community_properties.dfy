/**
 * What the Sensor.community handler promises, proved about the functions that specify it
 * in SensorDotCommunityPlugin.
 */
module SensorDotCommunityProperties {
  import opened Options
  import opened SensorDotCommunityPlugin

  // ---------------------------------------------------------------------------------------
  // External ids
  // ---------------------------------------------------------------------------------------

  /** Two slash positions of `e` with no slash before either are the same position. */
  lemma FirstSlashUnique(e: string, i: nat, j: nat)
    requires i < |e| && e[i] == '/' && forall k :: 0 <= k < i ==> e[k] != '/'
    requires j < |e| && e[j] == '/' && forall k :: 0 <= k < j ==> e[k] != '/'
    ensures i == j
  {
  }

  /** Device ids without a slash (chip ids are digits) make the external id determine both parts. */
  lemma ExternalIdInjective(d1: string, t1: string, d2: string, t2: string)
    requires '/' !in d1 && '/' !in d2
    requires ExternalId(d1, t1) == ExternalId(d2, t2)
    ensures d1 == d2 && t1 == t2
  {
    var e := ExternalId(d1, t1);
    assert forall k :: 0 <= k < |d1| ==> e[k] == d1[k];
    assert forall k :: 0 <= k < |d2| ==> e[k] == d2[k];
    FirstSlashUnique(e, |d1|, |d2|);
    assert d1 == e[..|d1|] == d2;
  }

  /** The device id may hold a slash, and then two different sensors share an external id. */
  lemma ExternalIdAmbiguousWithSlash()
    ensures ExternalId("a/b", "c") == ExternalId("a", "b/c")
  {
  }

  // ---------------------------------------------------------------------------------------
  // The known-sensor map and the search after a registration
  // ---------------------------------------------------------------------------------------

  /** The record is tracked and its external id is `ext`. */
  predicate TrackedAs(c: SensorConfig, ext: string)
  {
    Tracked(c) && c.externalId == Some(ext)
  }

  /** The known map holds exactly the external ids of the tracked records. */
  lemma {:induction false} KnownSensorsKeys(cs: seq<SensorConfig>, ext: string)
    ensures ext in KnownSensors(cs) <==> exists i :: 0 <= i < |cs| && TrackedAs(cs[i], ext)
  {
    if cs != [] {
      var prefix := cs[..|cs| - 1];
      KnownSensorsKeys(prefix, ext);
      if exists i :: 0 <= i < |prefix| && TrackedAs(prefix[i], ext) {
        var i :| 0 <= i < |prefix| && TrackedAs(prefix[i], ext);
        assert cs[i] == prefix[i];
      }
      if exists i :: 0 <= i < |cs| && TrackedAs(cs[i], ext) {
        var i :| 0 <= i < |cs| && TrackedAs(cs[i], ext);
        if i < |prefix| {
          assert prefix[i] == cs[i];
        }
      }
    }
  }

  /** Every id in the known map is the id of a tracked record with that external id. */
  lemma {:induction false} KnownSensorsValues(cs: seq<SensorConfig>, ext: string)
    requires ext in KnownSensors(cs)
    ensures exists i :: 0 <= i < |cs| && TrackedAs(cs[i], ext) && cs[i].id == KnownSensors(cs)[ext]
  {
    var prefix, last := cs[..|cs| - 1], cs[|cs| - 1];
    if TrackedAs(last, ext) {
      assert cs[|cs| - 1] == last;
    } else {
      KnownSensorsValues(prefix, ext);
      var i :| 0 <= i < |prefix| && TrackedAs(prefix[i], ext) && prefix[i].id == KnownSensors(prefix)[ext];
      assert cs[i] == prefix[i];
    }
  }

  /** An external id maps to the id of the LAST tracked record with that external id. */
  lemma {:induction false} KnownSensorsLastWins(cs: seq<SensorConfig>, ext: string, i: nat)
    requires i < |cs| && TrackedAs(cs[i], ext)
    requires forall j :: i < j < |cs| ==> !TrackedAs(cs[j], ext)
    ensures ext in KnownSensors(cs) && KnownSensors(cs)[ext] == cs[i].id
  {
    if i < |cs| - 1 {
      var prefix := cs[..|cs| - 1];
      assert forall j :: i < j < |prefix| ==> prefix[j] == cs[j];
      KnownSensorsLastWins(prefix, ext, i);
      assert !TrackedAs(cs[|cs| - 1], ext);
    }
  }

  /** Records appended to the list never remove a key from the known map. */
  lemma KnownSensorsGrow(cs: seq<SensorConfig>, more: seq<SensorConfig>, ext: string)
    requires ext in KnownSensors(cs)
    ensures ext in KnownSensors(cs + more)
  {
    KnownSensorsKeys(cs, ext);
    var i :| 0 <= i < |cs| && TrackedAs(cs[i], ext);
    assert (cs + more)[i] == cs[i];
    KnownSensorsKeys(cs + more, ext);
  }

  /** The search finds an id exactly when some record is owned as `ext`. */
  lemma {:induction false} FindRegisteredFound(cs: seq<SensorConfig>, ext: string)
    ensures FindRegistered(cs, ext).Some? <==> exists i :: 0 <= i < |cs| && OwnedAs(cs[i], ext)
  {
    if cs != [] && !OwnedAs(cs[0], ext) {
      FindRegisteredFound(cs[1..], ext);
      if exists i :: 0 <= i < |cs| && OwnedAs(cs[i], ext) {
        var i :| 0 <= i < |cs| && OwnedAs(cs[i], ext);
        assert cs[1..][i - 1] == cs[i];
      }
    }
  }

  /** The id found is that of a record owned as `ext`. */
  lemma {:induction false} FindRegisteredOwned(cs: seq<SensorConfig>, ext: string)
    requires FindRegistered(cs, ext).Some?
    ensures exists i :: 0 <= i < |cs| && OwnedAs(cs[i], ext) && cs[i].id == FindRegistered(cs, ext).value
  {
    if !OwnedAs(cs[0], ext) {
      FindRegisteredOwned(cs[1..], ext);
      var i :| 0 <= i < |cs| - 1 && OwnedAs(cs[1..][i], ext) && cs[1..][i].id == FindRegistered(cs, ext).value;
      assert cs[1..][i] == cs[i + 1];
    }
  }

  /** The id found is that of the FIRST record owned as `ext`. */
  lemma {:induction false} FindRegisteredFirst(cs: seq<SensorConfig>, ext: string, i: nat)
    requires i < |cs| && OwnedAs(cs[i], ext)
    requires forall j :: 0 <= j < i ==> !OwnedAs(cs[j], ext)
    ensures FindRegistered(cs, ext) == Some(cs[i].id)
  {
    if i > 0 {
      assert !OwnedAs(cs[0], ext);
      FindRegisteredFirst(cs[1..], ext, i - 1);
    }
  }

  /** In this gateway an accepted registration is always found by the search that follows it. */
  lemma AcceptedRegistrationIsFound(s: GatewayState, ext: string, kind: Kind)
    requires Accepts(s)
    ensures RegisterSensorSpec(s, ext, kind).1.Some?
  {
    var cs := RegisterSensorSpec(s, ext, kind).0.configs;
    assert OwnedAs(cs[|s.configs|], ext);
    FindRegisteredFound(cs, ext);
  }

  // ---------------------------------------------------------------------------------------
  // The loop over the readings
  // ---------------------------------------------------------------------------------------

  /** The supported readings of `rs`, in order. */
  function SupportedOnly(rs: seq<Reading>): seq<Reading>
  {
    if rs == [] then []
    else SupportedOnly(rs[..|rs| - 1]) + (if Supported(rs[|rs| - 1]) then [rs[|rs| - 1]] else [])
  }

  /** Unsupported readings change nothing: the handler behaves as if they were not there. */
  lemma {:induction false} UnsupportedReadingsIgnored(s: GatewayState, known: map<string, SensorId>, deviceId: string, rs: seq<Reading>)
    ensures HandleReadings(s, known, deviceId, rs) == HandleReadings(s, known, deviceId, SupportedOnly(rs))
  {
    if rs != [] {
      var prefix, last := rs[..|rs| - 1], rs[|rs| - 1];
      UnsupportedReadingsIgnored(s, known, deviceId, prefix);
      if Supported(last) {
        var kept := SupportedOnly(prefix) + [last];
        assert kept[..|kept| - 1] == SupportedOnly(prefix);
      } else {
        assert SupportedOnly(rs) == SupportedOnly(prefix) + [] == SupportedOnly(prefix);
        var (s1, errors1) := HandleReadings(s, known, deviceId, prefix);
        assert HandleReadings(s, known, deviceId, rs) == (s1, errors1 + []);
        assert errors1 + [] == errors1;
      }
    }
  }

  /** Every supported reading's external id is in `known`. */
  predicate AllKnown(known: map<string, SensorId>, deviceId: string, rs: seq<Reading>)
  {
    forall i :: 0 <= i < |rs| && Supported(rs[i]) ==> ExternalId(deviceId, rs[i].valueType) in known
  }

  /** One update per supported reading, with the id the known map gives its external id. */
  function KnownUpdates(known: map<string, SensorId>, deviceId: string, rs: seq<Reading>): seq<StatusUpdate>
  {
    if rs == [] then []
    else
      var r := rs[|rs| - 1];
      var ext := ExternalId(deviceId, r.valueType);
      KnownUpdates(known, deviceId, rs[..|rs| - 1])
        + (if Supported(r) && ext in known then [StatusUpdate(known[ext], r.value)] else [])
  }

  /**
   * When every supported reading is already known, nothing is registered, no list is fetched,
   * no error is reported, and exactly one update per supported reading is issued, in order,
   * with the mapped id.
   */
  lemma {:induction false} AllKnownOnlyUpdates(s: GatewayState, known: map<string, SensorId>, deviceId: string, rs: seq<Reading>)
    requires AllKnown(known, deviceId, rs)
    ensures var (s', errors) := HandleReadings(s, known, deviceId, rs);
      && errors == []
      && s'.configs == s.configs && s'.registrations == s.registrations
      && s'.listings == s.listings && s'.replies == s.replies
      && s'.updates == s.updates + KnownUpdates(known, deviceId, rs)
  {
    if rs != [] {
      var prefix := rs[..|rs| - 1];
      assert forall i :: 0 <= i < |prefix| ==> prefix[i] == rs[i];
      AllKnownOnlyUpdates(s, known, deviceId, prefix);
    }
  }

  /** The not-found line names the sensor and its external id, in that order, between fixed text. */
  lemma NotFoundMessageShape(name: string, ext: string)
    ensures var msg := NotFoundMessage(name, ext);
      && msg[..24] == "Sensor.community sensor " && msg[24..24 + |name|] == name
      && msg[24 + |name|..26 + |name|] == " ("
      && msg[26 + |name|..26 + |name| + |ext|] == ext && msg[|msg| - 11..] == ") not found"
  {
  }

  /** The error `e` is the "not found" line of the supported, unknown reading `r`. */
  predicate ExplainsError(known: map<string, SensorId>, deviceId: string, r: Reading, e: string)
  {
    var ext := ExternalId(deviceId, r.valueType);
    Supported(r) && ext !in known && e == NotFoundMessage(Classify(r.valueType).value.name, ext)
  }

  /** The payload `p` is the registration of the supported, unknown reading `r`. */
  predicate ExplainsRegistration(known: map<string, SensorId>, deviceId: string, r: Reading, p: Registration)
  {
    var ext := ExternalId(deviceId, r.valueType);
    Supported(r) && ext !in known && p == RegistrationFor(ext, Classify(r.valueType).value)
  }

  /**
   * One reading: the list, the registrations and the updates only grow at the end, by at most
   * one registration; an error is the reading's not-found line; a registration is the reading's;
   * and an unknown supported reading without error left its record, tracked, at the end of the
   * list. In this gateway, which always lists a sensor it accepted, a registration either added
   * a record or produced the error.
   */
  lemma ReadingStep(s: GatewayState, known: map<string, SensorId>, deviceId: string, r: Reading)
    ensures var (s', error) := HandleReading(s, known, deviceId, r);
      var ext := ExternalId(deviceId, r.valueType);
      && s.configs <= s'.configs && s.registrations <= s'.registrations && s.updates <= s'.updates
      && |s'.registrations| <= |s.registrations| + 1
      && (error.Some? ==> ExplainsError(known, deviceId, r, error.value))
      && (|s'.registrations| > |s.registrations| ==>
            ExplainsRegistration(known, deviceId, r, s'.registrations[|s.registrations|]))
      && (if error.Some? then 1 else 0) + (|s'.configs| - |s.configs|) == |s'.registrations| - |s.registrations|
      && (error.None? && Supported(r) && ext !in known ==>
            |s'.configs| == |s.configs| + 1 && TrackedAs(s'.configs[|s.configs|], ext))
  {
    var ext := ExternalId(deviceId, r.valueType);
    if Supported(r) && ext !in known && Accepts(s) {
      AcceptedRegistrationIsFound(s, ext, Classify(r.valueType).value);
    }
  }

  /**
   * The sensor an update goes to: the known map's id when the external id is known, otherwise
   * the id the search after a registration finds in the sensor list `cs`.
   */
  function ResolvedId(known: map<string, SensorId>, cs: seq<SensorConfig>, ext: string): Option<SensorId>
  {
    if ext in known then Some(known[ext]) else FindRegistered(cs, ext)
  }

  /**
   * One reading's calls: no status update for an unsupported reading or one that produced an
   * error, otherwise exactly one, to the resolved sensor, with the reading's value; a known
   * reading registers nothing and fetches no list; an unknown one fetches one list when it
   * succeeds. In this gateway, which always lists a sensor it accepted, an error means the
   * registration was refused, so the list is neither changed nor fetched.
   */
  lemma ReadingUpdate(s: GatewayState, known: map<string, SensorId>, deviceId: string, r: Reading)
    ensures var (s', error) := HandleReading(s, known, deviceId, r);
      var ext := ExternalId(deviceId, r.valueType);
      && (error.Some? || !Supported(r) ==> s'.updates == s.updates)
      && (error.None? && Supported(r) ==>
            && ResolvedId(known, s'.configs, ext).Some?
            && s'.updates == s.updates + [StatusUpdate(ResolvedId(known, s'.configs, ext).value, r.value)])
      && (error.Some? ==> s'.configs == s.configs && s'.listings == s.listings)
      && (Supported(r) && ext in known ==>
            s'.configs == s.configs && s'.registrations == s.registrations && s'.listings == s.listings)
      && (error.None? && Supported(r) && ext !in known ==> s'.listings == s.listings + 1)
  {
    var ext := ExternalId(deviceId, r.valueType);
    if Supported(r) && ext !in known && Accepts(s) {
      AcceptedRegistrationIsFound(s, ext, Classify(r.valueType).value);
    }
  }

  /** Appending records does not change what the search finds once it finds something. */
  lemma {:induction false} FindRegisteredAppend(cs: seq<SensorConfig>, more: seq<SensorConfig>, ext: string)
    requires FindRegistered(cs, ext).Some?
    ensures FindRegistered(cs + more, ext) == FindRegistered(cs, ext)
  {
    assert (cs + more)[0] == cs[0];
    if !OwnedAs(cs[0], ext) {
      assert (cs + more)[1..] == cs[1..] + more;
      FindRegisteredAppend(cs[1..], more, ext);
    }
  }

  /** The updates of the supported readings of `rs` that resolve in `cs`, in reading order. */
  function ResolvedUpdates(known: map<string, SensorId>, deviceId: string, cs: seq<SensorConfig>, rs: seq<Reading>)
    : seq<StatusUpdate>
  {
    if rs == [] then []
    else
      var r := rs[|rs| - 1];
      var id := ResolvedId(known, cs, ExternalId(deviceId, r.valueType));
      ResolvedUpdates(known, deviceId, cs, rs[..|rs| - 1])
        + (if Supported(r) && id.Some? then [StatusUpdate(id.value, r.value)] else [])
  }

  /** Every supported reading of `rs` resolves to a sensor in `cs`. */
  predicate AllResolved(known: map<string, SensorId>, deviceId: string, cs: seq<SensorConfig>, rs: seq<Reading>)
  {
    forall i :: 0 <= i < |rs| && Supported(rs[i]) ==> ResolvedId(known, cs, ExternalId(deviceId, rs[i].valueType)).Some?
  }

  /** Once every reading resolves, appending records changes none of the updates. */
  lemma {:induction false} ResolvedUpdatesStable(known: map<string, SensorId>, deviceId: string, cs: seq<SensorConfig>,
                                                 more: seq<SensorConfig>, rs: seq<Reading>)
    requires AllResolved(known, deviceId, cs, rs)
    ensures ResolvedUpdates(known, deviceId, cs + more, rs) == ResolvedUpdates(known, deviceId, cs, rs)
  {
    if rs != [] {
      var prefix, r := rs[..|rs| - 1], rs[|rs| - 1];
      assert forall i :: 0 <= i < |prefix| ==> prefix[i] == rs[i];
      ResolvedUpdatesStable(known, deviceId, cs, more, prefix);
      var ext := ExternalId(deviceId, r.valueType);
      if Supported(r) && ext !in known {
        FindRegisteredAppend(cs, more, ext);
      }
    }
  }

  /**
   * A loop without errors issues exactly one status update per supported reading, in reading
   * order, each to the sensor its external id resolves to in the final sensor list.
   */
  lemma {:induction false} ReadingsUpdatesNoErrors(s: GatewayState, known: map<string, SensorId>, deviceId: string, rs: seq<Reading>)
    ensures var (s', errors) := HandleReadings(s, known, deviceId, rs);
      errors == [] ==>
        && AllResolved(known, deviceId, s'.configs, rs)
        && s'.updates == s.updates + ResolvedUpdates(known, deviceId, s'.configs, rs)
  {
    if rs != [] {
      var prefix, last := rs[..|rs| - 1], rs[|rs| - 1];
      ReadingsUpdatesNoErrors(s, known, deviceId, prefix);
      var (s1, errors1) := HandleReadings(s, known, deviceId, prefix);
      var (s2, error) := HandleReading(s1, known, deviceId, last);
      ReadingStep(s1, known, deviceId, last);
      ReadingUpdate(s1, known, deviceId, last);
      if errors1 == [] && error.None? {
        var more := s2.configs[|s1.configs|..];
        assert s2.configs == s1.configs + more;
        ResolvedExtend(known, deviceId, s1.configs, more, rs, s.updates, s1.updates, s2.updates);
      }
    }
  }

  /**
   * The step of `ReadingsUpdatesNoErrors`: records appended to the list keep every earlier
   * reading resolved to the same sensor, and the last reading's update, if any, comes last.
   */
  lemma ResolvedExtend(known: map<string, SensorId>, deviceId: string, cs1: seq<SensorConfig>, more: seq<SensorConfig>,
                       rs: seq<Reading>, us: seq<StatusUpdate>, us1: seq<StatusUpdate>, us2: seq<StatusUpdate>)
    requires rs != []
    requires AllResolved(known, deviceId, cs1, rs[..|rs| - 1])
    requires us1 == us + ResolvedUpdates(known, deviceId, cs1, rs[..|rs| - 1])
    requires !Supported(rs[|rs| - 1]) ==> us2 == us1
    requires Supported(rs[|rs| - 1]) ==>
      var id := ResolvedId(known, cs1 + more, ExternalId(deviceId, rs[|rs| - 1].valueType));
      id.Some? && us2 == us1 + [StatusUpdate(id.value, rs[|rs| - 1].value)]
    ensures AllResolved(known, deviceId, cs1 + more, rs)
    ensures us2 == us + ResolvedUpdates(known, deviceId, cs1 + more, rs)
  {
    var prefix := rs[..|rs| - 1];
    var cs2 := cs1 + more;
    ResolvedUpdatesStable(known, deviceId, cs1, more, prefix);
    forall i | 0 <= i < |rs| && Supported(rs[i])
      ensures ResolvedId(known, cs2, ExternalId(deviceId, rs[i].valueType)).Some?
    {
      if i < |prefix| {
        assert prefix[i] == rs[i];
        var ext := ExternalId(deviceId, rs[i].valueType);
        if ext !in known {
          FindRegisteredAppend(cs1, more, ext);
        }
      }
    }
  }

  /**
   * Every supported reading produces either one status update or one error line, and an
   * unsupported one neither.
   */
  lemma {:induction false} ReadingsUpdateCount(s: GatewayState, known: map<string, SensorId>, deviceId: string, rs: seq<Reading>)
    ensures var (s', errors) := HandleReadings(s, known, deviceId, rs);
      |s'.updates| - |s.updates| + |errors| == |SupportedOnly(rs)|
  {
    if rs != [] {
      ReadingsUpdateCount(s, known, deviceId, rs[..|rs| - 1]);
      var s1 := HandleReadings(s, known, deviceId, rs[..|rs| - 1]).0;
      ReadingUpdate(s1, known, deviceId, rs[|rs| - 1]);
    }
  }

  /**
   * The loop only appends to the sensor list, the registrations and the updates; in this
   * gateway, which always lists a sensor it accepted, every registration it makes either added
   * a record or produced one error line.
   */
  lemma {:induction false} ReadingsGrowth(s: GatewayState, known: map<string, SensorId>, deviceId: string, rs: seq<Reading>)
    ensures var (s', errors) := HandleReadings(s, known, deviceId, rs);
      && s.configs <= s'.configs && s.registrations <= s'.registrations && s.updates <= s'.updates
      && |errors| + (|s'.configs| - |s.configs|) == |s'.registrations| - |s.registrations|
  {
    if rs != [] {
      var prefix := rs[..|rs| - 1];
      ReadingsGrowth(s, known, deviceId, prefix);
      var (s1, errors1) := HandleReadings(s, known, deviceId, prefix);
      ReadingStep(s1, known, deviceId, rs[|rs| - 1]);
    }
  }

  /** Every error line of the loop is the not-found line of an unknown supported reading. */
  lemma {:induction false} ReadingsErrorsExplained(s: GatewayState, known: map<string, SensorId>, deviceId: string, rs: seq<Reading>)
    ensures var errors := HandleReadings(s, known, deviceId, rs).1;
      forall k :: 0 <= k < |errors| ==> exists i :: 0 <= i < |rs| && ExplainsError(known, deviceId, rs[i], errors[k])
  {
    if rs != [] {
      var prefix, last := rs[..|rs| - 1], rs[|rs| - 1];
      ReadingsErrorsExplained(s, known, deviceId, prefix);
      var (s1, errors1) := HandleReadings(s, known, deviceId, prefix);
      var (s2, error) := HandleReading(s1, known, deviceId, last);
      ReadingStep(s1, known, deviceId, last);
      var errors := errors1 + (if error.Some? then [error.value] else []);
      forall k | 0 <= k < |errors|
        ensures exists i :: 0 <= i < |rs| && ExplainsError(known, deviceId, rs[i], errors[k])
      {
        if k < |errors1| {
          assert errors[k] == errors1[k] && HandleReadings(s, known, deviceId, prefix).1 == errors1;
          var i :| 0 <= i < |prefix| && ExplainsError(known, deviceId, prefix[i], errors1[k]);
          assert rs[i] == prefix[i];
        } else {
          assert ExplainsError(known, deviceId, rs[|rs| - 1], errors[k]);
        }
      }
    }
  }

  /**
   * Every registration the loop makes carries the plugin's source and the external id, name,
   * quantity and unit of an unknown supported reading.
   */
  lemma {:induction false} ReadingsRegistrationsExplained(s: GatewayState, known: map<string, SensorId>, deviceId: string, rs: seq<Reading>)
    ensures var s' := HandleReadings(s, known, deviceId, rs).0;
      forall k :: |s.registrations| <= k < |s'.registrations| ==>
        && s'.registrations[k].source == Source("plugin", "SensorDotCommunity")
        && exists i :: 0 <= i < |rs| && ExplainsRegistration(known, deviceId, rs[i], s'.registrations[k])
  {
    if rs != [] {
      var prefix, last := rs[..|rs| - 1], rs[|rs| - 1];
      ReadingsRegistrationsExplained(s, known, deviceId, prefix);
      ReadingsGrowth(s, known, deviceId, prefix);
      var s1 := HandleReadings(s, known, deviceId, prefix).0;
      var s2 := HandleReading(s1, known, deviceId, last).0;
      ReadingStep(s1, known, deviceId, last);
      forall k | |s.registrations| <= k < |s2.registrations|
        ensures exists i :: 0 <= i < |rs| && ExplainsRegistration(known, deviceId, rs[i], s2.registrations[k])
      {
        if k < |s1.registrations| {
          assert s2.registrations[k] == s1.registrations[k];
          var i :| 0 <= i < |prefix| && ExplainsRegistration(known, deviceId, prefix[i], s1.registrations[k]);
          assert rs[i] == prefix[i];
        } else {
          assert ExplainsRegistration(known, deviceId, rs[|rs| - 1], s2.registrations[k]);
        }
      }
    }
  }

  /**
   * A loop that reported no error leaves every supported reading's external id in the known
   * map of the resulting sensor list: found there before, or registered by this loop.
   */
  lemma {:induction false} NoErrorsAllRegistered(s: GatewayState, known: map<string, SensorId>, deviceId: string, rs: seq<Reading>)
    requires known.Keys <= KnownSensors(s.configs).Keys
    ensures var (s', errors) := HandleReadings(s, known, deviceId, rs);
      errors == [] ==> AllKnown(KnownSensors(s'.configs), deviceId, rs)
  {
    if rs != [] {
      var prefix, last := rs[..|rs| - 1], rs[|rs| - 1];
      NoErrorsAllRegistered(s, known, deviceId, prefix);
      ReadingsGrowth(s, known, deviceId, prefix);
      var (s1, errors1) := HandleReadings(s, known, deviceId, prefix);
      var (s2, error) := HandleReading(s1, known, deviceId, last);
      ReadingStep(s1, known, deviceId, last);
      if errors1 == [] && error.None? {
        var more1, more2 := s1.configs[|s.configs|..], s2.configs[|s1.configs|..];
        assert s1.configs == s.configs + more1 && s2.configs == s1.configs + more2;
        AllKnownExtend(known, deviceId, s.configs, more1, more2, rs);
      }
    }
  }

  /**
   * The step of `NoErrorsAllRegistered`: the list only grows, so what was known stays known,
   * and the last reading is known from the start or left its tracked record at the end.
   */
  lemma AllKnownExtend(known: map<string, SensorId>, deviceId: string,
                       cs: seq<SensorConfig>, more1: seq<SensorConfig>, more2: seq<SensorConfig>, rs: seq<Reading>)
    requires rs != []
    requires known.Keys <= KnownSensors(cs).Keys
    requires AllKnown(KnownSensors(cs + more1), deviceId, rs[..|rs| - 1])
    requires Supported(rs[|rs| - 1]) && ExternalId(deviceId, rs[|rs| - 1].valueType) !in known ==>
      more2 != [] && TrackedAs(more2[0], ExternalId(deviceId, rs[|rs| - 1].valueType))
    ensures AllKnown(KnownSensors(cs + more1 + more2), deviceId, rs)
  {
    var prefix, last := rs[..|rs| - 1], rs[|rs| - 1];
    var ext := ExternalId(deviceId, last.valueType);
    var cs2 := cs + more1 + more2;
    forall i | 0 <= i < |rs| && Supported(rs[i])
      ensures ExternalId(deviceId, rs[i].valueType) in KnownSensors(cs2)
    {
      if i < |prefix| {
        assert prefix[i] == rs[i];
        KnownSensorsGrow(cs + more1, more2, ExternalId(deviceId, rs[i].valueType));
      } else if ext in known {
        assert cs2 == cs + (more1 + more2);
        KnownSensorsGrow(cs, more1 + more2, ext);
      } else {
        assert cs2[|cs + more1|] == more2[0];
        KnownSensorsKeys(cs2, ext);
      }
    }
  }

  /**
   * Re-submitting a report that was answered 200: the second request registers nothing,
   * answers 200 `success`, and issues one update per supported reading with the ids the
   * sensor list now gives them.
   */
  lemma ResubmitIsQuiet(s: GatewayState, report: Report)
    requires HandleReport(s, report).1.status == 200
    ensures var s1 := HandleReport(s, report).0;
      var (s2, response) := HandleReport(s1, report);
      && response == Response(200, "success")
      && s2.configs == s1.configs && s2.registrations == s1.registrations && s2.replies == s1.replies
      && s2.listings == s1.listings + 1
      && s2.updates == s1.updates + KnownUpdates(KnownSensors(s1.configs), report.deviceId, Readings(report))
  {
    var rs := Readings(report);
    NoErrorsAllRegistered(AfterListing(s), KnownSensors(s.configs), report.deviceId, rs);
    var s1 := HandleReport(s, report).0;
    AllKnownOnlyUpdates(AfterListing(s1), KnownSensors(s1.configs), report.deviceId, rs);
  }

  /**
   * The known map is taken once per request: a report carrying the same unknown metric twice
   * registers it twice when the gateway accepts both.
   */
  lemma StaleKnownMapRegistersTwice(s: GatewayState, deviceId: string, r: Reading)
    requires Supported(r) && ExternalId(deviceId, r.valueType) !in KnownSensors(s.configs)
    requires |s.replies| >= 2 && s.replies[0] && s.replies[1]
    ensures var s' := HandleReport(s, Report(deviceId, Some([r, r]))).0;
      |s'.registrations| == |s.registrations| + 2 && |s'.configs| == |s.configs| + 2
  {
    var known := KnownSensors(s.configs);
    var s0 := AfterListing(s);
    assert [r, r][..1] == [r] && [r][..0] == [];
    AcceptedUnknownReading(s0, known, deviceId, r);
    var s1 := HandleReading(s0, known, deviceId, r).0;
    assert HandleReadings(s0, known, deviceId, []) == (s0, []);
    assert HandleReadings(s0, known, deviceId, [r]).0 == s1;
    assert s1.replies == s.replies[1..];
    AcceptedUnknownReading(s1, known, deviceId, r);
    var s2 := HandleReading(s1, known, deviceId, r).0;
    assert HandleReadings(s0, known, deviceId, [r, r]).0 == s2;
    assert HandleReport(s, Report(deviceId, Some([r, r]))).0 == s2;
  }

  /**
   * A supported reading whose external id is not known, when the gateway accepts the
   * registration: one registration, one new record, one reply used up, and no error.
   */
  lemma AcceptedUnknownReading(s: GatewayState, known: map<string, SensorId>, deviceId: string, r: Reading)
    requires Supported(r) && ExternalId(deviceId, r.valueType) !in known && Accepts(s)
    ensures var (s', error) := HandleReading(s, known, deviceId, r);
      && error == None
      && |s'.registrations| == |s.registrations| + 1 && |s'.configs| == |s.configs| + 1
      && s'.replies == s.replies[1..]
  {
    AcceptedRegistrationIsFound(s, ExternalId(deviceId, r.valueType), Classify(r.valueType).value);
  }

  /**
   * A first report of a temperature the gateway has never seen: one registration with the
   * plugin's payload, two sensor-list requests, the new record, one update to the new sensor's
   * id, and 200 `success`.
   */
  lemma FirstReportRegistersThenUpdates(s: GatewayState, deviceId: string, value: real)
    requires Accepts(s)
    requires forall i :: 0 <= i < |s.configs| ==> s.configs[i].externalId != Some(ExternalId(deviceId, "temperature"))
    ensures var ext := ExternalId(deviceId, "temperature");
      var (s', response) := HandleReport(s, Report(deviceId, Some([Reading("temperature", value)])));
      && response == Response(200, "success")
      && s'.listings == s.listings + 2
      && s'.registrations == s.registrations + [Registration(ext, Source("plugin", "SensorDotCommunity"), "Temperature", "temperature", "celcius")]
      && s'.configs == s.configs + [SensorConfig(s.nextId, Some(ext), Some(Source("plugin", "SensorDotCommunity")))]
      && s'.updates == s.updates + [StatusUpdate(s.nextId, value)]
  {
    var ext := ExternalId(deviceId, "temperature");
    var r := Reading("temperature", value);
    var known := KnownSensors(s.configs);
    KnownSensorsKeys(s.configs, ext);
    assert ext !in known;
    var s0 := AfterListing(s);
    var cs := s.configs + [SensorConfig(s.nextId, Some(ext), Some(Source(PluginSourceType, PluginName)))];
    FindRegisteredFirst(cs, ext, |s.configs|);
    assert [r][..0] == [];
    assert HandleReadings(s0, known, deviceId, []) == (s0, []);
  }

  /** Joining one more line appends the separator and the line: the body lists every error in order. */
  lemma {:induction false} JoinAppend(xs: seq<string>, x: string, sep: string)
    requires xs != []
    ensures Join(xs + [x], sep) == Join(xs, sep) + sep + x
  {
    if |xs| == 1 {
      assert xs + [x] == [xs[0], x];
      assert [xs[0], x][1..] == [x];
    } else {
      assert (xs + [x])[1..] == xs[1..] + [x];
      JoinAppend(xs[1..], x, sep);
    }
  }

  /** A report without `sensordatavalues` fetches the list once and answers 200 `success`. */
  lemma MissingReadingsSucceed(s: GatewayState, deviceId: string)
    ensures HandleReport(s, Report(deviceId, None)) == (AfterListing(s), Response(200, "success"))
  {
  }
}
