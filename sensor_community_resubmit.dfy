/**
 * Resubmitting a report to the Sensor.community handler.
 *
 * The handler takes its known-sensor map once per request and never adds the sensors it
 * registers to it. A report that repeats a metric nobody registered yet therefore registers
 * it twice; the updates of that request go to the first of the two records (the search after
 * a registration takes the first match) and those of every later request to the second (the
 * known map takes the last). This module exhibits that, defines the handler with the map
 * refreshed after each registration, proves that the refreshed handler resolves a resubmitted
 * report to the same sensors, and proves that the two handlers agree on every report without
 * a repeated unknown metric.
 */
module SensorDotCommunityResubmit {
  import opened Options
  import opened SensorDotCommunityPlugin
  import opened SensorDotCommunityProperties

  // ---------------------------------------------------------------------------------------
  // The handler as written
  // ---------------------------------------------------------------------------------------

  /**
   * A supported reading unknown to the map, registered by an accepting gateway: a new record
   * with the next id joins the list, and the update goes to the first record owned as its
   * external id, which is record `n` if one exists before the new one and the new one otherwise.
   */
  lemma UnknownReadingUpdatesFirstOwned(s: GatewayState, known: map<string, SensorId>, deviceId: string, r: Reading, n: nat)
    requires Supported(r) && ExternalId(deviceId, r.valueType) !in known && Accepts(s)
    requires n <= |s.configs| && forall j :: 0 <= j < n ==> !OwnedAs(s.configs[j], ExternalId(deviceId, r.valueType))
    requires n < |s.configs| ==> OwnedAs(s.configs[n], ExternalId(deviceId, r.valueType))
    ensures var s' := HandleReading(s, known, deviceId, r).0;
      && s'.configs == s.configs + [SensorConfig(s.nextId, Some(ExternalId(deviceId, r.valueType)), Some(Source(PluginSourceType, PluginName)))]
      && s'.nextId == s.nextId + 1 && s'.replies == s.replies[1..]
      && s'.updates == s.updates + [StatusUpdate(if n < |s.configs| then s.configs[n].id else s.nextId, r.value)]
  {
    var ext := ExternalId(deviceId, r.valueType);
    AcceptedUnknownReading(s, known, deviceId, r);
    ReadingUpdate(s, known, deviceId, r);
    var s' := HandleReading(s, known, deviceId, r).0;
    assert s'.configs == s.configs + [SensorConfig(s.nextId, Some(ext), Some(Source(PluginSourceType, PluginName)))];
    assert forall j :: 0 <= j < n ==> s'.configs[j] == s.configs[j];
    FindRegisteredFirst(s'.configs, ext, n);
  }

  /**
   * A report repeating a metric every reading of which is known resolves both readings to the
   * last record tracked as its external id: the known map takes the last match.
   */
  lemma KnownRepeatGoesToLastRecord(s: GatewayState, deviceId: string, r: Reading, i: nat)
    requires Supported(r) && i < |s.configs| && TrackedAs(s.configs[i], ExternalId(deviceId, r.valueType))
    requires forall j :: i < j < |s.configs| ==> !TrackedAs(s.configs[j], ExternalId(deviceId, r.valueType))
    ensures HandleReport(s, Report(deviceId, Some([r, r]))).0.updates
      == s.updates + [StatusUpdate(s.configs[i].id, r.value), StatusUpdate(s.configs[i].id, r.value)]
  {
    var known := KnownSensors(s.configs);
    KnownSensorsLastWins(s.configs, ExternalId(deviceId, r.valueType), i);
    AllKnownOnlyUpdates(AfterListing(s), known, deviceId, [r, r]);
    assert [r, r][..1] == [r] && [r][..0] == [];
    assert KnownUpdates(known, deviceId, [r]) == [StatusUpdate(s.configs[i].id, r.value)];
  }

  /**
   * A report carrying an unseen metric twice, to a gateway accepting both registrations: two
   * records with consecutive ids join the list, and both updates go to the first of them.
   */
  lemma RepeatedUnknownRegistersTwice(s: GatewayState, deviceId: string, r: Reading)
    requires Supported(r) && |s.replies| >= 2 && s.replies[0] && s.replies[1]
    requires forall i :: 0 <= i < |s.configs| ==> s.configs[i].externalId != Some(ExternalId(deviceId, r.valueType))
    ensures var s1 := HandleReport(s, Report(deviceId, Some([r, r]))).0;
      var ext, source := Some(ExternalId(deviceId, r.valueType)), Some(Source(PluginSourceType, PluginName));
      && s1.configs == s.configs + [SensorConfig(s.nextId, ext, source), SensorConfig(s.nextId + 1, ext, source)]
      && s1.updates == s.updates + [StatusUpdate(s.nextId, r.value), StatusUpdate(s.nextId, r.value)]
  {
    RepeatedUnknownSteps(s, deviceId, r);
    TwoReadingsReport(s, deviceId, r);
  }

  /**
   * The two steps of such a report, after its sensor-list request: both readings miss the
   * known map, so each registers a record, and both updates go to the first of them.
   */
  lemma RepeatedUnknownSteps(s: GatewayState, deviceId: string, r: Reading)
    requires Supported(r) && |s.replies| >= 2 && s.replies[0] && s.replies[1]
    requires forall i :: 0 <= i < |s.configs| ==> s.configs[i].externalId != Some(ExternalId(deviceId, r.valueType))
    ensures var known := KnownSensors(s.configs);
      var s2 := HandleReading(HandleReading(AfterListing(s), known, deviceId, r).0, known, deviceId, r).0;
      var ext, source := Some(ExternalId(deviceId, r.valueType)), Some(Source(PluginSourceType, PluginName));
      && s2.configs == s.configs + [SensorConfig(s.nextId, ext, source), SensorConfig(s.nextId + 1, ext, source)]
      && s2.updates == s.updates + [StatusUpdate(s.nextId, r.value), StatusUpdate(s.nextId, r.value)]
  {
    var ext := ExternalId(deviceId, r.valueType);
    var known := KnownSensors(s.configs);
    UnseenIsUnknown(s.configs, ext);
    var n := |s.configs|;
    var s0 := AfterListing(s);
    assert s0.configs == s.configs && s0.replies == s.replies && s0.nextId == s.nextId && s0.updates == s.updates;
    // The first reading registers the first record and updates it.
    assert forall j :: 0 <= j < n ==> !OwnedAs(s.configs[j], ext);
    UnknownReadingUpdatesFirstOwned(s0, known, deviceId, r, n);
    var s1 := HandleReading(s0, known, deviceId, r).0;
    // The second reading, still unknown to the map, registers the second record and updates the first.
    var c := SensorConfig(s.nextId, Some(ext), Some(Source(PluginSourceType, PluginName)));
    assert s1.configs == s.configs + [c] && s1.replies == s.replies[1..];
    assert Accepts(s1) && OwnedAs(s1.configs[n], ext);
    assert forall j :: 0 <= j < n ==> s1.configs[j] == s.configs[j];
    UnknownReadingUpdatesFirstOwned(s1, known, deviceId, r, n);
    var s2 := HandleReading(s1, known, deviceId, r).0;
    var u := StatusUpdate(s.nextId, r.value);
    assert s1.configs[n].id == s.nextId && s1.nextId == s.nextId + 1 && s1.updates == s.updates + [u];
    assert s2.configs == s.configs + [c] + [c.(id := s.nextId + 1)];
    assert s.configs + [c] + [c.(id := s.nextId + 1)] == s.configs + [c, c.(id := s.nextId + 1)];
    assert s2.updates == s.updates + [u] + [u];
  }

  /** An external id no record carries is not in the known map. */
  lemma UnseenIsUnknown(cs: seq<SensorConfig>, ext: string)
    requires forall i :: 0 <= i < |cs| ==> cs[i].externalId != Some(ext)
    ensures ext !in KnownSensors(cs)
  {
    KnownSensorsKeys(cs, ext);
  }

  /** A report of two readings is one sensor-list request and two steps with the same known map. */
  lemma TwoReadingsReport(s: GatewayState, deviceId: string, r: Reading)
    ensures var known := KnownSensors(s.configs);
      HandleReport(s, Report(deviceId, Some([r, r]))).0
        == HandleReading(HandleReading(AfterListing(s), known, deviceId, r).0, known, deviceId, r).0
  {
    var known := KnownSensors(s.configs);
    var s0 := AfterListing(s);
    assert [r, r][..1] == [r] && [r][..0] == [];
    assert HandleReadings(s0, known, deviceId, []) == (s0, []);
    assert HandleReadings(s0, known, deviceId, [r]).0 == HandleReading(s0, known, deviceId, r).0;
  }

  /**
   * A report carrying an unseen temperature twice, sent twice: the first request updates the
   * first registered record twice, the resubmission the second record twice.
   */
  lemma ResubmitMovesRepeatedMetric(s: GatewayState, deviceId: string, value: real)
    requires |s.replies| >= 2 && s.replies[0] && s.replies[1]
    requires forall i :: 0 <= i < |s.configs| ==> s.configs[i].externalId != Some(ExternalId(deviceId, "temperature"))
    ensures var r := Reading("temperature", value);
      var s1 := HandleReport(s, Report(deviceId, Some([r, r]))).0;
      var s2 := HandleReport(s1, Report(deviceId, Some([r, r]))).0;
      && s1.updates == s.updates + [StatusUpdate(s.nextId, value), StatusUpdate(s.nextId, value)]
      && s2.updates == s1.updates + [StatusUpdate(s.nextId + 1, value), StatusUpdate(s.nextId + 1, value)]
  {
    var r := Reading("temperature", value);
    RepeatedUnknownRegistersTwice(s, deviceId, r);
    var s1 := HandleReport(s, Report(deviceId, Some([r, r]))).0;
    var n := |s.configs|;
    assert s1.configs[n + 1].id == s.nextId + 1 && |s1.configs| == n + 2;
    KnownRepeatGoesToLastRecord(s1, deviceId, r, n + 1);
  }

  // ---------------------------------------------------------------------------------------
  // The handler with the known map refreshed after each registration
  // ---------------------------------------------------------------------------------------

  /** `k2` maps every external id of `k1` to the same sensor. */
  predicate Extends(k1: map<string, SensorId>, k2: map<string, SensorId>)
  {
    forall e :: e in k1 ==> e in k2 && k2[e] == k1[e]
  }

  /**
   * One reading with a refreshed map: the calls, the new gateway state and the error are
   * those of the plugin's step; a sensor it registered joins the map.
   */
  function RefreshedReading(s: GatewayState, known: map<string, SensorId>, deviceId: string, r: Reading)
    : (out: (GatewayState, map<string, SensorId>, Option<string>))
    ensures (out.0, out.2) == HandleReading(s, known, deviceId, r)
    ensures known.Keys <= out.1.Keys
  {
    var (s', error) := HandleReading(s, known, deviceId, r);
    var ext := ExternalId(deviceId, r.valueType);
    var id := FindRegistered(s'.configs, ext);
    if Supported(r) && ext !in known && error.None? && id.Some? then (s', known[ext := id.value], error)
    else (s', known, error)
  }

  /** The loop over `rs` with a refreshed map: the final state, the final map and the errors. */
  function RefreshedReadings(s: GatewayState, known: map<string, SensorId>, deviceId: string, rs: seq<Reading>)
    : (out: (GatewayState, map<string, SensorId>, seq<string>))
    ensures |out.2| <= |rs|
    ensures known.Keys <= out.1.Keys
  {
    if rs == [] then (s, known, [])
    else
      var (s1, known1, errors) := RefreshedReadings(s, known, deviceId, rs[..|rs| - 1]);
      var (s2, known2, error) := RefreshedReading(s1, known1, deviceId, rs[|rs| - 1]);
      (s2, known2, errors + (if error.Some? then [error.value] else []))
  }

  /** The request with a refreshed map: one sensor-list request, the loop, the response. */
  function RefreshedReport(s: GatewayState, report: Report): (out: (GatewayState, Response))
    ensures Readings(report) == [] ==> out == (AfterListing(s), Response(200, "success"))
  {
    var (s', _, errors) := RefreshedReadings(AfterListing(s), KnownSensors(s.configs), report.deviceId, Readings(report));
    (s', Respond(errors))
  }

  /**
   * One refreshed step keeps the map equal to the known map of the current sensor list, keeps
   * every entry it had, and updates a supported reading without error with the id it maps to.
   */
  lemma RefreshedStep(s: GatewayState, known: map<string, SensorId>, deviceId: string, r: Reading)
    requires known == KnownSensors(s.configs)
    ensures var (s', known', error) := RefreshedReading(s, known, deviceId, r);
      var ext := ExternalId(deviceId, r.valueType);
      && known' == KnownSensors(s'.configs)
      && Extends(known, known')
      && (error.Some? || !Supported(r) ==> s'.updates == s.updates)
      && (error.None? && Supported(r) ==> ext in known' && s'.updates == s.updates + [StatusUpdate(known'[ext], r.value)])
  {
    var s' := HandleReading(s, known, deviceId, r).0;
    var ext := ExternalId(deviceId, r.valueType);
    ReadingUpdate(s, known, deviceId, r);
    if Supported(r) && ext !in known && HandleReading(s, known, deviceId, r).1.None? {
      var c := SensorConfig(s.nextId, Some(ext), Some(Source(PluginSourceType, PluginName)));
      assert s'.configs == s.configs + [c];
      RegistrationJoinsKnownMap(s.configs, c, ext);
    }
  }

  /**
   * A record from the plugin owned as an external id the known map lacks joins the map under
   * that id, and it is the record the search after the registration finds.
   */
  lemma RegistrationJoinsKnownMap(cs: seq<SensorConfig>, c: SensorConfig, ext: string)
    requires ext != "" && ext !in KnownSensors(cs) && OwnedAs(c, ext)
    ensures KnownSensors(cs + [c]) == KnownSensors(cs)[ext := c.id]
    ensures FindRegistered(cs + [c], ext) == Some(c.id)
  {
    var cs' := cs + [c];
    KnownSensorsKeys(cs, ext);
    forall j | 0 <= j < |cs|
      ensures !OwnedAs(cs'[j], ext)
    {
      assert cs'[j] == cs[j] && !TrackedAs(cs[j], ext);
    }
    FindRegisteredFirst(cs', ext, |cs|);
    assert cs'[..|cs'| - 1] == cs;
  }

  /** Keys added to a map change none of the updates of readings it already knew. */
  lemma {:induction false} KnownUpdatesExtend(k1: map<string, SensorId>, k2: map<string, SensorId>, deviceId: string, rs: seq<Reading>)
    requires Extends(k1, k2) && AllKnown(k1, deviceId, rs)
    ensures AllKnown(k2, deviceId, rs)
    ensures KnownUpdates(k2, deviceId, rs) == KnownUpdates(k1, deviceId, rs)
  {
    if rs != [] {
      var prefix := rs[..|rs| - 1];
      assert forall i :: 0 <= i < |prefix| ==> prefix[i] == rs[i];
      KnownUpdatesExtend(k1, k2, deviceId, prefix);
    }
  }

  /**
   * The refreshed loop keeps its map equal to the known map of the sensor list; without
   * errors, every supported reading ends up known and is updated once, in reading order, with
   * the id the final map gives it.
   */
  lemma {:induction false} RefreshedReadingsCurrent(s: GatewayState, known: map<string, SensorId>, deviceId: string, rs: seq<Reading>)
    requires known == KnownSensors(s.configs)
    ensures var out := RefreshedReadings(s, known, deviceId, rs);
      && out.1 == KnownSensors(out.0.configs)
      && Extends(known, out.1)
      && (out.2 == [] ==> AllKnown(out.1, deviceId, rs) && out.0.updates == s.updates + KnownUpdates(out.1, deviceId, rs))
  {
    if rs != [] {
      var prefix, last := rs[..|rs| - 1], rs[|rs| - 1];
      RefreshedReadingsCurrent(s, known, deviceId, prefix);
      var out1 := RefreshedReadings(s, known, deviceId, prefix);
      var out2 := RefreshedReading(out1.0, out1.1, deviceId, last);
      RefreshedStep(out1.0, out1.1, deviceId, last);
      var errors := out1.2 + (if out2.2.Some? then [out2.2.value] else []);
      assert RefreshedReadings(s, known, deviceId, rs) == (out2.0, out2.1, errors);
      if errors == [] {
        assert prefix + [last] == rs;
        KnownUpdatesStep(out1.1, out2.1, deviceId, prefix, last, s.updates, out1.0.updates, out2.0.updates);
      }
    }
  }

  /**
   * One more supported reading known to the extended map, updated with the id that map gives
   * it, extends the updates of the readings before it by one.
   */
  lemma KnownUpdatesStep(k1: map<string, SensorId>, k2: map<string, SensorId>, deviceId: string, prefix: seq<Reading>, last: Reading,
                         u0: seq<StatusUpdate>, u1: seq<StatusUpdate>, u2: seq<StatusUpdate>)
    requires Extends(k1, k2) && AllKnown(k1, deviceId, prefix)
    requires u1 == u0 + KnownUpdates(k1, deviceId, prefix)
    requires Supported(last) ==>
      ExternalId(deviceId, last.valueType) in k2 && u2 == u1 + [StatusUpdate(k2[ExternalId(deviceId, last.valueType)], last.value)]
    requires !Supported(last) ==> u2 == u1
    ensures AllKnown(k2, deviceId, prefix + [last])
    ensures u2 == u0 + KnownUpdates(k2, deviceId, prefix + [last])
  {
    var rs := prefix + [last];
    KnownUpdatesExtend(k1, k2, deviceId, prefix);
    assert rs[..|rs| - 1] == prefix;
    assert forall i :: 0 <= i < |prefix| ==> rs[i] == prefix[i];
  }

  /**
   * The promise of a resubmission, kept by the refreshed handler: a report answered 200, sent
   * again, leaves every reading known, registers nothing, answers 200 and updates the same
   * sensors with the same values in the same order.
   */
  lemma RefreshedResubmitSameIds(s: GatewayState, report: Report)
    requires RefreshedReport(s, report).1.status == 200
    ensures var s1 := RefreshedReport(s, report).0;
      var (s2, response) := RefreshedReport(s1, report);
      var updates := KnownUpdates(KnownSensors(s1.configs), report.deviceId, Readings(report));
      && AllKnown(KnownSensors(s1.configs), report.deviceId, Readings(report))
      && response == Response(200, "success")
      && s2.registrations == s1.registrations && s2.configs == s1.configs
      && s1.updates == s.updates + updates && s2.updates == s1.updates + updates
  {
    var rs, deviceId := Readings(report), report.deviceId;
    RefreshedReadingsCurrent(AfterListing(s), KnownSensors(s.configs), deviceId, rs);
    var s1 := RefreshedReport(s, report).0;
    var known1 := KnownSensors(s1.configs);
    AgreesWithoutRepeats(AfterListing(s1), known1, deviceId, rs);
    AllKnownOnlyUpdates(AfterListing(s1), known1, deviceId, rs);
  }

  // ---------------------------------------------------------------------------------------
  // When the two handlers agree
  // ---------------------------------------------------------------------------------------

  /** No metric unknown to `known` appears twice among the readings. */
  predicate NoRepeatedUnknown(known: map<string, SensorId>, deviceId: string, rs: seq<Reading>)
  {
    forall i, j :: 0 <= i < j < |rs| && Supported(rs[i]) && ExternalId(deviceId, rs[i].valueType) !in known ==>
      rs[i].valueType != rs[j].valueType
  }

  /** Every key the refreshed loop added is the external id of a supported reading of `rs`. */
  predicate AddedFrom(known: map<string, SensorId>, known': map<string, SensorId>, deviceId: string, rs: seq<Reading>)
  {
    forall e :: e in known' && e !in known ==>
      exists i :: 0 <= i < |rs| && Supported(rs[i]) && ExternalId(deviceId, rs[i].valueType) == e
  }

  /**
   * The plugin's step reads the known map only at the reading's own external id: two maps
   * that agree there give the same calls, state and error.
   */
  lemma SameLookup(s: GatewayState, k1: map<string, SensorId>, k2: map<string, SensorId>, deviceId: string, r: Reading)
    requires var ext := ExternalId(deviceId, r.valueType);
      (ext in k1 <==> ext in k2) && (ext in k1 ==> k1[ext] == k2[ext])
    ensures HandleReading(s, k1, deviceId, r) == HandleReading(s, k2, deviceId, r)
  {
  }

  /** A refreshed step keeps every entry of the map and adds at most the reading's own id. */
  lemma RefreshedReadingAdds(s: GatewayState, known: map<string, SensorId>, deviceId: string, r: Reading)
    ensures var known' := RefreshedReading(s, known, deviceId, r).1;
      && Extends(known, known')
      && (forall e :: e in known' && e !in known ==> Supported(r) && e == ExternalId(deviceId, r.valueType))
  {
  }

  /**
   * A supported metric unknown before the readings and not repeated among them is not among
   * the keys added while handling the readings before it.
   */
  lemma NotAddedBefore(known: map<string, SensorId>, known1: map<string, SensorId>, deviceId: string, prefix: seq<Reading>, last: Reading)
    requires NoRepeatedUnknown(known, deviceId, prefix + [last])
    requires AddedFrom(known, known1, deviceId, prefix)
    requires Supported(last) && ExternalId(deviceId, last.valueType) !in known
    ensures ExternalId(deviceId, last.valueType) !in known1
  {
    var rs := prefix + [last];
    forall i | 0 <= i < |prefix| && Supported(prefix[i])
      ensures ExternalId(deviceId, prefix[i].valueType) != ExternalId(deviceId, last.valueType)
    {
      assert rs[i] == prefix[i] && rs[|prefix|] == last;
    }
  }

  /**
   * The keys added over the readings before `last` and those added for `last` together are
   * keys added over all the readings, and every entry kept so far is still kept.
   */
  lemma AddedFromStep(known: map<string, SensorId>, known1: map<string, SensorId>, known2: map<string, SensorId>,
                      deviceId: string, prefix: seq<Reading>, last: Reading)
    requires Extends(known, known1) && AddedFrom(known, known1, deviceId, prefix)
    requires Extends(known1, known2)
    requires forall e :: e in known2 && e !in known1 ==> Supported(last) && e == ExternalId(deviceId, last.valueType)
    ensures Extends(known, known2) && AddedFrom(known, known2, deviceId, prefix + [last])
  {
    var rs := prefix + [last];
    forall e | e in known2 && e !in known
      ensures exists i :: 0 <= i < |rs| && Supported(rs[i]) && ExternalId(deviceId, rs[i].valueType) == e
    {
      if e in known1 {
        var i :| 0 <= i < |prefix| && Supported(prefix[i]) && ExternalId(deviceId, prefix[i].valueType) == e;
        assert rs[i] == prefix[i];
      } else {
        assert rs[|prefix|] == last;
      }
    }
  }

  /**
   * The refreshed loop keeps every entry of its map, and every key it adds is the external id
   * of one of the supported readings.
   */
  lemma {:induction false} RefreshedKeysFrom(s: GatewayState, known: map<string, SensorId>, deviceId: string, rs: seq<Reading>)
    ensures var known' := RefreshedReadings(s, known, deviceId, rs).1;
      Extends(known, known') && AddedFrom(known, known', deviceId, rs)
  {
    if rs != [] {
      var prefix, last := rs[..|rs| - 1], rs[|rs| - 1];
      assert prefix + [last] == rs;
      RefreshedKeysFrom(s, known, deviceId, prefix);
      var out1 := RefreshedReadings(s, known, deviceId, prefix);
      RefreshedReadingAdds(out1.0, out1.1, deviceId, last);
      AddedFromStep(known, out1.1, RefreshedReading(out1.0, out1.1, deviceId, last).1, deviceId, prefix, last);
    }
  }

  /**
   * Without a repeated unknown metric, the plugin's loop and the refreshed one make the same
   * calls and report the same errors: a key the refreshed map added is never looked up again.
   */
  lemma {:induction false} AgreesWithoutRepeats(s: GatewayState, known: map<string, SensorId>, deviceId: string, rs: seq<Reading>)
    requires NoRepeatedUnknown(known, deviceId, rs)
    ensures var out := RefreshedReadings(s, known, deviceId, rs);
      HandleReadings(s, known, deviceId, rs) == (out.0, out.2)
  {
    if rs != [] {
      var prefix, last := rs[..|rs| - 1], rs[|rs| - 1];
      assert prefix + [last] == rs;
      assert forall i, j :: 0 <= i < j < |prefix| ==> prefix[i] == rs[i] && prefix[j] == rs[j];
      AgreesWithoutRepeats(s, known, deviceId, prefix);
      RefreshedKeysFrom(s, known, deviceId, prefix);
      var out1 := RefreshedReadings(s, known, deviceId, prefix);
      var ext := ExternalId(deviceId, last.valueType);
      if Supported(last) && ext !in known {
        NotAddedBefore(known, out1.1, deviceId, prefix, last);
      }
      SameLookup(out1.0, known, out1.1, deviceId, last);
    }
  }

  /** Without a repeated unknown metric, the plugin's handler is the refreshed one. */
  lemma ReportAgreesWithoutRepeats(s: GatewayState, report: Report)
    requires NoRepeatedUnknown(KnownSensors(s.configs), report.deviceId, Readings(report))
    ensures HandleReport(s, report) == RefreshedReport(s, report)
  {
    AgreesWithoutRepeats(AfterListing(s), KnownSensors(s.configs), report.deviceId, Readings(report));
  }

  /**
   * The plugin keeps the promise of a resubmission for a report without a repeated unknown
   * metric: the second request updates the same sensors, in the same order, as the first.
   */
  lemma ResubmitSameIds(s: GatewayState, report: Report)
    requires HandleReport(s, report).1.status == 200
    requires NoRepeatedUnknown(KnownSensors(s.configs), report.deviceId, Readings(report))
    ensures var s1 := HandleReport(s, report).0;
      var s2 := HandleReport(s1, report).0;
      && |s.updates| <= |s1.updates|
      && s2.updates == s1.updates + s1.updates[|s.updates|..]
      && s2.updates[|s1.updates|..] == s1.updates[|s.updates|..]
  {
    ReportAgreesWithoutRepeats(s, report);
    RefreshedResubmitSameIds(s, report);
    ReportAgreesWithoutRepeats(HandleReport(s, report).0, report);
  }
}
