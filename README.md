# Two home-automation plugins, modelled in Dafny

This project models the decision logic of two plugins of a home-automation gateway.

**SensorDotCommunity** receives reports from Sensor.community air-quality stations. A report
carries a device id (`esp8266id`) and a list of readings (`sensordatavalues`). Each reading of
one of four supported metric types (`temperature`, `humidity`, `SDS_P1`, `SDS_P2`) is mapped to
a sensor of the gateway. The sensor's external id is `device/metric`. It is looked up in a map
built once per request from the gateway's sensor list. A sensor that is missing is registered,
and the list is searched again for the id the gateway gave it. The value is then pushed to the
gateway. Registration failures become error lines, and the response is 500 with those lines or
200 `success`.

**Pushsafer** turns input events into push messages. It is enabled when it has a private key
and at least one mapping. An event of an input sends one message per mapping of that input,
unless that input already sent less than ten seconds ago. The input's cooldown is stamped only
when something was sent.

Files:

- `options.dfy`: module `Options`, the `Option` type (Python's `None`).
- `sensor_community.dfy`: module `SensorDotCommunityPlugin`. It holds the report, the
  classification table, the sensor records and the known-sensor map. It also holds the gateway,
  a class whose sensor list, values and call log the plugin's methods change, and the plugin
  class. Every gateway and plugin operation is specified by a function over `GatewayState`
  (`RegisterSensorSpec`, `UpdateSensorSpec`, `HandleReading`, `HandleReadings`, `HandleReport`).
  The methods are proved to follow those functions.
- `sensor_community_properties.dfy`: module `SensorDotCommunityProperties`, the lemmas about
  those functions.
- `sensor_community_resubmit.dfy`: module `SensorDotCommunityResubmit`. It covers what a
  resubmitted report does when the report repeats an unseen metric (see Findings below). It
  holds `RefreshedReport`, the handler with the known map refreshed after each registration,
  and the lemmas relating the two handlers.
- `pushsafer.dfy`: module `PushsaferPlugin`. It holds the configuration, the message records,
  the event transition `InputStep`, the `Pushsafer` class with its cooldown map and ghost list
  of sent messages, and the lemmas.

The gateway is the plugin's collaborator, so it is a model and not a transcription. Its answers
to registration calls come from a list of success flags, `replies`; when that list is empty, the
answer has no success flag. It accepts a status update when the sensor id exists. It logs every
registration payload, every status update and the number of sensor-list requests. With that log,
"exactly one registration, then one re-fetch" can be stated.

The unit registered for `temperature` is spelled `celcius`, as in the plugin.

## Model

| member | source | states |
|---|---|---|
| SensorDotCommunityPlugin.Readings | sensordotcommunity/main.py:110 | a report without `sensordatavalues` has no readings |
| SensorDotCommunityPlugin.Classify | sensordotcommunity/main.py:114-132 | the classification equals the four-entry table lookup (Temperature/temperature/celcius, Humidity/humidity/percent, PM10 and PM2.5 as dust in micro_gram_per_cubic_meter); exactly those four types are supported |
| SensorDotCommunityPlugin.ExternalId | sensordotcommunity/main.py:113 | the external id is the device id, then `/`, then the metric type |
| SensorDotCommunityProperties.ExternalIdInjective | sensordotcommunity/main.py:113 | for device ids without a slash, the external id determines the device and the metric |
| SensorDotCommunityProperties.ExternalIdAmbiguousWithSlash | sensordotcommunity/main.py:113 | a device id that holds a slash can make two sensors share an external id |
| SensorDotCommunityPlugin.KnownSensors | sensordotcommunity/main.py:153 | the known map, built over the list in order with later records overwriting earlier ones, never holds the empty external id; `KnownSensorsKeys`, `KnownSensorsValues` and `KnownSensorsLastWins` establish which keys it holds and which id each gets |
| SensorDotCommunityProperties.KnownSensorsValues | sensordotcommunity/main.py:153 | every id in the known map is the id of a record with the plugin's source name and that external id |
| SensorDotCommunityProperties.KnownSensorsKeys | sensordotcommunity/main.py:150-153 | an external id is in the known map iff some record has the plugin's source name and that external id, which is neither null nor empty |
| SensorDotCommunityProperties.KnownSensorsLastWins | sensordotcommunity/main.py:153 | the known map gives an external id the id of the last such record in list order |
| SensorDotCommunityProperties.KnownSensorsGrow | sensordotcommunity/main.py:153 | records appended to the sensor list never remove a known external id |
| SensorDotCommunityPlugin.FindRegistered | sensordotcommunity/main.py:191 | the `next(...)` search: nothing in an empty list, the first record's id when it is owned as the external id, else the search goes on; `FindRegisteredFound`, `FindRegisteredOwned`, `FindRegisteredFirst` and `FindRegisteredAppend` establish what it finds |
| SensorDotCommunityProperties.FindRegisteredOwned | sensordotcommunity/main.py:191 | the id found belongs to a record with the plugin's source name and the external id |
| SensorDotCommunityProperties.FindRegisteredAppend | sensordotcommunity/main.py:189-191 | records appended to the list do not change an id the search already finds |
| SensorDotCommunityProperties.FindRegisteredFound | sensordotcommunity/main.py:189-191 | the search after a registration returns an id iff some record has the plugin's source name and the external id |
| SensorDotCommunityProperties.FindRegisteredFirst | sensordotcommunity/main.py:191 | the id returned is that of the first such record |
| SensorDotCommunityProperties.AcceptedRegistrationIsFound | sensordotcommunity/main.py:183-193 | when the gateway accepts a registration, the search that follows finds an id |
| SensorDotCommunityPlugin.RegistrationFor | sensordotcommunity/main.py:176-182 | a registration payload carries source type `plugin` and name `SensorDotCommunity` |
| SensorDotCommunityPlugin.RegisterSensorSpec | sensordotcommunity/main.py:174-193 | one registration call with the payload; on a failed answer, no id, no sensor-list request and an unchanged list; on success, one sensor-list request, the appended record, and the result of the search |
| SensorDotCommunityPlugin.UpdateSensorSpec | sensordotcommunity/main.py:195-201 | one status update with the id and the value; the sensor list, registrations and listings are unchanged whatever the answer |
| SensorDotCommunityPlugin.NotFoundMessage | sensordotcommunity/main.py:142 | the error line is 37 characters longer than the sensor name and external id together; `NotFoundMessageShape` establishes its text |
| SensorDotCommunityProperties.NotFoundMessageShape | sensordotcommunity/main.py:142 | the error line is `Sensor.community sensor `, the name, ` (`, the external id, `) not found` |
| SensorDotCommunityPlugin.HandleReading | sensordotcommunity/main.py:111-144 | an unsupported reading changes nothing and reports nothing; `ReadingStep`, `ReadingUpdate` and `AcceptedUnknownReading` establish its calls and its error |
| SensorDotCommunityPlugin.HandleReadings | sensordotcommunity/main.py:110-144 | the loop reports at most one error line per reading; the loop lemmas below establish its calls and errors |
| SensorDotCommunityPlugin.Join | sensordotcommunity/main.py:146 | joining no lines gives the empty string; otherwise the result starts with the first line, followed by the separator when there is a second |
| SensorDotCommunityPlugin.HandleReport | sensordotcommunity/main.py:106-148 | a report without readings only fetches the list and answers 200 `success`; every answer is 200 or 500; `ResubmitIsQuiet`, `FirstReportRegistersThenUpdates` and the loop lemmas establish the rest |
| SensorDotCommunityPlugin.Respond | sensordotcommunity/main.py:145-148 | status 500 iff there are errors, with the errors joined by newlines as body; otherwise 200 `success` |
| SensorDotCommunityPlugin.SensorDotCommunity.GetKnownSensors | sensordotcommunity/main.py:150-153 | one sensor-list request; the result is the known map of the list |
| SensorDotCommunityPlugin.SensorDotCommunity.RegisterSensor | sensordotcommunity/main.py:174-193 | the method's effect and result are those of `RegisterSensorSpec` |
| SensorDotCommunityPlugin.SensorDotCommunity.UpdateSensor | sensordotcommunity/main.py:195-201 | the method's effect is that of `UpdateSensorSpec`; the answer is dropped |
| SensorDotCommunityPlugin.SensorDotCommunity.HandleEntry | sensordotcommunity/main.py:111-144 | the body of the loop: one reading leaves the gateway and the error line as `HandleReading` says |
| SensorDotCommunityPlugin.SensorDotCommunity.Api | sensordotcommunity/main.py:95-148 | the loop over the readings leaves the gateway and the response as `HandleReport` says: the known map is taken once before the loop, and each reading is classified, resolved or registered, then updated or reported |
| SensorDotCommunityProperties.UnsupportedReadingsIgnored | sensordotcommunity/main.py:130-132 | removing the unsupported readings from a report changes neither the gateway nor the errors |
| SensorDotCommunityProperties.AllKnownOnlyUpdates | sensordotcommunity/main.py:133-140 | when every supported reading is known, there is no registration, no sensor-list request and no error, and exactly one update per supported reading, in order, with the mapped id |
| SensorDotCommunityProperties.ReadingStep | sensordotcommunity/main.py:133-144 | one reading appends at most one registration; its error, if any, is its not-found line; an unknown supported reading without error left a tracked record for its external id; in the modelled gateway, which always lists a sensor it accepted, a registration either added a record or produced the error |
| SensorDotCommunityProperties.ReadingUpdate | sensordotcommunity/main.py:133-144 | an unsupported reading or one with an error issues no status update; any other issues exactly one, to the known id or else the id found after registering, with the reading's value; a known reading registers nothing and fetches no list; an unknown one fetches one list when it succeeds and none when refused |
| SensorDotCommunityProperties.AcceptedUnknownReading | sensordotcommunity/main.py:133-140 | a supported reading with an unknown external id that the gateway accepts makes one registration, adds one record and reports no error |
| SensorDotCommunityProperties.ReadingsGrowth | sensordotcommunity/main.py:133-144 | the loop only appends to the sensor list, the registrations and the updates; in the modelled gateway, which always lists a sensor it accepted, error lines plus added records equal registrations made |
| SensorDotCommunityProperties.ReadingsUpdateCount | sensordotcommunity/main.py:130-144 | every supported reading gives one status update or one error line, and an unsupported one neither |
| SensorDotCommunityProperties.ResolvedUpdatesStable | sensordotcommunity/main.py:137-140 | once every supported reading resolves to a sensor, records appended to the list change none of the updates |
| SensorDotCommunityProperties.ReadingsUpdatesNoErrors | sensordotcommunity/main.py:133-144 | after a loop without errors, every supported reading resolved, and the updates are one per supported reading, in reading order, each to its resolved sensor with its value |
| SensorDotCommunityProperties.ReadingsErrorsExplained | sensordotcommunity/main.py:138-144 | every error line is `Sensor.community sensor {name} ({ext}) not found` for a supported reading whose external id was not known |
| SensorDotCommunityProperties.ReadingsRegistrationsExplained | sensordotcommunity/main.py:133-135 | every registration carries source `plugin`/`SensorDotCommunity` and the external id, name, quantity and unit of a supported reading whose external id was not known |
| SensorDotCommunityProperties.NoErrorsAllRegistered | sensordotcommunity/main.py:133-144 | after a loop without errors, every supported reading's external id is in the known map of the new sensor list |
| SensorDotCommunityProperties.ResubmitIsQuiet | sensordotcommunity/main.py:106-148 | re-submitting a report that was answered 200 registers nothing, answers 200 `success` and issues one update per supported reading, each to the sensor the new known map gives it; `SensorDotCommunityResubmit.ResubmitSameIds` states when those are the sensors of the first request |
| SensorDotCommunityProperties.StaleKnownMapRegistersTwice | sensordotcommunity/main.py:107-135 | the known map is not refreshed within a request: the same unknown metric twice in one report is registered twice |
| SensorDotCommunityProperties.FirstReportRegistersThenUpdates | sensordotcommunity/main.py:106-148 | the first report of an unseen temperature, with an accepting gateway: one registration with the plugin's payload and unit `celcius`, two sensor-list requests, the new record, one update to the new sensor's id, and 200 `success` |
| SensorDotCommunityProperties.MissingReadingsSucceed | sensordotcommunity/main.py:107-148 | a report without `sensordatavalues` makes one sensor-list request and answers 200 `success` |
| SensorDotCommunityProperties.JoinAppend | sensordotcommunity/main.py:146 | joining one more error line appends the separator and that line, so the 500 body lists every error line in order |
| SensorDotCommunityResubmit.UnknownReadingUpdatesFirstOwned | sensordotcommunity/main.py:133-140 | a supported reading missing from the known map, with an accepting gateway: the new record with the next id joins the list, one reply is used, and the update goes to the first record from the plugin with that external id (the search of main.py:191) |
| SensorDotCommunityResubmit.KnownRepeatGoesToLastRecord | sensordotcommunity/main.py:153 | a report repeating a known metric updates, twice, the last record the known map was built from for that external id |
| SensorDotCommunityResubmit.TwoReadingsReport | sensordotcommunity/main.py:106-144 | a report of two readings is one sensor-list request and two steps that share the known map taken before the loop |
| SensorDotCommunityResubmit.RepeatedUnknownSteps | sensordotcommunity/main.py:133-140 | those two steps, for the same unseen metric with both registrations accepted: two records with consecutive ids, both updates to the first |
| SensorDotCommunityResubmit.RepeatedUnknownRegistersTwice | sensordotcommunity/main.py:107-140 | a report carrying an unseen metric twice, with both registrations accepted: two records with consecutive ids join the list, and both updates go to the first of them |
| SensorDotCommunityResubmit.ResubmitMovesRepeatedMetric | sensordotcommunity/main.py:107-153 | such a report sent twice: the first request updates sensor `nextId` twice, the resubmission sensor `nextId + 1` twice |
| SensorDotCommunityResubmit.UnseenIsUnknown | sensordotcommunity/main.py:153 | an external id that no record carries is not in the known map |
| SensorDotCommunityResubmit.RefreshedReading | sensordotcommunity/main.py:110-144 | the step with a refreshed map makes the same calls, reaches the same state and reports the same error as the plugin's step, and keeps every key of its map |
| SensorDotCommunityResubmit.RefreshedReadings | sensordotcommunity/main.py:110-144 | at most one error line per reading, and no key of the map is lost |
| SensorDotCommunityResubmit.RefreshedReport | sensordotcommunity/main.py:106-148 | a report without readings only fetches the list and answers 200 `success` |
| SensorDotCommunityResubmit.RefreshedStep | sensordotcommunity/main.py:133-140 | starting from the known map of the list, a refreshed step keeps the map equal to the known map of the new list and keeps every entry; a supported reading without error is updated, once, with the id that map gives it, and otherwise nothing is updated |
| SensorDotCommunityResubmit.RegistrationJoinsKnownMap | sensordotcommunity/main.py:150-153 | a record from the plugin with an external id the known map lacks joins the map under that id, and the search after the registration (main.py:191) finds it |
| SensorDotCommunityResubmit.RefreshedReadingsCurrent | sensordotcommunity/main.py:110-144 | the refreshed loop keeps its map equal to the known map of the list; without errors, every supported reading is known and is updated once, in reading order, with the id of the final map |
| SensorDotCommunityResubmit.RefreshedResubmitSameIds | sensordotcommunity/main.py:106-148 | with the refreshed map, a report answered 200 and sent again registers nothing, answers 200 `success`, and issues exactly the updates of the first request: same sensors, same values, same order |
| SensorDotCommunityResubmit.SameLookup | sensordotcommunity/main.py:133-137 | the plugin's step reads the known map only at the reading's own external id |
| SensorDotCommunityResubmit.RefreshedKeysFrom | sensordotcommunity/main.py:133-135 | the refreshed loop keeps every entry of its map and adds only the external ids of supported readings |
| SensorDotCommunityResubmit.AgreesWithoutRepeats | sensordotcommunity/main.py:107-144 | when no metric missing from the known map appears twice, the plugin's loop and the refreshed loop make the same calls and report the same errors |
| SensorDotCommunityResubmit.ReportAgreesWithoutRepeats | sensordotcommunity/main.py:106-148 | under the same condition, the plugin's handler and the refreshed handler give the same state and the same response |
| SensorDotCommunityResubmit.ResubmitSameIds | sensordotcommunity/main.py:106-148 | for a report answered 200 in which no metric missing from the known map appears twice, the resubmission issues exactly the updates the first request issued: same sensors, same values, same order |
| PushsaferPlugin.MappingOf | pushsafer/main.py:79 | a configuration without `input_mapping` has no mappings |
| PushsaferPlugin.MessageFor | pushsafer/main.py:109-118 | the message's form fields are the private key (`k`) and the mapping's message, title, device, icon, sound, vibration, url, urltitle and time2live (`m t d i s v u ut l`) |
| PushsaferPlugin.Messages | pushsafer/main.py:107-121 | at most one message per mapping; `MessagesShape` and `MessagesOfMatching` establish which messages, in which order |
| PushsaferPlugin.MessagesShape | pushsafer/main.py:106-121 | every message carries the private key; some message iff some mapping has the input's id |
| PushsaferPlugin.CooldownWindow | pushsafer/main.py:103 | an input that sent is ignored until ten seconds after its last send; one that never sent is ignored while the clock reads less than ten seconds |
| PushsaferPlugin.InputStep | pushsafer/main.py:98-123 | something is sent iff the plugin is enabled, the input is outside its cooldown and some mapping matches; the input's cooldown is stamped with `now` iff something was sent, and otherwise the cooldown map is unchanged; every message carries the key |
| PushsaferPlugin.MatchingSpec | pushsafer/main.py:107-108 | the matching mappings are exactly the mappings with the input's id |
| PushsaferPlugin.MatchingAppend | pushsafer/main.py:107-108 | matching keeps the mapping order |
| PushsaferPlugin.MessagesOfMatching | pushsafer/main.py:107-118 | the n-th message is built from the n-th matching mapping: `k` is the key, and `m t d i s v u ut l` are its message, title, device, icon, sound, vibration, url, urltitle and time2live |
| PushsaferPlugin.RepeatWithinCooldownIgnored | pushsafer/main.py:103-105 | an event of an input less than ten seconds after it sent is ignored and leaves the cooldown unchanged |
| PushsaferPlugin.RepeatAfterCooldownSendsAgain | pushsafer/main.py:103-123 | ten seconds or more after a send, the same event sends the same messages and stamps the new time |
| PushsaferPlugin.OtherInputsUntouched | pushsafer/main.py:122-123 | an event leaves the cooldown of every other input unchanged |
| PushsaferPlugin.DefaultStartsDisabled | pushsafer/main.py:62-85 | a plugin constructed from the default configuration is disabled |
| PushsaferPlugin.Pushsafer.constructor | pushsafer/main.py:65-75 | starts from the stored configuration, with an empty cooldown map, nothing sent, and the enabled flag read from it |
| PushsaferPlugin.Pushsafer.ReadConfig | pushsafer/main.py:77-86 | key and mappings come from the configuration; enabled iff the key is non-empty and there is at least one mapping |
| PushsaferPlugin.Pushsafer.InputStatus | pushsafer/main.py:98-123 | the loop over the mappings leaves the cooldown and the sent messages as `InputStep` says |
| PushsaferPlugin.Pushsafer.SetConfig | pushsafer/main.py:156-164 | stores the new configuration and recomputes key, mappings and enabled flag from it; the cooldown is kept |


## Findings

| source | as written | input that shows it | evidently intended | confidence | as-written member | corrected member |
|---|---|---|---|---|---|---|
| sensordotcommunity/main.py:107, 133-135, 153, 191 | the known map is built once per request and never updated. A metric repeated in one report while unknown is registered twice. The search after each registration takes the first matching record, so both updates of that request go to the first record. The map built for a later request takes the last matching record, so the resubmission updates the second record | an empty sensor list, next id 7, a gateway accepting two registrations, and a report with `temperature` twice: the first request updates sensor 7 twice, the same report sent again updates sensor 8 twice | a resubmitted report updates the same sensors as the first request, and one metric is registered once | medium; not executed | `SensorDotCommunityResubmit.ResubmitMovesRepeatedMetric` | `SensorDotCommunityResubmit.RefreshedResubmitSameIds` |

The corrected handler is `RefreshedReport`: it adds each sensor it registers to the known map.
`ReportAgreesWithoutRepeats` proves that it equals the plugin's handler on every report in
which no unknown metric appears twice. `ResubmitSameIds` is the same-sensors promise for the
plugin's handler on those reports. The `SensorDotCommunity` class follows the code as written.

## Left out

- JSON decoding and encoding: reports and gateway answers are typed records. A malformed body raises in the plugin; the model has no such input.
- A missing `esp8266id` raises in the plugin. A `Report` always has a device id.
- `float(entry["value"])`: the value is already a number. The plugin raises on a non-numeric value even for an unsupported metric type; the model cannot express that.
- A sensor record that has the plugin's source but no `external_id` key raises in the known-sensor comprehension. The model treats an absent external id like a null one.
- A record whose `source` has no `name` is modelled as a record without a source. Both fail the source-name test.
- KnownSensors, FindRegistered: a record whose `source` is present but null raises `AttributeError` in the plugin. In the known-sensor comprehension (sensordotcommunity/main.py:153) this happens for every such record, so the whole request fails before the loop. In the search after a registration (sensordotcommunity/main.py:191) the source is read only after the external id matched, so it happens when the search reaches such a record with the external id. The model treats such a record as one without a source.
- The gateway never hides a just-registered sensor from the list that follows. The plugin's "registered but not found" path is in `RegisterSensorSpec`, but the modelled gateway never takes it (`AcceptedRegistrationIsFound`).
- Logging, plugin start-up, `setup_logging`, and SensorDotCommunity's `get_config`, `get_config_description` and `set_config`: these are host persistence and logging with no decision logic. The string coercion in `set_config` is Python 2/3 type normalisation.
- Pushsafer's `_send_data`: the HTTP POST, reply and quota parsing, and exception logging are network I/O. A send is an append to the ghost list `sent`.
- Pushsafer's `Thread` per message: `sent` keeps the order in which the threads are started, not the order in which the posts reach the service.
- Pushsafer's `convert`, `PluginConfigChecker.check_config`, `read_config` and `write_config`: these are type normalisation and host persistence. `SetConfig` always reports success, as the plugin does when the checker accepts.
- `time.time()`: the time is an exact `real` number of seconds passed in by the caller.
- The `status` tuple of `input_status`: only its first element, the input id, is used, so that is the parameter.
- Mapping fields are strings. `sound` is declared `int` in the configuration description, but it is copied into the message unchanged.
