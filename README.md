# SAJ portal scraper: readings, peak, inactivity gate and MQTT publication

The add-on scrapes a solar-inverter portal and republishes what it reads as Home Assistant
MQTT sensors. This project models its logic in Dafny and proves properties of that model:

- `numbers.dfy` (module `Numbers`) models `sum_numbers_from_string`. It normalises a loosely formatted
  string, splits it into non-empty lines, and sums every match of `[-+]?\d+(?:\.\d+)?`, read as an
  exact decimal. The method `SumNumbersFromString` keeps the two loops of the source.
  `numbers_examples.dfy` (module `NumberExamples`) proves the docstring examples.
- `timestamps.dfy` (module `Timestamps`) models the fixed-width text forms that are read and written:
  `YYYY-MM-DDTHH:MM:SSZ` timestamps, `YYYY-MM-DD` dates and `HH:MM` clock times. Each comes with
  round-trip lemmas and the order `datetime` comparison uses.
- `aggregation.dfy` (module `Aggregation`) models `aggregate_plant_data`. The method
  `AggregatePlantData` keeps the nested device and attribute loops. It is proved equal to a fold,
  and the fold is proved equal to per-field totals and to a "latest wins" timestamp rule.
- `peak.dfy` (module `Peak`) models `calculate_peak_power`, with today's date passed in.
- `inactivity.dfy` (module `Inactivity`) models `is_inactive`, with the current time of day passed in.
- `mqtt_rules.dfy` (module `MqttRules`) states, as values, what the publisher sends:
  - slugs, unique ids and topics;
  - the discovery announcement each attribute gets, or the rule that skips it;
  - the state messages of one round.
- `mqtt_offer.dfy` (module `Discovery`) models the rule for the discovered-id set as a fold `Offer`.
  An announcement whose id is known is skipped. Otherwise it is published, retained, and its id
  is recorded only if the publish succeeded.
- `mqtt_publisher.dfy` (module `Mqtt`) holds the imperative publisher:
  - a `Client` class with a `connected` flag, the topics whose publish raises, and a log of sent
    messages;
  - a `Publisher` class whose `discovered` field is the module-level `_DISCOVERED_ENTITIES`.

  `PublishDiscovery` and `PublishState` loop as the source does. Each is proved equal to the
  functions in `MqttRules` and `Discovery`.

Numbers are exact `real`s. `round(x, n)` is an abstract parameter `rnd`. `json.dumps` is an abstract
predicate `encodable` over structured payloads. The `const` module's topics, names and mapping
tables are an `Env` record.

## Model

| member | source | states |
|---|---|---|
| Numbers.SumNumbersFromString | saj_portal_scraper/utils.py:18-50 | The two loops return `SumNumbers(s)`. For a present string this is the sum of every match found left to right in the whole normalised string; lines and stripping do not matter. |
| Numbers.SumOfNothing | saj_portal_scraper/utils.py:27-31 | Absent input, and input that is empty after stripping, give 0.0. |
| Numbers.SumNumbers | saj_portal_scraper/utils.py:18-50 | Absent input gives 0.0. For a present string the line-by-line sum equals the total over every match in the whole normalised string: stripping, splitting at line-break runs and dropping blank lines change no match. |
| Numbers.Strip | saj_portal_scraper/utils.py:29 | `str.strip()` leaves no whitespace at either end, gives the empty string exactly for an all-whitespace text, and keeps a text with no whitespace at its ends whole. |
| Numbers.Normalize | saj_portal_scraper/utils.py:34 | Each character is rewritten on its own, NBSP to space and comma to period, and the length is kept. |
| Numbers.SplitBreaks | saj_portal_scraper/utils.py:37 | `re.split(r"[\r\n]+")` gives at least one piece and no piece holds a line break. A text without breaks is its own single piece. |
| Numbers.MatchShape | saj_portal_scraper/utils.py:42 | The match of `[-+]?\d+(?:\.\d+)?` anchored at the start (`MatchLength`) exists exactly when the text starts with a digit, or with a sign and a digit. It ends with a digit, and the character after it is not a digit. |
| Numbers.Tokens | saj_portal_scraper/utils.py:42 | Every item `re.findall` returns is non-empty, starts with a digit or a sign and ends with a digit. |
| Numbers.ParseDecimal | saj_portal_scraper/utils.py:45 | `float(p)` is negative only after a leading minus. A run of digits, with or without a sign, reads as its integer value with that sign. |
| Numbers.PiecesOfSplit | saj_portal_scraper/utils.py:37 | Splitting at runs of `\r`/`\n` keeps every match. The total over the pieces equals the total over the whole string. |
| Numbers.LinesOfPieces | saj_portal_scraper/utils.py:37 | Stripping each piece and dropping the empty ones keeps the total. |
| Numbers.NonEmptyStripped | saj_portal_scraper/utils.py:37 | No kept line is empty. |
| Numbers.NormalizeStrip | saj_portal_scraper/utils.py:29-34 | Stripping before NBSP→space and comma→period changes no match. |
| Numbers.TokensStrip | saj_portal_scraper/utils.py:37 | Stripping a line changes none of its matches. |
| Numbers.TokensConcat | saj_portal_scraper/utils.py:42 | A match never straddles a separator: the matches of `x + t` are those of `x` and then those of `t`. |
| Numbers.TokensSkipBreaks | saj_portal_scraper/utils.py:37-42 | A run of line breaks contributes no match. |
| Numbers.MatchConverts | saj_portal_scraper/utils.py:42-45 | Every string the pattern matches converts under `float`. |
| Numbers.TokensConvert | saj_portal_scraper/utils.py:42-48 | Every match of a line converts, so the `except` around `float` never fires. |
| NumberExamples.SumExampleLines | saj_portal_scraper/utils.py:21 | `"22865\n22603\n22200"` sums to 67668. |
| NumberExamples.SumExampleDashes | saj_portal_scraper/utils.py:22 | `"3.86-0.20-0.00-0.00"` sums to 3.66: the dashes are read as signs. |
| NumberExamples.SumExampleSpaces | saj_portal_scraper/utils.py:23 | `"9173 9064 8939"` sums to 27176. |
| NumberExamples.SumExampleComma | saj_portal_scraper/utils.py:24 | `"3.563,06"` sums to 9.563, not to the documented 3563.06. |
| NumberExamples.SumOfThree | saj_portal_scraper/utils.py:34-50 | Three runs of digits with one separator between each sum to the sum of their values. |
| NumberExamples.SumOfFour | saj_portal_scraper/utils.py:34-50 | Four whole matches, each starting with a character that ends the one before, sum to the total of their values. |
| NumberExamples.SumAfterComma | saj_portal_scraper/utils.py:34-50 | `ip.fp,u` reads as the decimal `ip.fp` plus the integer `u`. |
| Timestamps.DaysInMonth | saj_portal_scraper/utils.py:165-166 | A month has 28 to 31 days, and 29 exactly for February of a leap year. |
| Timestamps.ParseTimestamp | saj_portal_scraper/utils.py:165-166 | Whatever `strptime` accepts with `%Y-%m-%dT%H:%M:%SZ` is a valid date and time. The round trips below tie it to the written form. |
| Timestamps.ParseFormatted | saj_portal_scraper/utils.py:165-166 | A valid timestamp written as `%Y-%m-%dT%H:%M:%SZ` reads back as itself. |
| Timestamps.FormatOfParsed | saj_portal_scraper/utils.py:165-166 | A string that parses is the written form of what it parses to. |
| Timestamps.LaterIsStrictTotal | saj_portal_scraper/utils.py:171 | `Later`, the `>` of `datetime` objects, is irreflexive, transitive, total and asymmetric. |
| Timestamps.ParseIsoDate | saj_portal_scraper/mqtt_utils.py:347 | A valid date written by `isoformat` reads back as itself. |
| Timestamps.IsoOfParsedDate | saj_portal_scraper/mqtt_utils.py:347 | A `YYYY-MM-DD` string that parses is the isoformat of its date. |
| Timestamps.ParseFormattedClock | saj_portal_scraper/utils.py:65-66 | A valid clock time written as `%H:%M` reads back as itself. |
| Timestamps.FormatOfParsedClock | saj_portal_scraper/utils.py:65-66 | An `HH:MM` string that parses is the written form of its time. |
| Timestamps.ParseClock | saj_portal_scraper/utils.py:65-66 | Whatever `strptime` accepts with `%H:%M` is a valid clock time. |
| Aggregation.AggregatePlantData | saj_portal_scraper/utils.py:98-216 | The loops return `Aggregate(fetched, rnd)`. `Aggregate` is the fold whose meaning the lemmas below state. |
| Aggregation.AddSummable | saj_portal_scraper/utils.py:124-149 | The summing branch chain adds the converted value to the field the attribute feeds. |
| Aggregation.TrackTimestamp | saj_portal_scraper/utils.py:161-193 | The timestamp branch updates only the held value of its own attribute, by the latest-wins rule. |
| Aggregation.Track | saj_portal_scraper/utils.py:161-193 | An empty or null value changes nothing. A value that changes the state is held with its own text. The held time is kept, or replaced only by a strictly later one. |
| Aggregation.Aggregate | saj_portal_scraper/utils.py:98-216 | The result is empty exactly when there are no devices. Otherwise it has the eight keys in order: six amounts, then the two timestamps. |
| Aggregation.AggregateOfNothing | saj_portal_scraper/utils.py:100-102 | Absent input and an empty map give an empty result. |
| Aggregation.AggregateSummary | saj_portal_scraper/utils.py:104-214 | A non-empty map gives exactly the eight keys in order. Power and Panel_Power are the rounded (÷1000, 3 places) totals; the energy fields are the 2-place totals. Each total is taken over every attribute of every mapping reading. |
| Aggregation.AggregateStamps | saj_portal_scraper/utils.py:161-193 | `Update_time` and `Server_Time` of the result obey the latest-wins rule `IsLatest` over all devices' values. |
| Aggregation.FoldDevicesMeaning | saj_portal_scraper/utils.py:115-193 | After all devices, each numeric accumulator is the total of its contributions. Each timestamp is the track over that attribute's values. |
| Aggregation.FoldDevicesPairs | saj_portal_scraper/utils.py:115-118 | Folding device by device equals folding over all their attributes. A reading that is not a mapping adds nothing. |
| Aggregation.FoldAttrsTotal | saj_portal_scraper/utils.py:123-149 | Each numeric field after a device's attributes is its start value plus those attributes' contributions. |
| Aggregation.FoldAttrsStamps | saj_portal_scraper/utils.py:161-193 | The held timestamps after a run of attributes are the track over the values of that name. |
| Aggregation.StepAdds | saj_portal_scraper/utils.py:134-149 | One attribute adds its converted value to the field it feeds, and nothing to any other. A null value adds nothing. |
| Aggregation.StepStamps | saj_portal_scraper/utils.py:161-193 | One attribute moves only the timestamp of its own name. |
| Aggregation.SummableFeedsOne | saj_portal_scraper/utils.py:126-149 | An attribute is summable exactly when it feeds some output, and it feeds at most one. |
| Aggregation.SummedFieldsListed | saj_portal_scraper/utils.py:126-131 | Membership in the five-name list is the named-field predicate. |
| Aggregation.FieldNamesArePlain | saj_portal_scraper/utils.py:126-132 | No summed field name, and not `Panel_Power` itself, ends in `_Panel_Power`, so an attribute named `Panel_Power` is not summed. |
| Aggregation.TrackEmpty | saj_portal_scraper/utils.py:162 | An empty or null value changes nothing and keeps the latest-wins rule. |
| Aggregation.TrackParsed | saj_portal_scraper/utils.py:166-181 | A parseable value replaces the held one exactly when nothing is parsed yet or it is strictly later, and the rule is kept. |
| Aggregation.TrackRaw | saj_portal_scraper/utils.py:182-193 | A non-empty unparseable value is kept only when no text is held yet, and the rule is kept. |
| Aggregation.TrackAllLatest | saj_portal_scraper/utils.py:161-193 | After any run of values, the held text belongs to the first value carrying the strictly latest time. With no parseable value it is the first non-empty value, and None when there is none. |
| Peak.CalculatePeakPower | saj_portal_scraper/utils.py:219-253 | The reset date is always today. An unchanged result keeps the previous peak on the same day. |
| Peak.NewDayResets | saj_portal_scraper/utils.py:236-251 | With no date or another date stored, the peak restarts from 0.0 and is then raised to `round(current, 3)` by a positive reading. The state is marked changed. |
| Peak.SameDayHigherRaises | saj_portal_scraper/utils.py:245-251 | On the same day, a reading strictly above the peak replaces it, rounded to 3 places, and marks a change. |
| Peak.SameDayOtherwiseKeeps | saj_portal_scraper/utils.py:231-253 | On the same day, a missing reading or one not above the peak gives `(previous, today, false)`. |
| Peak.RepeatKeepsPeak | saj_portal_scraper/utils.py:219-253 | Feeding the result back with the same reading keeps the peak. It reports a change again exactly when rounding left the peak below the reading. |
| Peak.Replay | saj_portal_scraper/utils.py:219-253 | After at least one call, the reset date is today. |
| Peak.ReplayIsDailyMaximum | saj_portal_scraper/utils.py:236-253 | Over one day of calls, the peak is the maximum of the starting peak and every reading, when rounding leaves the readings unchanged. |
| Peak.PeakNonNegative | saj_portal_scraper/utils.py:236-251 | When rounding keeps positive values non-negative, the peak stays non-negative: a new day restarts it from 0.0, and a same-day non-negative peak is only raised. |
| Peak.ReplayNonNegative | saj_portal_scraper/utils.py:219-253 | A peak that starts non-negative stays non-negative over any sequence of calls. |
| Inactivity.IsInactive | saj_portal_scraper/utils.py:53-95 | Inactive implies enabled, with both window ends parsed. |
| Inactivity.InactiveIsInArc | saj_portal_scraper/utils.py:55-95 | On a valid time: inactive if and only if enabled, both ends parse, and now lies on the arc of the 24-hour circle from start to end. |
| Inactivity.ArcsSplitTheDay | saj_portal_scraper/utils.py:76-84 | For distinct ends, the window and its reverse split the day between them. |
| Inactivity.DisabledIsActive | saj_portal_scraper/utils.py:55-57 | A disabled gate is never inactive. |
| Inactivity.UnparseableIsActive | saj_portal_scraper/utils.py:65-66 | A window end that does not parse as `HH:MM` (the `ValueError` path at lines 86-92) gives false. |
| Inactivity.EqualEndsNeverInactive | saj_portal_scraper/utils.py:81-84 | Equal start and end never give inactive. |
| Inactivity.OvernightWindow | saj_portal_scraper/utils.py:76-79 | When start is after end: inactive if and only if `now >= start` or `now < end`. |
| Inactivity.DaytimeWindow | saj_portal_scraper/utils.py:81-84 | Otherwise: inactive if and only if `start <= now < end`. |
| Inactivity.Window | saj_portal_scraper/utils.py:59-66 | Ends that parse are valid clock times. |
| Inactivity.Elapsed | saj_portal_scraper/utils.py:76-84 | The forward distance on the 24-hour circle lies in `[0, day)`. |
| MqttRules.Lower | saj_portal_scraper/mqtt_utils.py:140 | Lower-casing maps each character on its own and keeps the length. |
| MqttRules.Slug | saj_portal_scraper/mqtt_utils.py:140 | The slug has the attribute's length. Space, `-` and `.` become `_`; every other character is lower-cased. |
| MqttRules.SlugIsStable | saj_portal_scraper/mqtt_utils.py:140 | A slug holds no capital and no separator, and slugging it again changes nothing. |
| MqttRules.TableGet | saj_portal_scraper/mqtt_utils.py:165-167 | The lookup finds a value exactly when the key is in the table. |
| MqttRules.Present | saj_portal_scraper/mqtt_utils.py:199-202 | An optional key is written exactly for a non-empty value, and then with that value. |
| MqttRules.FirstSuffix | saj_portal_scraper/mqtt_utils.py:158-162 | No generic name exactly when the attribute ends with none of the suffixes; otherwise it ends with one of them. |
| MqttRules.BaseName | saj_portal_scraper/mqtt_utils.py:149-162 | The lookup name is the attribute itself, or one of the three generic panel names that the attribute ends with after an underscore. |
| MqttRules.BaseNameCases | saj_portal_scraper/mqtt_utils.py:149-162 | `*_Panel_Voltage`, `*_Panel_Current` and `*_Panel_Power` are looked up under their generic names, and any other attribute under itself. |
| MqttRules.InverterDevice | saj_portal_scraper/mqtt_utils.py:124-136 | The device block has identifier `<domain>_<sn>`, serial `sn`, the add-on version, and hangs off the plant device. Its name is the `Alias` value, or the serial when there is no `Alias`. |
| MqttRules.DeviceCandidate | saj_portal_scraper/mqtt_utils.py:137-202 | `Alias` is never announced. An announcement carries id `DeviceUid(sn, attribute)`, its config topic, a sensor payload with that id, the device block and the availability settings. |
| MqttRules.PlantCandidate | saj_portal_scraper/mqtt_utils.py:217-253 | A plant attribute is announced exactly when it is `Power` or `Panel_Power`, a table knows it, or it is a timestamp. The announcement has id `saj_plant_<slug>`, its config topic, state topic `<base>/plant/state` and the plant device block. |
| MqttRules.DeviceCandidateRule | saj_portal_scraper/mqtt_utils.py:138-176 | A device attribute is announced exactly when it is not `Alias` and either a table knows its base name or it is a timestamp. |
| MqttRules.DeviceCandidateShape | saj_portal_scraper/mqtt_utils.py:140-202 | An announced attribute has id `saj_<sn>_<slug>`, config topic `<prefix>/sensor/<id>/config` and state topic `<base>/<sn>/state`. Its unit and classes come from the base name's table entries. |
| MqttRules.TimestampsAnnounced | saj_portal_scraper/mqtt_utils.py:172-180 | `Update_time` and `Server_Time` are always announced with device class `timestamp`, for devices and for the plant (lines 233-234). |
| MqttRules.PlantPowerInKilowatts | saj_portal_scraper/mqtt_utils.py:218-230 | Plant `Power` and `Panel_Power` are always announced, in kW, under id `saj_plant_<slug>`. |
| MqttRules.PlantCandidateShape | saj_portal_scraper/mqtt_utils.py:223-240 | An announced plant attribute reads unit, device class and state class under its own name, not its base name, and writes each only when non-empty. `Power` and `Panel_Power` are in kW, and timestamps carry class `timestamp`. |
| MqttRules.PeakAnnouncement | saj_portal_scraper/mqtt_utils.py:264-284 | The peak sensor has id `saj_plant_peak_power_today`, its own config topic, and the plant device block. Its unit is always `kW` and its device and state classes are those of `Power`. It reads its value and its attributes from `<base>/plant/peak_power_today`. |
| MqttRules.FirstUnreadable | saj_portal_scraper/mqtt_utils.py:123-124 | The index of the first device whose reading is not a mapping, where `data.get` raises. Every earlier reading is a mapping. |
| MqttRules.CollectMembers | saj_portal_scraper/mqtt_utils.py:217-259 | An announcement is collected exactly when it is what some entry's name yields. |
| MqttRules.AttributeCandidatesMembers | saj_portal_scraper/mqtt_utils.py:137-212 | A device's announcements are exactly the candidates of its attributes. |
| MqttRules.NoAliasSensor | saj_portal_scraper/mqtt_utils.py:138 | No announcement of any device is for `Alias`. |
| MqttRules.DiscoveryPlan | saj_portal_scraper/mqtt_utils.py:104-290 | A call raises exactly when some device reading is not a mapping. A call that does not raise offers the peak sensor last. |
| MqttRules.DeviceStateMessage | saj_portal_scraper/mqtt_utils.py:299-320 | A device gets a message exactly when its reading is a mapping that serialises and its topic publishes. That message is the unretained reading on `<base>/<sn>/state`. |
| MqttRules.PlantStateMessage | saj_portal_scraper/mqtt_utils.py:322-341 | The plant gets a message exactly when its data serialises and its topic publishes. That message is the unretained plant data on `<base>/plant/state`. |
| MqttRules.PeakStateMessage | saj_portal_scraper/mqtt_utils.py:343-365 | The peak gets a message exactly when `{value, last_reset_date}` serialises and its topic publishes. That message is the retained payload on `<base>/plant/peak_power_today`, with the date in isoformat or null. |
| MqttRules.DeviceStateMembers | saj_portal_scraper/mqtt_utils.py:299-320 | A device message is sent exactly for a mapping reading whose JSON serialises and whose topic publishes. It goes unretained to `<base>/<sn>/state`. |
| MqttRules.DeviceStateMessagesConcat | saj_portal_scraper/mqtt_utils.py:299-320 | The device messages of two runs of devices are those of the first, then those of the second. |
| MqttRules.UnencodableDeviceDropped | saj_portal_scraper/mqtt_utils.py:307-312 | A device that does not serialise is dropped, and every other device's message is unchanged. |
| MqttRules.StateRetainFlags | saj_portal_scraper/mqtt_utils.py:299-361 | Only the peak message is retained. The peak message goes to `plant/peak_power_today` and the plant message to `plant/state`. |
| Discovery.OfferSet | saj_portal_scraper/mqtt_utils.py:144-212 | The discovered set afterwards is the set before plus exactly the ids whose publish succeeds. It only grows, and a failed id stays out. |
| Discovery.Attempt | saj_portal_scraper/mqtt_utils.py:144-212 | One announcement changes nothing exactly when its id is known or its publish fails. Otherwise the id is added to the set and the retained config to the log. |
| Discovery.Offer | saj_portal_scraper/mqtt_utils.py:123-290 | Offering announcements in order only appends to the log and only adds to the set. |
| Discovery.OfferCount | saj_portal_scraper/mqtt_utils.py:206-212 | Exactly one message is logged per newly discovered id. |
| Discovery.OfferOrigin | saj_portal_scraper/mqtt_utils.py:144-212 | Every logged message is the retained config of a succeeding announcement whose id was not yet discovered, so a known id is never published again. |
| Discovery.OfferStable | saj_portal_scraper/mqtt_utils.py:144 | Announcements that are all known, or that all fail, change nothing. |
| Discovery.OfferIdempotent | saj_portal_scraper/mqtt_utils.py:25-290 | A second offer of the same announcements, to a client that accepts the same topics, publishes nothing. |
| Discovery.RepeatAfterSuccess | saj_portal_scraper/mqtt_utils.py:143-144 | After a call in which every publish succeeded, a second call publishes nothing, whatever topics the client accepts by then. |
| Discovery.RetryAfterFailure | saj_portal_scraper/mqtt_utils.py:206-212 | A failed announcement stays undiscovered. Once its topic is accepted, the next offer discovers it. |
| Discovery.OfferConcat | saj_portal_scraper/mqtt_utils.py:123-290 | Offering two runs of announcements equals offering the first, then the second. |
| Mqtt.Client.Publish | saj_portal_scraper/mqtt_utils.py:208 | The publish succeeds exactly when the topic is not refused. The log grows by that message only on success. |
| Mqtt.PanelBaseName | saj_portal_scraper/mqtt_utils.py:149-162 | The loop over the suffix table with `break` returns `BaseName`. |
| Mqtt.Publisher.constructor | saj_portal_scraper/mqtt_utils.py:25 | A new publisher has discovered nothing. |
| Mqtt.Publisher.Deliver | saj_portal_scraper/mqtt_utils.py:206-212 | Publish retained. Add the id only when the payload serialises and the publish succeeds. |
| Mqtt.Publisher.DiscoverDeviceAttribute | saj_portal_scraper/mqtt_utils.py:138-212 | One pass of the attribute loop is the offer of that attribute's candidate. |
| Mqtt.Publisher.DiscoverDeviceAttributes | saj_portal_scraper/mqtt_utils.py:137-212 | The attribute loop is the offer of the device's candidates. |
| Mqtt.Publisher.DiscoverDevices | saj_portal_scraper/mqtt_utils.py:123-212 | The device loop raises exactly at the first unreadable device, and offers the candidates of the devices before it. |
| Mqtt.Publisher.DiscoverPlantAttribute | saj_portal_scraper/mqtt_utils.py:218-259 | One pass of the plant loop is the offer of that attribute's candidate. |
| Mqtt.Publisher.DiscoverPlant | saj_portal_scraper/mqtt_utils.py:216-259 | The plant loop is the offer of the plant candidates. |
| Mqtt.Publisher.DiscoverPeak | saj_portal_scraper/mqtt_utils.py:264-290 | The peak sensor is offered under the discovered-id rule. |
| Mqtt.Publisher.PublishDiscovery | saj_portal_scraper/mqtt_utils.py:104-290 | With the client absent or disconnected, nothing is sent and nothing is discovered. Otherwise the new set and log are the offer of `DiscoveryPlan`, and the call raises exactly when the plan does. |
| Mqtt.Publisher.PublishDeviceState | saj_portal_scraper/mqtt_utils.py:300-320 | One pass of the device loop sends that device's state message, if any. |
| Mqtt.Publisher.PublishDeviceStates | saj_portal_scraper/mqtt_utils.py:299-320 | The device loop sends the device messages in order. |
| Mqtt.Publisher.PublishPlantState | saj_portal_scraper/mqtt_utils.py:323-341 | The plant state is sent unretained when it serialises and publishes. |
| Mqtt.Publisher.PublishPeakState | saj_portal_scraper/mqtt_utils.py:344-365 | The log grows by exactly `PeakStateMessage`: the retained `{value, last_reset_date}`, the date as isoformat or null, when it serialises and the topic publishes, and nothing otherwise. |
| Mqtt.Publisher.PublishState | saj_portal_scraper/mqtt_utils.py:292-365 | With the client absent or disconnected, nothing is sent. Otherwise the log grows by exactly `StateMessages`. |

## Left out

- `get_mqtt_config` and `connect_mqtt` (mqtt_utils.py:27-102): environment reads, the network connection, the client loop and `time.sleep`.
- IEEE floating point: values are exact reals, and `round` is an abstract parameter.
- `json.dumps`: an abstract predicate `encodable` on structured payloads. Jinja value templates and `str.title()` display names are not modelled; a payload carries the attribute they are derived from.
- Logging.
- QoS: every publish is at QoS 1, and the log does not record it.
- The wall clock: `datetime.now()` becomes the `today` and `now` parameters.
- `strptime` leniency: only fixed-width fields parse, with range checks. Python compiles the pattern case-insensitively, so the source also accepts a lower-case `t` and `z` (`2024-05-01t10:00:00z`). `Timestamps.ParseTimestamp` rejects them, and such a value is then kept as raw text.
- Regex `\d` on non-ASCII digits, and `str.lower()` beyond ASCII letters.
- The per-device `except Exception` of `aggregate_plant_data` (utils.py:195-202). With string attribute names nothing in its body can raise.
- The contents of `const`: topic prefixes, names and the three mapping tables are the fields of `Env`.
- Configuration values that are not strings (a `TypeError` in `strptime`). A setting is an optional string, or an optional bool for `enabled`.
- The `peak_power_state` parameter of `publish_discovery`, which its body never reads.
- Aggregation.Step, Aggregation.FoldAttrs, Aggregation.FoldDevices and MqttRules.StateMessages: these compose the steps above and carry no contract of their own. StepAdds, StepStamps, FoldAttrsTotal, FoldAttrsStamps, FoldDevicesPairs, FoldDevicesMeaning, StateRetainFlags and DeviceStateMessagesConcat state what they compute.
- Mqtt.Client.Publish: whether a publish raises depends only on its topic. It does not change during a call.
- Aggregation.AggregatePlantData: the ten running variables are one record, and the loop body calls two helper methods.
- Inactivity.IsInactive: times are compared as microseconds since midnight. This matches `time` comparison on valid times of day.
- Peak.PeakNonNegative: requires that `rnd` keeps positive values non-negative (`RoundsNonNegative`), which Python's `round` does. The abstract parameter does not give this on its own.
- Peak.ReplayIsDailyMaximum: assumes rounding leaves every reading unchanged. With arbitrary rounding, the peak is only the maximum of the rounded raises.

The docstring of `sum_numbers_from_string` promises `"3.563,06" -> 3563.06` (utils.py:24). The code
rewrites the comma to a period and reads `3.563` and `06`, so it returns 9.563. The model follows the
code, and `NumberExamples.SumExampleComma` proves both the value and the difference.
