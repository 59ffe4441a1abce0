/**
 * What the MQTT publisher says, as values: the Home Assistant discovery announcement each
 * attribute would get (unique id, config topic, payload), and the state messages of one round.
 * The topic prefixes, names and the unit / device-class / state-class tables are an `Env`.
 */
module MqttRules {
  import opened Common
  import opened Timestamps
  import opened Aggregation

  /** The availability topic and its two payloads, shared by every sensor. */
  datatype Availability = Availability(topic: string, online: string, offline: string)

  /** The configuration constants the publisher reads. */
  datatype Env = Env(domain: string, baseTopic: string, discoveryPrefix: string,
                     availability: Availability, plantName: string, peakName: string,
                     units: map<string, string>, deviceClasses: map<string, string>,
                     stateClasses: map<string, string>)

  /** The `device` block of a discovery payload (manufacturer is always "SAJ"). */
  datatype DeviceInfo = DeviceInfo(identifier: string, name: Option<string>, model: string,
                                   swVersion: string, via: Option<string>, serial: Option<string>)

  /** A payload before `json.dumps`; display names and value templates are derived from
      `attribute` and not modelled further. Optional fields are None when the key is omitted. */
  datatype Payload =
    | SensorConfig(attribute: string, uniqueId: string, stateTopic: string, device: DeviceInfo,
                   availability: Availability, unit: Option<string>, deviceClass: Option<string>,
                   stateClass: Option<string>)
    | PeakConfig(name: string, uniqueId: string, stateTopic: string, device: DeviceInfo,
                 availability: Availability, peakUnit: string, deviceClass: Option<string>,
                 stateClass: Option<string>, icon: string, attributesTopic: string)
    | DeviceStateBody(attrs: Attributes)
    | PlantStateBody(plant: PlantData)
    | PeakStateBody(value: real, lastResetDate: Option<string>)

  /** One `client.publish` (always at QoS 1). */
  datatype Message = Message(topic: string, payload: Payload, retain: bool)

  /** A discovery config the publisher may send for a not yet discovered unique id. */
  datatype Announcement = Announcement(uid: string, topic: string, payload: Payload)

  /** `json.dumps` succeeds on this payload. */
  type Encoder = Payload -> bool

  // ---------------------------------------------------------------------------------------
  // Slugs, ids and topics
  // ---------------------------------------------------------------------------------------

  /** `str.lower()` on ASCII letters. */
  function LowerChar(c: char): char
  {
    if 'A' <= c <= 'Z' then (c as int + 32) as char else c
  }

  function Lower(s: string): (r: string)
    ensures |r| == |s| && forall i :: 0 <= i < |s| ==> r[i] == LowerChar(s[i])
  {
    if s == [] then [] else [LowerChar(s[0])] + Lower(s[1..])
  }

  predicate IsSlugSeparator(c: char)
  {
    c == ' ' || c == '-' || c == '.'
  }

  /** `attribute.lower().replace(" ", "_").replace("-", "_").replace(".", "_")`: each character
      on its own, separators to `_` and capitals to lower case. */
  function Slug(attribute: string): (r: string)
    ensures |r| == |attribute|
    ensures forall i :: 0 <= i < |attribute| ==>
      r[i] == if IsSlugSeparator(attribute[i]) then '_' else LowerChar(attribute[i])
  {
    Replace(Replace(Replace(Lower(attribute), ' ', '_'), '-', '_'), '.', '_')
  }

  /** A slug holds no capital and no separator, and slugging it again changes nothing. */
  lemma SlugIsStable(attribute: string)
    ensures forall i :: 0 <= i < |Slug(attribute)| ==>
      !IsSlugSeparator(Slug(attribute)[i]) && !('A' <= Slug(attribute)[i] <= 'Z')
    ensures Slug(Slug(attribute)) == Slug(attribute)
  {
  }

  function DeviceUid(sn: string, attribute: string): string
  {
    "saj_" + sn + "_" + Slug(attribute)
  }

  function PlantUid(attribute: string): string
  {
    "saj_plant_" + Slug(attribute)
  }

  const PeakUid: string := "saj_plant_peak_power_today"

  function DiscoveryTopic(env: Env, uid: string): string
  {
    env.discoveryPrefix + "/sensor/" + uid + "/config"
  }

  function DeviceStateTopic(env: Env, sn: string): string
  {
    env.baseTopic + "/" + sn + "/state"
  }

  function PlantStateTopic(env: Env): string
  {
    env.baseTopic + "/plant/state"
  }

  function PeakStateTopic(env: Env): string
  {
    env.baseTopic + "/plant/peak_power_today"
  }

  // ---------------------------------------------------------------------------------------
  // Table lookups
  // ---------------------------------------------------------------------------------------

  /** `mapping.get(key)`. */
  function TableGet(m: map<string, string>, key: string): (r: Option<string>)
    ensures r.Some? <==> key in m
  {
    if key in m then Some(m[key]) else None
  }

  /** `if value: payload[key] = value`: the key is written only for a non-empty string. */
  function Present(value: Option<string>): (r: Option<string>)
    ensures r.Some? <==> value.Some? && value.value != ""
    ensures r.Some? ==> r == value
  {
    if value.Some? && value.value != "" then value else None
  }

  /** Panel suffixes and the generic name each is looked up under, in dictionary order. */
  const PanelSuffixes: seq<(string, string)> :=
    [("_Panel_Voltage", "Panel_Voltage"), ("_Panel_Current", "Panel_Current"),
     ("_Panel_Power", "Panel_Power")]

  /** The generic name of the first suffix of `table` that `attribute` ends with. */
  function FirstSuffix(attribute: string, table: seq<(string, string)>): (r: Option<string>)
    ensures r.None? <==> forall k :: 0 <= k < |table| ==> !EndsWith(attribute, table[k].0)
    ensures r.Some? ==> exists k :: 0 <= k < |table| && EndsWith(attribute, table[k].0)
                                    && r.value == table[k].1
  {
    if table == [] then None
    else if EndsWith(attribute, table[0].0) then Some(table[0].1)
    else FirstSuffix(attribute, table[1..])
  }

  /** The name the unit and class tables are consulted under: the attribute itself, or the
      generic panel name that it ends with after an underscore. */
  function BaseName(attribute: string): (r: string)
    ensures r == attribute ||
      (r in ["Panel_Voltage", "Panel_Current", "Panel_Power"] && EndsWith(attribute, "_" + r))
  {
    var t := PanelSuffixes;
    assert forall k :: 0 <= k < |t| ==> t[k].0 == "_" + t[k].1 && t[k].1 in ["Panel_Voltage", "Panel_Current", "Panel_Power"];
    FirstSuffix(attribute, t).GetOr(attribute)
  }

  lemma EndsWithLast(s: string, suffix: string)
    requires suffix != [] && EndsWith(s, suffix)
    ensures s[|s| - 1] == suffix[|suffix| - 1]
  {
    assert s[|s| - |suffix|..][|suffix| - 1] == s[|s| - 1];
  }

  /** The suffix table read in order. */
  lemma BaseNameUnfold(attribute: string)
    ensures BaseName(attribute) ==
      if EndsWith(attribute, "_Panel_Voltage") then "Panel_Voltage"
      else if EndsWith(attribute, "_Panel_Current") then "Panel_Current"
      else if EndsWith(attribute, "_Panel_Power") then "Panel_Power"
      else attribute
  {
    var t := PanelSuffixes;
    var u := t[1..];
    var w := u[1..];
    assert u == [("_Panel_Current", "Panel_Current"), ("_Panel_Power", "Panel_Power")];
    assert w == [("_Panel_Power", "Panel_Power")];
    assert FirstSuffix(attribute, w[1..]) == None;
    assert FirstSuffix(attribute, w) ==
      if EndsWith(attribute, "_Panel_Power") then Some("Panel_Power") else None;
    assert FirstSuffix(attribute, u) ==
      if EndsWith(attribute, "_Panel_Current") then Some("Panel_Current") else FirstSuffix(attribute, w);
    assert FirstSuffix(attribute, t) ==
      if EndsWith(attribute, "_Panel_Voltage") then Some("Panel_Voltage") else FirstSuffix(attribute, u);
  }

  /** Each panel kind is looked up under its generic name; any other name under itself. */
  lemma BaseNameCases(attribute: string)
    ensures EndsWith(attribute, "_Panel_Voltage") ==> BaseName(attribute) == "Panel_Voltage"
    ensures EndsWith(attribute, "_Panel_Current") ==> BaseName(attribute) == "Panel_Current"
    ensures EndsWith(attribute, "_Panel_Power") ==> BaseName(attribute) == "Panel_Power"
    ensures (!EndsWith(attribute, "_Panel_Voltage") && !EndsWith(attribute, "_Panel_Current")
             && !EndsWith(attribute, "_Panel_Power")) ==> BaseName(attribute) == attribute
  {
    BaseNameUnfold(attribute);
    if EndsWith(attribute, "_Panel_Voltage") {
      EndsWithLast(attribute, "_Panel_Voltage");
    }
    if EndsWith(attribute, "_Panel_Current") {
      EndsWithLast(attribute, "_Panel_Current");
    }
    if EndsWith(attribute, "_Panel_Power") {
      EndsWithLast(attribute, "_Panel_Power");
    }
  }

  // ---------------------------------------------------------------------------------------
  // Discovery announcements
  // ---------------------------------------------------------------------------------------

  function PlantIdentifier(env: Env): string
  {
    env.domain + "_plant_aggregator"
  }

  /** `plant_device_info`. */
  function PlantDevice(env: Env, version: string): DeviceInfo
  {
    DeviceInfo(PlantIdentifier(env), Some(env.plantName), "Aggregated Plant Data", version, None, None)
  }

  /** `device_info` of one microinverter, named after its `Alias` (its serial when absent). */
  function InverterDevice(env: Env, version: string, sn: string, attrs: Attributes): (r: DeviceInfo)
    ensures r.identifier == env.domain + "_" + sn && r.serial == Some(sn)
    ensures r.via == Some(PlantDevice(env, version).identifier) && r.swVersion == version
    ensures Lookup(attrs, "Alias").None? ==> r.name == Some(sn)
    ensures Lookup(attrs, "Alias").Some? ==> r.name == Lookup(attrs, "Alias").value
  {
    var alias := match Lookup(attrs, "Alias") case Some(v) => v case None => Some(sn);
    DeviceInfo(env.domain + "_" + sn, alias, "Microinverter SAJ M2", version,
               Some(PlantIdentifier(env)), Some(sn))
  }

  /** The discovery config of one device attribute; None when the attribute is not announced. */
  function DeviceCandidate(env: Env, sn: string, device: DeviceInfo, attribute: string)
    : (r: Option<Announcement>)
    ensures attribute == "Alias" ==> r.None?
    ensures r.Some? ==>
      && r.value.uid == DeviceUid(sn, attribute)
      && r.value.topic == DiscoveryTopic(env, r.value.uid)
      && r.value.payload.SensorConfig? && r.value.payload.uniqueId == r.value.uid
      && r.value.payload.device == device && r.value.payload.availability == env.availability
  {
    if attribute == "Alias" then None
    else
      var uid := DeviceUid(sn, attribute);
      var base := BaseName(attribute);
      var unit := TableGet(env.units, base);
      var deviceClass := TableGet(env.deviceClasses, base);
      if unit.None? && deviceClass.None? && !IsTimestampAttr(attribute) then None
      else
        var cls := if IsTimestampAttr(attribute) then Some("timestamp") else deviceClass;
        Some(Announcement(uid, DiscoveryTopic(env, uid),
          SensorConfig(attribute, uid, DeviceStateTopic(env, sn), device, env.availability,
                       Present(unit), Present(cls), Present(TableGet(env.stateClasses, base)))))
  }

  /** The discovery config of one plant attribute; None when the attribute is not announced. */
  function PlantCandidate(env: Env, device: DeviceInfo, attribute: string): (r: Option<Announcement>)
    ensures r.Some? <==>
      attribute == "Power" || attribute == "Panel_Power" || attribute in env.units
      || attribute in env.deviceClasses || IsTimestampAttr(attribute)
    ensures r.Some? ==>
      && r.value.uid == PlantUid(attribute)
      && r.value.topic == DiscoveryTopic(env, r.value.uid)
      && r.value.payload.SensorConfig? && r.value.payload.uniqueId == r.value.uid
      && r.value.payload.stateTopic == PlantStateTopic(env) && r.value.payload.device == device
  {
    var uid := PlantUid(attribute);
    var unit := if attribute == "Power" || attribute == "Panel_Power" then Some("kW")
                else TableGet(env.units, attribute);
    var deviceClass := TableGet(env.deviceClasses, attribute);
    if unit.None? && deviceClass.None? && !IsTimestampAttr(attribute) then None
    else
      var cls := if IsTimestampAttr(attribute) then Some("timestamp") else deviceClass;
      Some(Announcement(uid, DiscoveryTopic(env, uid),
        SensorConfig(attribute, uid, PlantStateTopic(env), device, env.availability,
                     Present(unit), Present(cls), Present(TableGet(env.stateClasses, attribute)))))
  }

  /** The peak-power sensor of the plant device: always in kW, with the classes of `Power`
      (written even when absent), reading its value and its attributes from the peak topic. */
  function PeakAnnouncement(env: Env, device: DeviceInfo): (r: Announcement)
    ensures r.uid == PeakUid && r.topic == DiscoveryTopic(env, PeakUid)
    ensures r.payload.PeakConfig? && r.payload.uniqueId == r.uid && r.payload.device == device
    ensures r.payload.peakUnit == "kW"
    ensures r.payload.deviceClass == TableGet(env.deviceClasses, "Power")
    ensures r.payload.stateClass == TableGet(env.stateClasses, "Power")
    ensures r.payload.stateTopic == PeakStateTopic(env) && r.payload.attributesTopic == PeakStateTopic(env)
  {
    Announcement(PeakUid, DiscoveryTopic(env, PeakUid),
      PeakConfig(env.peakName, PeakUid, PeakStateTopic(env), device, env.availability, "kW",
                 TableGet(env.deviceClasses, "Power"), TableGet(env.stateClasses, "Power"),
                 "mdi:weather-sunny-alert", PeakStateTopic(env)))
  }

  function AsSeq<T>(o: Option<T>): (r: seq<T>)
    ensures o.Some? ==> r == [o.value]
    ensures o.None? ==> r == []
  {
    if o.Some? then [o.value] else []
  }

  /** What `pick` yields for each entry's name, in order. */
  function Collect<V>(pick: string -> Option<Announcement>, items: seq<(string, V)>)
    : seq<Announcement>
    decreases |items|
  {
    if items == [] then []
    else Collect(pick, items[..|items| - 1]) + AsSeq(pick(items[|items| - 1].0))
  }

  /** The announcements of one device's attributes, in order. */
  function AttributeCandidates(env: Env, sn: string, device: DeviceInfo, attrs: Attributes)
    : seq<Announcement>
  {
    Collect(attribute => DeviceCandidate(env, sn, device, attribute), attrs)
  }

  /** The announcements of all devices, in order; a device that is not a mapping adds none. */
  function DeviceCandidates(env: Env, version: string, devices: DeviceData): seq<Announcement>
    decreases |devices|
  {
    if devices == [] then []
    else
      var last := devices[|devices| - 1];
      DeviceCandidates(env, version, devices[..|devices| - 1]) +
      match last.1
      case Mapping(attrs) => AttributeCandidates(env, last.0, InverterDevice(env, version, last.0, attrs), attrs)
      case NotMapping => []
  }

  /** The announcements of the plant's attributes, in order. */
  function PlantCandidates(env: Env, device: DeviceInfo, plant: PlantData): seq<Announcement>
  {
    Collect(attribute => PlantCandidate(env, device, attribute), plant)
  }

  /** Index of the first device whose reading is not a mapping (`data.get` raises there). */
  function FirstUnreadable(devices: DeviceData): (r: nat)
    ensures r <= |devices|
    ensures forall k :: 0 <= k < r ==> devices[k].1.Mapping?
    ensures r < |devices| ==> devices[r].1.NotMapping?
  {
    if devices == [] then 0
    else if devices[0].1.NotMapping? then 0
    else 1 + FirstUnreadable(devices[1..])
  }

  /** Everything one `publish_discovery` call offers, in order, and whether it raised. An
      unreadable device ends the call: later devices, the plant and the peak are not offered. */
  function DiscoveryPlan(env: Env, version: string, devices: DeviceData, plant: PlantData)
    : (r: (seq<Announcement>, bool))
    ensures r.1 <==> exists k :: 0 <= k < |devices| && devices[k].1.NotMapping?
    ensures !r.1 ==> r.0 != [] && r.0[|r.0| - 1] == PeakAnnouncement(env, PlantDevice(env, version))
  {
    var n := FirstUnreadable(devices);
    if n < |devices| then (DeviceCandidates(env, version, devices[..n]), true)
    else
      var device := PlantDevice(env, version);
      (DeviceCandidates(env, version, devices) + PlantCandidates(env, device, plant)
       + [PeakAnnouncement(env, device)], false)
  }

  // ---------------------------------------------------------------------------------------
  // Properties of the announcements
  // ---------------------------------------------------------------------------------------

  /** The skip rule: an attribute is announced unless it is `Alias`, or neither table knows its
      base name and it is not a timestamp. */
  lemma DeviceCandidateRule(env: Env, sn: string, device: DeviceInfo, attribute: string)
    ensures DeviceCandidate(env, sn, device, attribute).Some? <==>
      attribute != "Alias" &&
      (BaseName(attribute) in env.units || BaseName(attribute) in env.deviceClasses ||
       IsTimestampAttr(attribute))
  {
  }

  /** An announced device attribute gets the documented id, config topic and state topic, and
      tables consulted under its base name; timestamps always carry class `timestamp`. */
  lemma DeviceCandidateShape(env: Env, sn: string, device: DeviceInfo, attribute: string)
    requires DeviceCandidate(env, sn, device, attribute).Some?
    ensures var a := DeviceCandidate(env, sn, device, attribute).value;
      && a.uid == "saj_" + sn + "_" + Slug(attribute)
      && a.topic == env.discoveryPrefix + "/sensor/" + a.uid + "/config"
      && a.payload.SensorConfig?
      && a.payload.attribute == attribute && a.payload.uniqueId == a.uid
      && a.payload.stateTopic == env.baseTopic + "/" + sn + "/state"
      && a.payload.unit == Present(TableGet(env.units, BaseName(attribute)))
      && a.payload.deviceClass == (if IsTimestampAttr(attribute) then Some("timestamp")
                                   else Present(TableGet(env.deviceClasses, BaseName(attribute))))
      && a.payload.stateClass == Present(TableGet(env.stateClasses, BaseName(attribute)))
  {
  }

  /** An announced plant attribute consults the tables under its own name, not its base name;
      the two power sums are in kW and timestamps carry class `timestamp`. */
  lemma PlantCandidateShape(env: Env, device: DeviceInfo, attribute: string)
    requires PlantCandidate(env, device, attribute).Some?
    ensures var a := PlantCandidate(env, device, attribute).value;
      && a.payload.SensorConfig?
      && a.payload.attribute == attribute
      && a.payload.availability == env.availability
      && a.payload.unit == Present(if attribute == "Power" || attribute == "Panel_Power" then Some("kW")
                                   else TableGet(env.units, attribute))
      && a.payload.deviceClass == (if IsTimestampAttr(attribute) then Some("timestamp")
                                   else Present(TableGet(env.deviceClasses, attribute)))
      && a.payload.stateClass == Present(TableGet(env.stateClasses, attribute))
  {
  }

  /** Timestamps are announced for every device, whatever the tables say. */
  lemma TimestampsAnnounced(env: Env, sn: string, device: DeviceInfo, attribute: string)
    requires IsTimestampAttr(attribute)
    ensures DeviceCandidate(env, sn, device, attribute).Some?
    ensures DeviceCandidate(env, sn, device, attribute).value.payload.deviceClass == Some("timestamp")
    ensures PlantCandidate(env, device, attribute).Some?
    ensures PlantCandidate(env, device, attribute).value.payload.deviceClass == Some("timestamp")
  {
  }

  /** The plant's two power sums are always announced in kW. */
  lemma PlantPowerInKilowatts(env: Env, device: DeviceInfo, attribute: string)
    requires attribute == "Power" || attribute == "Panel_Power"
    ensures PlantCandidate(env, device, attribute).Some?
    ensures PlantCandidate(env, device, attribute).value.payload.unit == Some("kW")
    ensures PlantCandidate(env, device, attribute).value.uid == "saj_plant_" + Slug(attribute)
  {
  }

  /** Which announcements a collection yields, in both directions. */
  lemma {:induction false} CollectMembers<V>(pick: string -> Option<Announcement>,
                                            items: seq<(string, V)>, a: Announcement)
    ensures a in Collect(pick, items) <==>
      exists j :: 0 <= j < |items| && pick(items[j].0) == Some(a)
    decreases |items|
  {
    if items != [] {
      var init := items[..|items| - 1];
      CollectMembers(pick, init, a);
      if exists j :: 0 <= j < |init| && pick(init[j].0) == Some(a) {
        var j :| 0 <= j < |init| && pick(init[j].0) == Some(a);
        assert items[j] == init[j];
      }
      if exists j :: 0 <= j < |items| && pick(items[j].0) == Some(a) {
        var j :| 0 <= j < |items| && pick(items[j].0) == Some(a);
        if j < |init| {
          assert init[j] == items[j];
        }
      }
    }
  }

  /** Which announcements a device's attributes yield, in both directions. */
  lemma AttributeCandidatesMembers(env: Env, sn: string, device: DeviceInfo, attrs: Attributes,
                                   a: Announcement)
    ensures a in AttributeCandidates(env, sn, device, attrs) <==>
      exists j :: 0 <= j < |attrs| && DeviceCandidate(env, sn, device, attrs[j].0) == Some(a)
  {
    CollectMembers(attribute => DeviceCandidate(env, sn, device, attribute), attrs, a);
  }

  /** `Alias` is never announced as a sensor of any device. */
  lemma {:induction false} NoAliasSensor(env: Env, version: string, devices: DeviceData)
    ensures forall a :: a in DeviceCandidates(env, version, devices) ==>
      a.payload.SensorConfig? && a.payload.attribute != "Alias"
    decreases |devices|
  {
    if devices != [] {
      var last := devices[|devices| - 1];
      NoAliasSensor(env, version, devices[..|devices| - 1]);
      if last.1.Mapping? {
        var device := InverterDevice(env, version, last.0, last.1.attrs);
        forall a | a in AttributeCandidates(env, last.0, device, last.1.attrs)
          ensures a.payload.SensorConfig? && a.payload.attribute != "Alias"
        {
          AttributeCandidatesMembers(env, last.0, device, last.1.attrs, a);
        }
      }
    }
  }

  // ---------------------------------------------------------------------------------------
  // State messages
  // ---------------------------------------------------------------------------------------

  /** The state message of one device, when its reading is a mapping that serialises and its
      topic accepts the publish. */
  function DeviceStateMessage(env: Env, refused: set<string>, encodable: Encoder,
                              device: (string, Reading)): (r: seq<Message>)
    ensures r != [] <==> device.1.Mapping? && encodable(DeviceStateBody(device.1.attrs))
                         && DeviceStateTopic(env, device.0) !in refused
    ensures r != [] ==> r == [Message(DeviceStateTopic(env, device.0), DeviceStateBody(device.1.attrs), false)]
  {
    match device.1
    case NotMapping => []
    case Mapping(attrs) =>
      var topic := DeviceStateTopic(env, device.0);
      if encodable(DeviceStateBody(attrs)) && topic !in refused
      then [Message(topic, DeviceStateBody(attrs), false)] else []
  }

  function DeviceStateMessages(env: Env, refused: set<string>, encodable: Encoder,
                               devices: DeviceData): seq<Message>
    decreases |devices|
  {
    if devices == [] then []
    else DeviceStateMessages(env, refused, encodable, devices[..|devices| - 1])
         + DeviceStateMessage(env, refused, encodable, devices[|devices| - 1])
  }

  /** The unretained plant message, when it serialises and its topic accepts the publish. */
  function PlantStateMessage(env: Env, refused: set<string>, encodable: Encoder, plant: PlantData)
    : (r: seq<Message>)
    ensures r != [] <==> encodable(PlantStateBody(plant)) && PlantStateTopic(env) !in refused
    ensures r != [] ==> r == [Message(PlantStateTopic(env), PlantStateBody(plant), false)]
  {
    if encodable(PlantStateBody(plant)) && PlantStateTopic(env) !in refused
    then [Message(PlantStateTopic(env), PlantStateBody(plant), false)] else []
  }

  /** `{"value": peak, "last_reset_date": iso-date or null}`. */
  function PeakPayload(peak: real, lastReset: Option<Date>): Payload
  {
    PeakStateBody(peak, if lastReset.Some? then Some(IsoDate(lastReset.value)) else None)
  }

  /** The retained peak message, when it serialises and its topic accepts the publish. */
  function PeakStateMessage(env: Env, refused: set<string>, encodable: Encoder, peak: real,
                            lastReset: Option<Date>): (r: seq<Message>)
    ensures r != [] <==> encodable(PeakPayload(peak, lastReset)) && PeakStateTopic(env) !in refused
    ensures r != [] ==> r == [Message(PeakStateTopic(env), PeakPayload(peak, lastReset), true)]
  {
    var body := PeakPayload(peak, lastReset);
    if encodable(body) && PeakStateTopic(env) !in refused
    then [Message(PeakStateTopic(env), body, true)] else []
  }

  /** Everything one connected `publish_state` call sends, in order. */
  function StateMessages(env: Env, refused: set<string>, encodable: Encoder, devices: DeviceData,
                         plant: PlantData, peak: real, lastReset: Option<Date>): seq<Message>
  {
    DeviceStateMessages(env, refused, encodable, devices)
    + PlantStateMessage(env, refused, encodable, plant)
    + PeakStateMessage(env, refused, encodable, peak, lastReset)
  }

  lemma {:induction false} DeviceStateMessagesConcat(env: Env, refused: set<string>,
                                                     encodable: Encoder, a: DeviceData, b: DeviceData)
    ensures DeviceStateMessages(env, refused, encodable, a + b) ==
      DeviceStateMessages(env, refused, encodable, a) + DeviceStateMessages(env, refused, encodable, b)
    decreases |b|
  {
    if b == [] {
      assert a + b == a;
    } else {
      var init := b[..|b| - 1];
      assert (a + b)[..|a + b| - 1] == a + init;
      assert (a + b)[|a + b| - 1] == b[|b| - 1];
      DeviceStateMessagesConcat(env, refused, encodable, a, init);
      var m := DeviceStateMessage(env, refused, encodable, b[|b| - 1]);
      var x := DeviceStateMessages(env, refused, encodable, a);
      var y := DeviceStateMessages(env, refused, encodable, init);
      assert (x + y) + m == x + (y + m);
    }
  }

  /** Which device messages are sent, in both directions: one per device whose reading is a
      mapping that serialises and whose topic accepts it, to `base/sn/state`, not retained. */
  lemma {:induction false} DeviceStateMembers(env: Env, refused: set<string>, encodable: Encoder,
                                              devices: DeviceData, m: Message)
    ensures m in DeviceStateMessages(env, refused, encodable, devices) <==>
      exists i :: 0 <= i < |devices| && devices[i].1.Mapping?
        && encodable(DeviceStateBody(devices[i].1.attrs))
        && DeviceStateTopic(env, devices[i].0) !in refused
        && m == Message(DeviceStateTopic(env, devices[i].0), DeviceStateBody(devices[i].1.attrs), false)
    decreases |devices|
  {
    if devices != [] {
      var init := devices[..|devices| - 1];
      DeviceStateMembers(env, refused, encodable, init, m);
      forall i | 0 <= i < |init|
        ensures init[i] == devices[i]
      {
      }
    }
  }

  lemma DeviceStateMessagesOne(env: Env, refused: set<string>, encodable: Encoder,
                               device: (string, Reading))
    ensures DeviceStateMessages(env, refused, encodable, [device]) ==
      DeviceStateMessage(env, refused, encodable, device)
  {
    assert [device][..0] == [];
  }

  /** A device whose reading does not serialise is dropped from the round and nothing else
      changes: the messages are those of the round without it. */
  lemma UnencodableDeviceDropped(env: Env, refused: set<string>, encodable: Encoder,
                                 devices: DeviceData, k: nat)
    requires k < |devices| && devices[k].1.Mapping?
    requires !encodable(DeviceStateBody(devices[k].1.attrs))
    ensures DeviceStateMessages(env, refused, encodable, devices) ==
      DeviceStateMessages(env, refused, encodable, devices[..k] + devices[k + 1..])
  {
    var a := devices[..k];
    var b := devices[k + 1..];
    var d := devices[k];
    assert devices == (a + [d]) + b;
    assert DeviceStateMessage(env, refused, encodable, d) == [];
    DeviceStateMessagesOne(env, refused, encodable, d);
    DeviceStateMessagesConcat(env, refused, encodable, a + [d], b);
    DeviceStateMessagesConcat(env, refused, encodable, a, [d]);
    DeviceStateMessagesConcat(env, refused, encodable, a, b);
    var x := DeviceStateMessages(env, refused, encodable, a);
    assert DeviceStateMessages(env, refused, encodable, a + [d]) == x;
  }

  /** Only the peak message is retained; every message goes to its documented topic. */
  lemma StateRetainFlags(env: Env, refused: set<string>, encodable: Encoder, devices: DeviceData,
                         plant: PlantData, peak: real, lastReset: Option<Date>)
    ensures var msgs := StateMessages(env, refused, encodable, devices, plant, peak, lastReset);
      forall k :: 0 <= k < |msgs| ==>
        (msgs[k].retain <==> msgs[k].payload.PeakStateBody?) &&
        (msgs[k].payload.PeakStateBody? ==> msgs[k].topic == env.baseTopic + "/plant/peak_power_today") &&
        (msgs[k].payload.PlantStateBody? ==> msgs[k].topic == env.baseTopic + "/plant/state")
  {
    var d := DeviceStateMessages(env, refused, encodable, devices);
    var msgs := StateMessages(env, refused, encodable, devices, plant, peak, lastReset);
    forall k | 0 <= k < |msgs|
      ensures (msgs[k].retain <==> msgs[k].payload.PeakStateBody?) &&
        (msgs[k].payload.PeakStateBody? ==> msgs[k].topic == env.baseTopic + "/plant/peak_power_today") &&
        (msgs[k].payload.PlantStateBody? ==> msgs[k].topic == env.baseTopic + "/plant/state")
    {
      if k < |d| {
        assert msgs[k] == d[k];
        DeviceStateMembers(env, refused, encodable, devices, d[k]);
      }
    }
  }
}
