/**
 * The MQTT side of the scraper (`publish_discovery`, `publish_state`) over an abstract client.
 * The process-wide set of discovered unique ids is the `discovered` field of a `Publisher`.
 */
module Mqtt {
  import opened Common
  import opened Timestamps
  import opened Aggregation
  import opened MqttRules
  import opened Discovery

  /** A broker connection: whether it is connected, the topics whose publish raises, and every
      message sent so far. */
  class Client {
    var connected: bool
    var refused: set<string>
    var log: seq<Message>

    constructor (connected: bool, refused: set<string>)
      ensures this.connected == connected && this.refused == refused && log == []
    {
      this.connected := connected;
      this.refused := refused;
      log := [];
    }

    /** `client.publish`: sends the message, or raises (and sends nothing) on a refused topic. */
    method Publish(topic: string, payload: Payload, retain: bool) returns (ok: bool)
      modifies this
      ensures ok <==> topic !in refused
      ensures connected == old(connected) && refused == old(refused)
      ensures log == old(log) + (if ok then [Message(topic, payload, retain)] else [])
    {
      ok := topic !in refused;
      if ok {
        log := log + [Message(topic, payload, retain)];
      }
    }
  }

  /** The generic name an attribute is looked up under: the loop over the panel suffixes. */
  method PanelBaseName(attribute: string) returns (base: string)
    ensures base == BaseName(attribute)
  {
    var i := 0;
    while i < |PanelSuffixes|
      invariant 0 <= i <= |PanelSuffixes|
      invariant FirstSuffix(attribute, PanelSuffixes) == FirstSuffix(attribute, PanelSuffixes[i..])
    {
      if EndsWith(attribute, PanelSuffixes[i].0) {
        return PanelSuffixes[i].1;
      }
      assert PanelSuffixes[i..][1..] == PanelSuffixes[i + 1..];
      i := i + 1;
    }
    return attribute;
  }

  lemma OfferOne(st: Published, refused: set<string>, encodable: Encoder, a: Announcement)
    ensures Offer(st, refused, encodable, [a]) == Attempt(st, refused, encodable, a)
  {
    assert [a][..0] == [];
  }

  lemma CollectStep<V>(pick: string -> Option<Announcement>, items: seq<(string, V)>, j: nat)
    requires j < |items|
    ensures Collect(pick, items[..j + 1]) == Collect(pick, items[..j]) + AsSeq(pick(items[j].0))
  {
    assert items[..j + 1][..j] == items[..j];
  }

  lemma DeviceCandidatesStep(env: Env, version: string, devices: DeviceData, i: nat)
    requires i < |devices| && devices[i].1.Mapping?
    ensures DeviceCandidates(env, version, devices[..i + 1]) ==
      DeviceCandidates(env, version, devices[..i]) +
      AttributeCandidates(env, devices[i].0,
                          InverterDevice(env, version, devices[i].0, devices[i].1.attrs),
                          devices[i].1.attrs)
  {
    assert devices[..i + 1][..i] == devices[..i];
  }

  /** The loop meets the first unreadable device at its index. */
  lemma FirstUnreadableStep(devices: DeviceData, i: nat)
    requires i < |devices| && i <= FirstUnreadable(devices)
    ensures devices[i].1.NotMapping? ==> FirstUnreadable(devices) == i
    ensures devices[i].1.Mapping? ==> i + 1 <= FirstUnreadable(devices)
  {
  }

  lemma DeviceStateMessagesStep(env: Env, refused: set<string>, encodable: Encoder,
                                devices: DeviceData, i: nat)
    requires i < |devices|
    ensures DeviceStateMessages(env, refused, encodable, devices[..i + 1]) ==
      DeviceStateMessages(env, refused, encodable, devices[..i])
      + DeviceStateMessage(env, refused, encodable, devices[i])
  {
    assert devices[..i + 1][..i] == devices[..i];
  }

  class Publisher {
    const env: Env
    var discovered: set<string>

    /** A fresh process: nothing discovered yet. */
    constructor (env: Env)
      ensures this.env == env && discovered == {}
    {
      this.env := env;
      discovered := {};
    }

    /** The guarded publish of one discovery config: serialise, publish retained, and record
        the id only when both went through. */
    method Deliver(client: Client, uid: string, topic: string, payload: Payload, encodable: Encoder)
      requires uid !in discovered
      modifies this, client
      ensures client.connected == old(client.connected) && client.refused == old(client.refused)
      ensures Published(discovered, client.log) ==
        Attempt(Published(old(discovered), old(client.log)), client.refused, encodable,
                Announcement(uid, topic, payload))
    {
      if encodable(payload) {
        var ok := client.Publish(topic, payload, true);
        if ok {
          discovered := discovered + {uid};
        }
      }
    }

    /** The body of the device-attribute loop of `publish_discovery`. */
    method DiscoverDeviceAttribute(client: Client, sn: string, device: DeviceInfo,
                                   attribute: string, encodable: Encoder)
      modifies this, client
      ensures client.connected == old(client.connected) && client.refused == old(client.refused)
      ensures Published(discovered, client.log) ==
        Offer(Published(old(discovered), old(client.log)), client.refused, encodable,
              AsSeq(DeviceCandidate(env, sn, device, attribute)))
    {
      if attribute == "Alias" {
        return;
      }
      var uid := "saj_" + sn + "_" + Slug(attribute);
      if uid in discovered {
        if DeviceCandidate(env, sn, device, attribute).Some? {
          OfferOne(Published(discovered, client.log), client.refused, encodable,
                   DeviceCandidate(env, sn, device, attribute).value);
        }
        return;
      }
      var base := PanelBaseName(attribute);
      var unit := TableGet(env.units, base);
      var deviceClass := TableGet(env.deviceClasses, base);
      var stateClass := TableGet(env.stateClasses, base);
      if unit.None? && deviceClass.None? && !IsTimestampAttr(attribute) {
        return;
      }
      if IsTimestampAttr(attribute) {
        deviceClass := Some("timestamp");
      }
      var topic := DiscoveryTopic(env, uid);
      var payload := SensorConfig(attribute, uid, DeviceStateTopic(env, sn), device, env.availability,
                                  Present(unit), Present(deviceClass), Present(stateClass));
      OfferOne(Published(discovered, client.log), client.refused, encodable,
               Announcement(uid, topic, payload));
      Deliver(client, uid, topic, payload, encodable);
    }

    /** The attribute loop of one device. */
    method DiscoverDeviceAttributes(client: Client, sn: string, device: DeviceInfo,
                                    attrs: Attributes, encodable: Encoder)
      modifies this, client
      ensures client.connected == old(client.connected) && client.refused == old(client.refused)
      ensures Published(discovered, client.log) ==
        Offer(Published(old(discovered), old(client.log)), client.refused, encodable,
              AttributeCandidates(env, sn, device, attrs))
    {
      ghost var start := Published(discovered, client.log);
      ghost var pick := attribute => DeviceCandidate(env, sn, device, attribute);
      var j := 0;
      while j < |attrs|
        invariant 0 <= j <= |attrs|
        invariant client.connected == old(client.connected) && client.refused == old(client.refused)
        invariant Published(discovered, client.log) ==
          Offer(start, client.refused, encodable, Collect(pick, attrs[..j]))
      {
        ghost var mid := Published(discovered, client.log);
        DiscoverDeviceAttribute(client, sn, device, attrs[j].0, encodable);
        CollectStep(pick, attrs, j);
        OfferConcat(start, client.refused, encodable, Collect(pick, attrs[..j]),
                    AsSeq(pick(attrs[j].0)));
        j := j + 1;
      }
      assert attrs[..j] == attrs;
    }

    /** The device loop of `publish_discovery`: stops, raising, at the first device whose
        reading is not a mapping. */
    method DiscoverDevices(client: Client, devices: DeviceData, version: string, encodable: Encoder)
      returns (raised: bool)
      modifies this, client
      ensures client.connected == old(client.connected) && client.refused == old(client.refused)
      ensures raised <==> FirstUnreadable(devices) < |devices|
      ensures Published(discovered, client.log) ==
        Offer(Published(old(discovered), old(client.log)), client.refused, encodable,
              DeviceCandidates(env, version, devices[..FirstUnreadable(devices)]))
    {
      ghost var start := Published(discovered, client.log);
      var i := 0;
      while i < |devices|
        invariant 0 <= i <= |devices|
        invariant i <= FirstUnreadable(devices)
        invariant client.connected == old(client.connected) && client.refused == old(client.refused)
        invariant Published(discovered, client.log) ==
          Offer(start, client.refused, encodable, DeviceCandidates(env, version, devices[..i]))
      {
        var sn := devices[i].0;
        var reading := devices[i].1;
        if reading.NotMapping? {
          FirstUnreadableStep(devices, i);
          return true;
        }
        FirstUnreadableStep(devices, i);
        var device := InverterDevice(env, version, sn, reading.attrs);
        ghost var mid := Published(discovered, client.log);
        DiscoverDeviceAttributes(client, sn, device, reading.attrs, encodable);
        ghost var done := DeviceCandidates(env, version, devices[..i]);
        ghost var more := AttributeCandidates(env, sn, device, reading.attrs);
        assert Published(discovered, client.log) == Offer(mid, client.refused, encodable, more);
        assert mid == Offer(start, client.refused, encodable, done);
        DeviceCandidatesStep(env, version, devices, i);
        assert DeviceCandidates(env, version, devices[..i + 1]) == done + more;
        OfferConcat(start, client.refused, encodable, done, more);
        i := i + 1;
      }
      assert devices[..i] == devices;
      return false;
    }

    /** The body of the plant-attribute loop of `publish_discovery`. */
    method DiscoverPlantAttribute(client: Client, device: DeviceInfo, attribute: string,
                                  encodable: Encoder)
      modifies this, client
      ensures client.connected == old(client.connected) && client.refused == old(client.refused)
      ensures Published(discovered, client.log) ==
        Offer(Published(old(discovered), old(client.log)), client.refused, encodable,
              AsSeq(PlantCandidate(env, device, attribute)))
    {
      var uid := "saj_plant_" + Slug(attribute);
      if uid in discovered {
        if PlantCandidate(env, device, attribute).Some? {
          OfferOne(Published(discovered, client.log), client.refused, encodable,
                   PlantCandidate(env, device, attribute).value);
        }
        return;
      }
      var unit := TableGet(env.units, attribute);
      var deviceClass := TableGet(env.deviceClasses, attribute);
      var stateClass := TableGet(env.stateClasses, attribute);
      if attribute == "Power" || attribute == "Panel_Power" {
        unit := Some("kW");
      }
      if unit.None? && deviceClass.None? && !IsTimestampAttr(attribute) {
        return;
      }
      if IsTimestampAttr(attribute) {
        deviceClass := Some("timestamp");
      }
      var topic := DiscoveryTopic(env, uid);
      var payload := SensorConfig(attribute, uid, PlantStateTopic(env), device, env.availability,
                                  Present(unit), Present(deviceClass), Present(stateClass));
      OfferOne(Published(discovered, client.log), client.refused, encodable,
               Announcement(uid, topic, payload));
      Deliver(client, uid, topic, payload, encodable);
    }

    /** The plant-attribute loop of `publish_discovery`. */
    method DiscoverPlant(client: Client, device: DeviceInfo, plant: PlantData, encodable: Encoder)
      modifies this, client
      ensures client.connected == old(client.connected) && client.refused == old(client.refused)
      ensures Published(discovered, client.log) ==
        Offer(Published(old(discovered), old(client.log)), client.refused, encodable,
              PlantCandidates(env, device, plant))
    {
      ghost var start := Published(discovered, client.log);
      ghost var pick := attribute => PlantCandidate(env, device, attribute);
      var j := 0;
      while j < |plant|
        invariant 0 <= j <= |plant|
        invariant client.connected == old(client.connected) && client.refused == old(client.refused)
        invariant Published(discovered, client.log) ==
          Offer(start, client.refused, encodable, Collect(pick, plant[..j]))
      {
        DiscoverPlantAttribute(client, device, plant[j].0, encodable);
        CollectStep(pick, plant, j);
        OfferConcat(start, client.refused, encodable, Collect(pick, plant[..j]),
                    AsSeq(pick(plant[j].0)));
        j := j + 1;
      }
      assert plant[..j] == plant;
    }

    /** The peak-power sensor, announced while its id is not yet discovered. */
    method DiscoverPeak(client: Client, device: DeviceInfo, encodable: Encoder)
      modifies this, client
      ensures client.connected == old(client.connected) && client.refused == old(client.refused)
      ensures Published(discovered, client.log) ==
        Offer(Published(old(discovered), old(client.log)), client.refused, encodable,
              [PeakAnnouncement(env, device)])
    {
      var a := PeakAnnouncement(env, device);
      OfferOne(Published(discovered, client.log), client.refused, encodable, a);
      if PeakUid !in discovered {
        Deliver(client, a.uid, a.topic, a.payload, encodable);
      }
    }

    /** `publish_discovery`: nothing without a connected client; otherwise it offers every
        announcement of the plan in order, and reports whether an unreadable device raised. */
    method PublishDiscovery(client: Client?, devices: DeviceData, plant: PlantData, version: string,
                            encodable: Encoder) returns (raised: bool)
      modifies this, client
      ensures client == null || !old(client.connected) ==>
        !raised && discovered == old(discovered) && (client != null ==> client.log == old(client.log))
      ensures client != null ==>
        client.connected == old(client.connected) && client.refused == old(client.refused)
      ensures client != null && old(client.connected) ==>
        raised == DiscoveryPlan(env, version, devices, plant).1 &&
        Published(discovered, client.log) ==
          Offer(Published(old(discovered), old(client.log)), client.refused, encodable,
                DiscoveryPlan(env, version, devices, plant).0)
    {
      if client == null || !client.connected {
        return false;
      }
      ghost var start := Published(discovered, client.log);
      raised := DiscoverDevices(client, devices, version, encodable);
      if raised {
        return;
      }
      assert devices[..FirstUnreadable(devices)] == devices;
      ghost var afterDevices := Published(discovered, client.log);
      var device := PlantDevice(env, version);
      DiscoverPlant(client, device, plant, encodable);
      ghost var afterPlant := Published(discovered, client.log);
      DiscoverPeak(client, device, encodable);
      ghost var devicesPart := DeviceCandidates(env, version, devices);
      ghost var plantPart := PlantCandidates(env, device, plant);
      OfferConcat(start, client.refused, encodable, devicesPart, plantPart);
      OfferConcat(start, client.refused, encodable, devicesPart + plantPart,
                  [PeakAnnouncement(env, device)]);
    }

    /** The body of the device loop of `publish_state`: a reading that is not a mapping raises
        inside the `try` and is skipped. */
    method PublishDeviceState(client: Client, device: (string, Reading), encodable: Encoder)
      modifies client
      ensures client.connected == old(client.connected) && client.refused == old(client.refused)
      ensures client.log == old(client.log) + DeviceStateMessage(env, client.refused, encodable, device)
    {
      var topic := DeviceStateTopic(env, device.0);
      if device.1.Mapping? {
        var body := DeviceStateBody(device.1.attrs);
        if encodable(body) {
          var ok := client.Publish(topic, body, false);
        }
      }
    }

    /** The device loop of `publish_state`. */
    method PublishDeviceStates(client: Client, devices: DeviceData, encodable: Encoder)
      modifies client
      ensures client.connected == old(client.connected) && client.refused == old(client.refused)
      ensures client.log == old(client.log) +
        DeviceStateMessages(env, client.refused, encodable, devices)
    {
      var i := 0;
      while i < |devices|
        invariant 0 <= i <= |devices|
        invariant client.connected == old(client.connected) && client.refused == old(client.refused)
        invariant client.log == old(client.log) +
          DeviceStateMessages(env, client.refused, encodable, devices[..i])
      {
        PublishDeviceState(client, devices[i], encodable);
        DeviceStateMessagesStep(env, client.refused, encodable, devices, i);
        i := i + 1;
      }
      assert devices[..i] == devices;
    }

    /** The plant part of `publish_state`. */
    method PublishPlantState(client: Client, plant: PlantData, encodable: Encoder)
      modifies client
      ensures client.connected == old(client.connected) && client.refused == old(client.refused)
      ensures client.log == old(client.log) + PlantStateMessage(env, client.refused, encodable, plant)
    {
      var body := PlantStateBody(plant);
      if encodable(body) {
        var ok := client.Publish(PlantStateTopic(env), body, false);
      }
    }

    /** The peak part of `publish_state`: retained, so the peak survives a restart. */
    method PublishPeakState(client: Client, peak: real, lastReset: Option<Date>, encodable: Encoder)
      modifies client
      ensures client.connected == old(client.connected) && client.refused == old(client.refused)
      ensures client.log == old(client.log) +
        PeakStateMessage(env, client.refused, encodable, peak, lastReset)
    {
      var body := PeakPayload(peak, lastReset);
      if encodable(body) {
        var ok := client.Publish(PeakStateTopic(env), body, true);
      }
    }

    /** `publish_state`: nothing without a connected client; otherwise the state message of
        every readable device, then the plant's, then the retained peak, each skipped alone
        when it does not serialise or its publish raises. */
    method PublishState(client: Client?, devices: DeviceData, plant: PlantData, peak: real,
                        lastReset: Option<Date>, encodable: Encoder)
      modifies client
      ensures client == null || !old(client.connected) ==>
        client != null ==> client.log == old(client.log)
      ensures client != null ==>
        client.connected == old(client.connected) && client.refused == old(client.refused)
      ensures client != null && old(client.connected) ==>
        client.log == old(client.log) +
          StateMessages(env, client.refused, encodable, devices, plant, peak, lastReset)
    {
      if client == null || !client.connected {
        return;
      }
      PublishDeviceStates(client, devices, encodable);
      PublishPlantState(client, plant, encodable);
      PublishPeakState(client, peak, lastReset, encodable);
      ghost var d := DeviceStateMessages(env, client.refused, encodable, devices);
      ghost var p := PlantStateMessage(env, client.refused, encodable, plant);
      ghost var k := PeakStateMessage(env, client.refused, encodable, peak, lastReset);
      assert old(client.log) + d + p + k == old(client.log) + (d + p + k);
    }
  }
}
