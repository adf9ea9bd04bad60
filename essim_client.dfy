/** The protocol client of the external battery model (tno/essim_battery/essim_mqtt_client.py):
    the messages a simulation run sends to the node (configuration, bid requests,
    allocations, stop), the state machine they drive, the run settings a configuration
    message writes, and the bids the client publishes. The broker is not modelled: a
    received message is its topic and the payload as each handler would read it, and a
    published bid is appended to a list. */
module EssimClient {
  import opened Common
  import opened BatteryCurve
  import opened Battery
  import opened BidPayload
  import opened SimulationSteps

  /** `ExternalModelState`. FIRST_BID_REQUEST_RECEIVED and COMPLETE are declared but no
      handler ever enters them. */
  datatype ModelState =
    | UNINITIALIZED
    | RECEIVED_CONFIG
    | WAITING_FOR_BID_REQUEST
    | WAITING_FOR_ALLOCATION
    | FIRST_BID_REQUEST_RECEIVED
    | COMPLETE
    | ERROR

  /** The states some handler assigns. */
  predicate Assignable(s: ModelState) {
    !s.FIRST_BID_REQUEST_RECEIVED? && !s.COMPLETE?
  }

  // ---------------------------------------------------------------- topics

  datatype TopicKind = ConfigTopic | CreateBidTopic | AllocateTopic | StopTopic | UnknownTopic

  predicate EndsWith(s: string, suffix: string) {
    |suffix| <= |s| && s[|s| - |suffix|..] == suffix
  }

  lemma EndsWithLast(s: string, suffix: string)
    requires |suffix| > 0 && EndsWith(s, suffix)
    ensures s[|s| - 1] == suffix[|suffix| - 1]
  {
    assert s[|s| - |suffix|..][|suffix| - 1] == s[|s| - 1];
  }

  /** The four command suffixes end in different letters, so a topic carries at most one. */
  lemma {:induction false} SuffixesExclusive(topic: string)
    ensures EndsWith(topic, "/config") ==>
      !EndsWith(topic, "/createBid") && !EndsWith(topic, "/allocate") && !EndsWith(topic, "/stop")
    ensures EndsWith(topic, "/createBid") ==> !EndsWith(topic, "/allocate") && !EndsWith(topic, "/stop")
    ensures EndsWith(topic, "/allocate") ==> !EndsWith(topic, "/stop")
  {
    if EndsWith(topic, "/config") { EndsWithLast(topic, "/config"); }
    if EndsWith(topic, "/createBid") { EndsWithLast(topic, "/createBid"); }
    if EndsWith(topic, "/allocate") { EndsWithLast(topic, "/allocate"); }
    if EndsWith(topic, "/stop") { EndsWithLast(topic, "/stop"); }
  }

  /** The command a topic names, by its suffix; the order in which the suffixes are tried
      does not matter, since no topic ends with two of them. */
  function KindOf(topic: string): (k: TopicKind)
    ensures k == ConfigTopic <==> EndsWith(topic, "/config")
    ensures k == CreateBidTopic <==> EndsWith(topic, "/createBid")
    ensures k == AllocateTopic <==> EndsWith(topic, "/allocate")
    ensures k == StopTopic <==> EndsWith(topic, "/stop")
  {
    SuffixesExclusive(topic);
    if EndsWith(topic, "/config") then ConfigTopic
    else if EndsWith(topic, "/createBid") then CreateBidTopic
    else if EndsWith(topic, "/allocate") then AllocateTopic
    else if EndsWith(topic, "/stop") then StopTopic
    else UnknownTopic
  }

  // ---------------------------------------------------------------- payloads

  /** A payload as a handler reads it: bytes that are not UTF-8, text that is not JSON or
      lacks a key the handler reads, or the values of those keys. */
  datatype Payload<T> = Undecodable | Malformed | Parsed(value: T)

  /** A createBid message; the hour of day is the local hour of its timestamp. */
  datatype BidRequest = BidRequest(
    timestamp: int, minPrice: real, maxPrice: real, duration: real, carrierId: CarrierId, hourOfDay: int)

  datatype AllocationRequest = AllocationRequest(timestamp: int, price: real, carrierId: CarrierId)

  datatype StopRequest = StopRequest(carrierId: CarrierId)

  /** An optional configuration entry: absent, present but unusable (a date that does not
      parse, a url without a host or with a bad port, a document that does not decode or
      load), or present with its value. */
  datatype ConfigValue<T> = Absent | Invalid | Present(value: T)

  /** A loaded energy-system document: its id, and what its lookups give for this node
      (the carrier ids of its ports, and its asset information). */
  datatype EsdlDocument = EsdlDocument(id: string, carriers: Result<map<CarrierId, CarrierCost>>, assetInfo: Result<AssetInfo>)

  datatype InfluxTarget = InfluxTarget(host: string, port: Option<int>)

  /** The `config` object of a configuration message; dates are seconds since the epoch. */
  datatype ConfigBlock = ConfigBlock(
    scenarioId: Option<string>,
    influxUrl: ConfigValue<InfluxTarget>,
    startDate: ConfigValue<int>,
    endDate: ConfigValue<int>,
    chargeWindows: Option<WindowConfig>,
    dischargeWindows: Option<WindowConfig>)

  datatype ConfigPayload = ConfigPayload(
    esdlContents: ConfigValue<EsdlDocument>, simulationId: Option<string>, config: Option<ConfigBlock>)

  /** Every reading of one message's payload: the handler the topic selects uses its own. */
  datatype MessagePayload = MessagePayload(
    config: Payload<ConfigPayload>,
    bid: Payload<BidRequest>,
    allocation: Payload<AllocationRequest>,
    stop: Payload<StopRequest>)

  // ---------------------------------------------------------------- run settings

  /** The results store a configuration names; its database is the scenario id. */
  datatype InfluxConnector = InfluxConnector(server: string, port: Option<int>, database: Option<string>)

  /** The client fields a configuration block writes. They outlive a run: a later
      configuration that leaves a key out keeps the earlier value. */
  datatype RunSettings = RunSettings(
    scenarioId: Option<string>,
    influx: Option<InfluxConnector>,
    startDate: Option<int>,
    endDate: Option<int>,
    chargeWindows: Option<WindowConfig>,
    dischargeWindows: Option<WindowConfig>)

  /** The configuration block, applied key by key; an unusable url or date raises, which
      the block's handler logs, and the keys after it are not applied. */
  function ApplyConfigBlock(s: RunSettings, energySystemId: Option<string>, b: ConfigBlock): (r: RunSettings)
    ensures r.scenarioId == if b.scenarioId.Some? then b.scenarioId else energySystemId
    ensures r.influx == if b.influxUrl.Present? then
      Some(InfluxConnector(b.influxUrl.value.host, b.influxUrl.value.port, r.scenarioId)) else s.influx
    ensures b.influxUrl.Invalid? ==> r == s.(scenarioId := r.scenarioId)
    ensures r.startDate == if !b.influxUrl.Invalid? && b.startDate.Present? then Some(b.startDate.value) else s.startDate
    ensures r.endDate == if !b.influxUrl.Invalid? && !b.startDate.Invalid? && b.endDate.Present?
                         then Some(b.endDate.value) else s.endDate
    ensures !b.influxUrl.Invalid? && !b.startDate.Invalid? && !b.endDate.Invalid? ==>
      r.chargeWindows == b.chargeWindows && r.dischargeWindows == b.dischargeWindows
    ensures b.influxUrl.Invalid? || b.startDate.Invalid? || b.endDate.Invalid? ==>
      r.chargeWindows == s.chargeWindows && r.dischargeWindows == s.dischargeWindows
  {
    var scenario := if b.scenarioId.Some? then b.scenarioId else energySystemId;
    var withScenario := s.(scenarioId := scenario);
    if b.influxUrl.Invalid? then withScenario
    else
      var withInflux := if b.influxUrl.Present? then
        withScenario.(influx := Some(InfluxConnector(b.influxUrl.value.host, b.influxUrl.value.port, scenario)))
        else withScenario;
      if b.startDate.Invalid? then withInflux
      else
        var withStart := if b.startDate.Present? then withInflux.(startDate := Some(b.startDate.value)) else withInflux;
        if b.endDate.Invalid? then withStart
        else
          var withEnd := if b.endDate.Present? then withStart.(endDate := Some(b.endDate.value)) else withStart;
          withEnd.(chargeWindows := b.chargeWindows, dischargeWindows := b.dischargeWindows)
  }

  /** Applying the same block twice is applying it once. */
  lemma ApplyConfigBlockIdempotent(s: RunSettings, energySystemId: Option<string>, b: ConfigBlock)
    ensures ApplyConfigBlock(ApplyConfigBlock(s, energySystemId, b), energySystemId, b)
         == ApplyConfigBlock(s, energySystemId, b)
  {
  }

  /** A usable block decides the scenario, both dates and both window lists whatever the
      earlier settings were; only a missing url or date falls back to them. */
  lemma ApplyConfigBlockForgetsEarlierRun(s1: RunSettings, s2: RunSettings, energySystemId: Option<string>, b: ConfigBlock)
    requires b.influxUrl.Present? && b.startDate.Present? && b.endDate.Present?
    ensures ApplyConfigBlock(s1, energySystemId, b) == ApplyConfigBlock(s2, energySystemId, b)
  {
  }

  /** The document after a configuration payload: a usable one replaces the loaded one. */
  function DocumentAfter(d: Option<EsdlDocument>, c: ConfigPayload): Option<EsdlDocument> {
    if c.esdlContents.Present? then Some(c.esdlContents.value) else d
  }

  function EnergySystemIdAfter(id: Option<string>, c: ConfigPayload): Option<string> {
    if c.esdlContents.Present? then Some(c.esdlContents.value.id) else id
  }

  function SimulationIdAfter(id: Option<string>, c: ConfigPayload): Option<string> {
    if c.simulationId.Some? then c.simulationId else id
  }

  /** The settings after a configuration payload whose document (if any) loaded; the
      scenario falls back to the id of the document just loaded. */
  function SettingsAfter(s: RunSettings, id: Option<string>, c: ConfigPayload): RunSettings {
    if c.config.Some? then ApplyConfigBlock(s, EnergySystemIdAfter(id, c), c.config.value) else s
  }

  /** The settings and document a configuration leaves are enough to build a battery node. */
  predicate ReadyToRun(s: RunSettings, d: Option<EsdlDocument>) {
    && s.startDate.Some? && s.endDate.Some?
    && d.Some? && d.value.carriers.Ok? && d.value.assetInfo.Ok?
    && HasRequiredAttributes(d.value.assetInfo.value)
  }

  /** The origin of step numbers after a bid request: the first bid's timestamp, taken
      again whenever the stored one is falsy (missing or 0). */
  function StartAfterBid(start: Option<int>, timestamp: int): (r: Option<int>)
    ensures r.Some?
    ensures start.Some? && start.value != 0 ==> r == start
    ensures start.None? || start.value == 0 ==> r == Some(timestamp)
  {
    if start.None? || start.value == 0 then Some(timestamp) else start
  }

  /** Once a non-zero origin is taken it stays for every later bid, and the first bid is
      step 0; an origin of 0 is replaced by the next bid's timestamp. */
  lemma StartIsStable(start: Option<int>, t1: int, t2: int)
    ensures start.None? ==> StepNumber(t1, StartAfterBid(start, t1).value) == 0
    ensures StartAfterBid(start, t1).value != 0 ==>
      StartAfterBid(StartAfterBid(start, t1), t2) == StartAfterBid(start, t1)
    ensures StartAfterBid(Some(0), t2) == Some(t2)
  {
  }

  datatype Publication = Publication(topic: string, payload: seq<byte>)

  /** The rows handed to a results store, tagged with the simulation run. */
  datatype StoreWrite = StoreWrite(store: InfluxConnector, simulationRun: Option<string>, rows: seq<ResultRow>)

  /** What a handler did: completed, raised (the exception is logged), or nothing at all. */
  datatype Outcome = Handled | Raised(error: Error) | Ignored

  /** The client fields a configuration message writes and the other messages only read. */
  datatype Configuration = Configuration(
    esdl: Option<EsdlDocument>,
    energySystemId: Option<string>,
    simulationId: Option<string>,
    settings: RunSettings,
    simulationInfo: Option<SimulationInfo>,
    carriersInfo: Option<map<CarrierId, CarrierCost>>)

  class EssimMqttClient {
    const topic: string
    const nodeId: string
    /** `struct.pack(">d", x)`. */
    const encodeDouble: real -> seq<byte>

    var modelState: ModelState
    /** The timestamp of the first bid request of the run: the origin of step numbers. */
    var startTimestamp: Option<int>
    var esdl: Option<EsdlDocument>
    var energySystemId: Option<string>
    var simulationId: Option<string>
    var settings: RunSettings
    var simulationInfo: Option<SimulationInfo>
    /** `carriers_info`: the carriers of the node's ports, with their costs. */
    var carriersInfo: Option<map<CarrierId, CarrierCost>>
    var battery: BatteryNode?
    /** The bids sent to the broker, oldest first. */
    var published: seq<Publication>
    /** The results sent to stores, oldest first. */
    var written: seq<StoreWrite>

    ghost predicate Valid()
      reads this
    {
      battery != null ==> battery.Valid()
    }

    function CurrentConfiguration(): Configuration
      reads this
    {
      Configuration(esdl, energySystemId, simulationId, settings, simulationInfo, carriersInfo)
    }

    /** The topic a bid for a carrier is published on. */
    function BidTopic(carrier: CarrierId): string {
      topic + "/simulation/" + nodeId + "/" + carrier + "/bid"
    }

    constructor (topic: string, nodeId: string, encodeDouble: real -> seq<byte>)
      ensures Valid()
      ensures this.topic == topic && this.nodeId == nodeId && this.encodeDouble == encodeDouble
      ensures modelState == UNINITIALIZED && startTimestamp.None?
      ensures esdl.None? && energySystemId.None? && simulationId.None?
      ensures settings == RunSettings(None, None, None, None, None, None)
      ensures simulationInfo.None? && carriersInfo.None? && battery == null && published == [] && written == []
    {
      this.topic := topic;
      this.nodeId := nodeId;
      this.encodeDouble := encodeDouble;
      modelState := UNINITIALIZED;
      startTimestamp := None;
      esdl, energySystemId, simulationId := None, None, None;
      settings := RunSettings(None, None, None, None, None, None);
      simulationInfo, carriersInfo := None, None;
      battery := null;
      published := [];
      written := [];
    }

    /** `process_json_payload`: loads the document, records the simulation id, then applies
        the configuration block. A document that does not decode or load raises before
        anything is recorded. */
    method ProcessJsonPayload(c: ConfigPayload) returns (ok: bool)
      modifies this`esdl, this`energySystemId, this`simulationId, this`settings
      ensures ok <==> !c.esdlContents.Invalid?
      ensures !ok ==> esdl == old(esdl) && energySystemId == old(energySystemId)
                      && simulationId == old(simulationId) && settings == old(settings)
      ensures ok ==> esdl == DocumentAfter(old(esdl), c)
      ensures ok ==> energySystemId == EnergySystemIdAfter(old(energySystemId), c)
      ensures ok ==> simulationId == SimulationIdAfter(old(simulationId), c)
      ensures ok ==> settings == SettingsAfter(old(settings), old(energySystemId), c)
    {
      if c.esdlContents.Invalid? {
        return false;
      }
      if c.esdlContents.Present? {
        esdl := Some(c.esdlContents.value);
        energySystemId := Some(c.esdlContents.value.id);
      }
      if c.simulationId.Some? {
        simulationId := c.simulationId;
      }
      if c.config.None? {
        return true;
      }
      var b := c.config.value;
      var scenario := if b.scenarioId.Some? then b.scenarioId else energySystemId;
      settings := settings.(scenarioId := scenario);
      if b.influxUrl.Invalid? {
        return true;
      }
      if b.influxUrl.Present? {
        settings := settings.(influx := Some(InfluxConnector(b.influxUrl.value.host, b.influxUrl.value.port, scenario)));
      }
      if b.startDate.Invalid? {
        return true;
      }
      if b.startDate.Present? {
        settings := settings.(startDate := Some(b.startDate.value));
      }
      if b.endDate.Invalid? {
        return true;
      }
      if b.endDate.Present? {
        settings := settings.(endDate := Some(b.endDate.value));
      }
      settings := settings.(chargeWindows := b.chargeWindows, dischargeWindows := b.dischargeWindows);
      return true;
    }

    /** A /config message. Only an uninitialised client acts on it: it moves to
        RECEIVED_CONFIG and forgets the step origin, then reads the payload. A payload that
        is not UTF-8 leaves it in RECEIVED_CONFIG; any later failure moves it to ERROR; a
        run that can start gets a fresh battery node and waits for a bid request. */
    method HandleConfig(p: Payload<ConfigPayload>) returns (r: Outcome)
      requires Valid()
      modifies this
      ensures Valid()
      ensures published == old(published) && written == old(written)
      ensures old(modelState) != UNINITIALIZED ==> r == Ignored && unchanged(this)
      ensures old(modelState) == UNINITIALIZED ==> startTimestamp.None? && r != Ignored
      ensures old(modelState) == UNINITIALIZED && p.Undecodable? ==>
        r == Raised(UndecodablePayload) && modelState == RECEIVED_CONFIG
        && CurrentConfiguration() == old(CurrentConfiguration()) && battery == old(battery)
      ensures old(modelState) == UNINITIALIZED && p.Malformed? ==>
        r == Raised(MalformedPayload) && modelState == ERROR
        && CurrentConfiguration() == old(CurrentConfiguration()) && battery == old(battery)
      ensures old(modelState) == UNINITIALIZED && p.Parsed? && p.value.esdlContents.Invalid? ==>
        r == Raised(UnreadableDocument) && modelState == ERROR
        && CurrentConfiguration() == old(CurrentConfiguration()) && battery == old(battery)
      ensures old(modelState) == UNINITIALIZED && p.Parsed? && !p.value.esdlContents.Invalid? ==>
        var info := CreateSimulationInfo(settings.startDate, settings.endDate);
        && esdl == DocumentAfter(old(esdl), p.value)
        && energySystemId == EnergySystemIdAfter(old(energySystemId), p.value)
        && simulationId == SimulationIdAfter(old(simulationId), p.value)
        && settings == SettingsAfter(old(settings), old(energySystemId), p.value)
        && simulationInfo == (if info.Ok? then Some(info.value) else old(simulationInfo))
        && carriersInfo == (if info.Ok? && esdl.Some? && esdl.value.carriers.Ok?
                            then Some(esdl.value.carriers.value) else old(carriersInfo))
        && (modelState == WAITING_FOR_BID_REQUEST <==> ReadyToRun(settings, esdl))
        && (modelState != WAITING_FOR_BID_REQUEST ==> modelState == ERROR && r.Raised? && battery == old(battery))
        && (ReadyToRun(settings, esdl) ==>
              && r == Handled
              && battery != null && fresh(battery)
              && battery.asset == esdl.value.assetInfo.value
              && battery.carriers == esdl.value.carriers.value
              && battery.simulationInfo == info.value
              && battery.chargeWindows == settings.chargeWindows
              && battery.dischargeWindows == settings.dischargeWindows
              && battery.stateOfCharge == [InitialCharge(battery.asset)]
              && battery.bidCurves == map[] && battery.allocations == map[]
              && battery.minPrice.None? && battery.maxPrice.None? && battery.duration.None?)
    {
      if modelState != UNINITIALIZED {
        return Ignored;
      }
      modelState := RECEIVED_CONFIG;
      startTimestamp := None;
      if p.Undecodable? {
        return Raised(UndecodablePayload);
      }
      if p.Malformed? {
        modelState := ERROR;
        return Raised(MalformedPayload);
      }
      var loaded := ProcessJsonPayload(p.value);
      if !loaded {
        modelState := ERROR;
        return Raised(UnreadableDocument);
      }
      var info := CreateSimulationInfo(settings.startDate, settings.endDate);
      if info.Err? {
        modelState := ERROR;
        return Raised(info.error);
      }
      simulationInfo := Some(info.value);
      if esdl.None? {
        modelState := ERROR;
        return Raised(UnreadableDocument);
      }
      if esdl.value.carriers.Err? {
        modelState := ERROR;
        return Raised(esdl.value.carriers.error);
      }
      carriersInfo := Some(esdl.value.carriers.value);
      if esdl.value.assetInfo.Err? {
        modelState := ERROR;
        return Raised(esdl.value.assetInfo.error);
      }
      var node := BatteryNode.New(esdl.value.assetInfo.value, esdl.value.carriers.value, info.value,
                                  settings.chargeWindows, settings.dischargeWindows);
      if node.Err? {
        modelState := ERROR;
        return Raised(node.error);
      }
      battery := node.value;
      modelState := WAITING_FOR_BID_REQUEST;
      return Handled;
    }

    /** A /createBid message, acted on in every state. The first request of a run fixes the
        step origin; the carrier must be known and the node built; the node's curve for the
        hour since the origin is packed and published, and the client waits for the
        allocation. A failure is logged and leaves the state as it was. */
    method HandleCreateBid(p: Payload<BidRequest>) returns (r: Outcome)
      requires Valid()
      modifies this, battery
      ensures Valid() && battery == old(battery)
      ensures CurrentConfiguration() == old(CurrentConfiguration()) && written == old(written)
      ensures r != Ignored
      ensures !p.Parsed? ==>
        r == Raised(if p.Undecodable? then UndecodablePayload else MalformedPayload)
        && unchanged(this) && (battery != null ==> unchanged(battery))
      ensures p.Parsed? ==> startTimestamp == StartAfterBid(old(startTimestamp), p.value.timestamp)
      ensures p.Parsed? && (carriersInfo.None? || p.value.carrierId !in carriersInfo.value || battery == null) ==>
        r.Raised? && modelState == old(modelState) && published == old(published)
        && (battery != null ==> unchanged(battery))
      ensures p.Parsed? && carriersInfo.Some? && p.value.carrierId in carriersInfo.value && battery != null ==>
        var b := p.value;
        var stepNr := StepNumber(b.timestamp, startTimestamp.value);
        var bid := battery.BidFor(old(battery.stateOfCharge), stepNr, b.hourOfDay, b.duration, b.minPrice, b.maxPrice);
        && battery.minPrice == Some(b.minPrice) && battery.maxPrice == Some(b.maxPrice)
        && battery.duration == Some(b.duration)
        && battery.stateOfCharge == old(battery.stateOfCharge) && battery.allocations == old(battery.allocations)
        && battery.bidCurves == (if bid.Ok? then AppendTo(old(battery.bidCurves), b.carrierId, bid.value)
                                 else old(battery.bidCurves))
        && (bid.Err? ==> r == Raised(bid.error))
        && (bid.Ok? && !InInt64(b.timestamp) ==> r == Raised(OutOfInt64Range))
        && (r.Raised? ==> modelState == old(modelState) && published == old(published))
        && (bid.Ok? && InInt64(b.timestamp) ==>
              && r == Handled && modelState == WAITING_FOR_ALLOCATION
              && published == old(published)
                   + [Publication(BidTopic(b.carrierId), BidPayloadBytes(b.timestamp, bid.value, encodeDouble))])
    {
      if !p.Parsed? {
        return Raised(if p.Undecodable? then UndecodablePayload else MalformedPayload);
      }
      var b := p.value;
      if startTimestamp.None? || startTimestamp.value == 0 {
        startTimestamp := Some(b.timestamp);
      }
      if carriersInfo.None? {
        return Raised(NoneValue);
      }
      if b.carrierId !in carriersInfo.value {
        return Raised(UnknownKey);
      }
      var stepNr := StepNumber(b.timestamp, startTimestamp.value);
      if battery == null {
        return Raised(NoneValue);
      }
      var bid := battery.CreateBidCurve(stepNr, b.hourOfDay, b.duration, b.minPrice, b.maxPrice, b.carrierId);
      if bid.Err? {
        return Raised(bid.error);
      }
      var packed := PackBid(b.timestamp, bid.value, encodeDouble);
      if packed.Err? {
        return Raised(packed.error);
      }
      published := published + [Publication(BidTopic(b.carrierId), packed.value)];
      modelState := WAITING_FOR_ALLOCATION;
      return Handled;
    }

    /** An /allocate message. The client waits for the next bid request before it reads the
        payload, whatever follows; the carrier must be known, the step origin set and the
        node built, and the node then resolves the price on the step's curve. */
    method HandleAllocate(p: Payload<AllocationRequest>) returns (r: Outcome)
      requires Valid()
      modifies this, battery
      ensures Valid() && battery == old(battery)
      ensures modelState == WAITING_FOR_BID_REQUEST
      ensures CurrentConfiguration() == old(CurrentConfiguration())
      ensures startTimestamp == old(startTimestamp) && published == old(published) && written == old(written)
      ensures r != Ignored
      ensures !p.Parsed? ==>
        r == Raised(if p.Undecodable? then UndecodablePayload else MalformedPayload)
        && (battery != null ==> unchanged(battery))
      ensures p.Parsed? && (carriersInfo.None? || p.value.carrierId !in carriersInfo.value
                            || startTimestamp.None? || battery == null) ==>
        r.Raised? && (battery != null ==> unchanged(battery))
      ensures p.Parsed? && carriersInfo.Some? && p.value.carrierId in carriersInfo.value
              && startTimestamp.Some? && battery != null ==>
        var a := p.value;
        var stepNr := StepNumber(a.timestamp, startTimestamp.value);
        var resolved := old(battery.AllocationFor(stepNr, a.price, a.carrierId));
        && battery.bidCurves == old(battery.bidCurves) && battery.duration == old(battery.duration)
        && battery.minPrice == old(battery.minPrice) && battery.maxPrice == old(battery.maxPrice)
        && (resolved.Err? ==> r == Raised(resolved.error) && battery.stateOfCharge == old(battery.stateOfCharge))
        && (resolved.Ok? ==>
              && battery.stateOfCharge == old(battery.stateOfCharge)
                   + [NewStateOfCharge(PyIndex(old(battery.stateOfCharge), stepNr).value, resolved.value)]
              && r == (if battery.duration.None? then Raised(NoneValue)
                       else if battery.duration.value == 0.0 then Raised(ZeroDivision) else Handled))
        && battery.allocations == (if r == Handled then AppendTo(old(battery.allocations), a.carrierId, resolved.value)
                                   else old(battery.allocations))
    {
      modelState := WAITING_FOR_BID_REQUEST;
      if !p.Parsed? {
        return Raised(if p.Undecodable? then UndecodablePayload else MalformedPayload);
      }
      var a := p.value;
      if carriersInfo.None? {
        return Raised(NoneValue);
      }
      if a.carrierId !in carriersInfo.value {
        return Raised(UnknownKey);
      }
      if startTimestamp.None? {
        return Raised(NoneValue);
      }
      var stepNr := StepNumber(a.timestamp, startTimestamp.value);
      if battery == null {
        return Raised(NoneValue);
      }
      var allocation := battery.ProcessAllocation(stepNr, a.price, a.carrierId);
      if allocation.Err? {
        return Raised(allocation.error);
      }
      return Handled;
    }

    /** A /stop message: the carrier is looked up first, then the node writes its results
        to the configured store and the client is ready for the next run. Any failure,
        including a results row that raises, leaves the state as it was. */
    method HandleStop(p: Payload<StopRequest>) returns (r: Outcome)
      requires Valid()
      modifies this`modelState, this`written
      ensures r != Ignored
      ensures !p.Parsed? ==> r == Raised(if p.Undecodable? then UndecodablePayload else MalformedPayload)
      ensures p.Parsed? && carriersInfo.None? ==> r == Raised(NoneValue)
      ensures p.Parsed? && carriersInfo.Some? && p.value.carrierId !in carriersInfo.value ==> r == Raised(UnknownKey)
      ensures p.Parsed? && carriersInfo.Some? && p.value.carrierId in carriersInfo.value && battery == null ==>
        r == Raised(NoneValue)
      ensures p.Parsed? && carriersInfo.Some? && p.value.carrierId in carriersInfo.value && battery != null ==>
        var rows := battery.RowsUpTo(startTimestamp, battery.RowCount());
        && (rows.None? ==> r == Raised(NoMessageAttribute))
        && (rows.Some? && settings.influx.None? ==> r == Raised(NoneValue))
        && (rows.Some? && settings.influx.Some? ==>
              r == Handled && written == old(written) + [StoreWrite(settings.influx.value, simulationId, rows.value)])
      ensures r != Handled ==> written == old(written)
      ensures modelState == if r == Handled then UNINITIALIZED else old(modelState)
    {
      if !p.Parsed? {
        return Raised(if p.Undecodable? then UndecodablePayload else MalformedPayload);
      }
      if carriersInfo.None? {
        return Raised(NoneValue);
      }
      if p.value.carrierId !in carriersInfo.value {
        return Raised(UnknownKey);
      }
      if battery == null {
        return Raised(NoneValue);
      }
      var rows := battery.WriteResults(settings.influx, startTimestamp);
      if rows.Err? {
        return Raised(rows.error);
      }
      written := written + [StoreWrite(settings.influx.value, simulationId, rows.value)];
      modelState := UNINITIALIZED;
      return Handled;
    }

    /** `on_message`: the topic's suffix selects the handler; any other topic is logged
        and ignored. No handler enters FIRST_BID_REQUEST_RECEIVED or COMPLETE. */
    method OnMessage(msgTopic: string, payload: MessagePayload) returns (r: Outcome)
      requires Valid()
      modifies this, battery
      ensures Valid()
      ensures Assignable(old(modelState)) ==> Assignable(modelState)
      ensures |published| == |old(published)| + (if KindOf(msgTopic) == CreateBidTopic && r == Handled then 1 else 0)
      ensures published[..|old(published)|] == old(published)
      ensures written == old(written) || (KindOf(msgTopic) == StopTopic && r == Handled && |written| == |old(written)| + 1
                                         && written[..|old(written)|] == old(written))
      ensures KindOf(msgTopic) == UnknownTopic ==>
        r == Ignored && unchanged(this) && (old(battery) != null ==> unchanged(old(battery)))
      ensures KindOf(msgTopic) == ConfigTopic ==>
        if old(modelState) == UNINITIALIZED
        then modelState in {RECEIVED_CONFIG, WAITING_FOR_BID_REQUEST, ERROR}
        else r == Ignored && unchanged(this)
      ensures KindOf(msgTopic) == CreateBidTopic ==>
        modelState == (if r == Handled then WAITING_FOR_ALLOCATION else old(modelState))
      ensures KindOf(msgTopic) == AllocateTopic ==> modelState == WAITING_FOR_BID_REQUEST
      ensures KindOf(msgTopic) == StopTopic ==>
        modelState == (if r == Handled then UNINITIALIZED else old(modelState))
    {
      match KindOf(msgTopic)
      case ConfigTopic =>
        r := HandleConfig(payload.config);
      case CreateBidTopic =>
        r := HandleCreateBid(payload.bid);
      case AllocateTopic =>
        r := HandleAllocate(payload.allocation);
      case StopTopic =>
        r := HandleStop(payload.stop);
      case UnknownTopic =>
        r := Ignored;
    }
  }
}
