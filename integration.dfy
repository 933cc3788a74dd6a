/** Setting up and tearing down a config entry, and the polling coordinator
    (custom_components/coolmaster_ng/__init__.py). Calls into the gateway
    library are replaced by their outcomes, given as parameters. */
module Integration {
  import opened Common
  import opened Models

  /** The transport a config entry asks for. */
  datatype Transport =
    | TcpTransport(host: Value, port: Option<Value>)
    | SerialTransport(url: Value, baudrate: Option<Value>)

  /** `d.get(k)`. */
  function Get(d: map<string, Value>, k: string): (r: Option<Value>)
    ensures r.Some? <==> k in d
    ensures r.Some? ==> r.value == d[k]
  {
    if k in d then Some(d[k]) else None
  }

  /** `data.get(CONF_PROTOCOL, PROTOCOL_SOCKET)`. */
  function ProtocolOf(data: map<string, Value>): Value
  {
    if ConfProtocol in data then data[ConfProtocol] else Str(ProtocolSocket)
  }

  /** `_get_transport_from_config_data`. */
  function TransportFromConfig(data: map<string, Value>): (r: Result<Transport>)
    ensures ProtocolOf(data) == Str(ProtocolSocket) ==>
      (r.Ok? <==> ConfHost in data)
      && (r.Ok? ==> r.value == TcpTransport(data[ConfHost], Get(data, ConfPort)))
    ensures ProtocolOf(data) == Str(ProtocolSerial) ==>
      (r.Ok? <==> ConfSerialUrl in data)
      && (r.Ok? ==> r.value == SerialTransport(data[ConfSerialUrl], Get(data, ConfSerialBaud)))
    ensures r.Err? ==> r.error == KeyError || r.error.ValueError?
    ensures (r.Err? && r.error.ValueError?) <==>
      ProtocolOf(data) != Str(ProtocolSocket) && ProtocolOf(data) != Str(ProtocolSerial)
    ensures r.Err? && r.error.ValueError? ==>
      r.error == ValueError("Unsupported protocol " + Render(ProtocolOf(data)))
  {
    var protocol := ProtocolOf(data);
    if protocol == Str(ProtocolSocket) then
      if ConfHost in data then Ok(TcpTransport(data[ConfHost], Get(data, ConfPort))) else Err(KeyError)
    else if protocol == Str(ProtocolSerial) then
      if ConfSerialUrl in data then Ok(SerialTransport(data[ConfSerialUrl], Get(data, ConfSerialBaud)))
      else Err(KeyError)
    else Err(ValueError("Unsupported protocol " + Render(protocol)))
  }

  /** An entry without a protocol key is read as a socket entry. */
  lemma MissingProtocolIsSocket(data: map<string, Value>)
    requires ConfProtocol !in data
    ensures TransportFromConfig(data) == TransportFromConfig(data[ConfProtocol := Str(ProtocolSocket)])
    ensures TransportFromConfig(data).Ok? <==> ConfHost in data
  {
    var explicit := data[ConfProtocol := Str(ProtocolSocket)];
    assert ProtocolOf(explicit) == ProtocolOf(data);
    assert Get(explicit, ConfPort) == Get(data, ConfPort);
  }

  // ---------------------------------------------------------------------------
  // Gateway model classification

  const CoolMasterNet := "CoolMasterNet"
  const CoolLinkHub := "CoolLinkHub"

  /** Whether the gateway accepted the CoolMasterNet-only "simul" command. */
  datatype ProbeOutcome = ProbeAccepted | ProbeFailed(error: LibraryError)

  /** The model chosen in `async_setup_entry`: by serial-number prefix, else
      by whether the gateway knows the "simul" command. */
  function ClassifyModel(serial: string, probe: ProbeOutcome): (r: Result<string>)
    ensures r.Ok? ==> r.value == CoolMasterNet || r.value == CoolLinkHub
    ensures r.Err? ==> probe.ProbeFailed? && r.error == Raised(probe.error)
  {
    if StartsWith(serial, "283B960") then Ok(CoolMasterNet)
    else if StartsWith(serial, "283B96C") then Ok(CoolLinkHub)
    else match probe
      case ProbeAccepted => Ok(CoolMasterNet)
      case ProbeFailed(e) => if e == RemoteError(true) then Ok(CoolLinkHub) else Err(Raised(e))
  }

  /** A known prefix decides the model whatever the probe would say; without
      one, the model is CoolLinkHub exactly when the probe fails with an
      unknown-command error, and any other probe failure escapes. */
  lemma ClassifyModelCases(serial: string, probe: ProbeOutcome, other: ProbeOutcome)
    ensures StartsWith(serial, "283B960") ==> ClassifyModel(serial, probe) == Ok(CoolMasterNet)
    ensures StartsWith(serial, "283B96C") ==> ClassifyModel(serial, probe) == Ok(CoolLinkHub)
    ensures StartsWith(serial, "283B960") || StartsWith(serial, "283B96C") ==>
      ClassifyModel(serial, probe) == ClassifyModel(serial, other)
    ensures !StartsWith(serial, "283B960") && !StartsWith(serial, "283B96C") ==>
      (ClassifyModel(serial, probe) == Ok(CoolLinkHub) <==> probe == ProbeFailed(RemoteError(true)))
      && (ClassifyModel(serial, probe) == Ok(CoolMasterNet) <==> probe == ProbeAccepted)
  {
    if StartsWith(serial, "283B96C") {
      assert serial[6] == 'C';
    }
  }

  // ---------------------------------------------------------------------------
  // The coordinator's refresh loop

  /** The library's gateway object; its devices are refreshed in place. */
  class Gateway {
    const serialNumber: string
    const version: string
    var devices: seq<Device>

    constructor (serialNumber: string, version: string, devices: seq<Device>)
      ensures this.serialNumber == serialNumber && this.version == version
      ensures this.devices == devices
    {
      this.serialNumber := serialNumber;
      this.version := version;
      this.devices := devices;
    }
  }

  /** What `device.refresh()` does for one device: the new snapshot, or an exception. */
  datatype RefreshOutcome = Refreshed(state: Device) | RefreshFailed(error: LibraryError)

  /** The position of the first failing refresh, or the length when none fails. */
  function FirstFailure(outcomes: seq<RefreshOutcome>): (k: nat)
    ensures k <= |outcomes|
    ensures forall i :: 0 <= i < k ==> outcomes[i].Refreshed?
    ensures k < |outcomes| ==> outcomes[k].RefreshFailed?
  {
    if outcomes == [] || outcomes[0].RefreshFailed? then 0
    else 1 + FirstFailure(outcomes[1..])
  }

  /** The loop read as a recursion: refresh the first device, then the rest;
      stop at the first exception. Gives the devices afterwards and the
      exception, if any. */
  function RefreshInOrder(devices: seq<Device>, outcomes: seq<RefreshOutcome>): (seq<Device>, Option<LibraryError>)
    requires |devices| == |outcomes|
  {
    if outcomes == [] then (devices, None)
    else match outcomes[0]
      case RefreshFailed(e) => (devices, Some(e))
      case Refreshed(s) =>
        var (rest, e) := RefreshInOrder(devices[1..], outcomes[1..]);
        ([s] + rest, e)
  }

  /** Devices before the first failure hold their new snapshots, the failing
      device and every later one keep their old snapshots, and the exception
      is the first failure's. */
  lemma {:induction false} RefreshInOrderLayout(devices: seq<Device>, outcomes: seq<RefreshOutcome>)
    requires |devices| == |outcomes|
    ensures |RefreshInOrder(devices, outcomes).0| == |devices|
    ensures forall i :: 0 <= i < FirstFailure(outcomes) ==>
      RefreshInOrder(devices, outcomes).0[i] == outcomes[i].state
    ensures forall i :: FirstFailure(outcomes) <= i < |devices| ==>
      RefreshInOrder(devices, outcomes).0[i] == devices[i]
    ensures RefreshInOrder(devices, outcomes).1.None? <==> FirstFailure(outcomes) == |outcomes|
    ensures RefreshInOrder(devices, outcomes).1.Some? ==>
      RefreshInOrder(devices, outcomes).1.value == outcomes[FirstFailure(outcomes)].error
  {
    if outcomes != [] && outcomes[0].Refreshed? {
      RefreshInOrderLayout(devices[1..], outcomes[1..]);
      var rest := RefreshInOrder(devices[1..], outcomes[1..]).0;
      var all := RefreshInOrder(devices, outcomes).0;
      assert all == [outcomes[0].state] + rest;
      forall i | 1 <= i < |devices|
        ensures all[i] == rest[i - 1]
      {
      }
    }
  }

  /** `except (OSError, CoolMasterNetRemoteError): raise UpdateFailed`; any
      other exception escapes unchanged. */
  function UpdateError(e: LibraryError): (err: Error)
    ensures err.UpdateFailed? <==> e != OtherException
    ensures err.UpdateFailed? ==> err.cause == e
    ensures !err.UpdateFailed? ==> err == Raised(e)
  {
    if e.OsError? || e.RemoteError? then UpdateFailed(e) else Raised(e)
  }

  class Coordinator {
    const gateway: Gateway

    constructor (gateway: Gateway)
      ensures this.gateway == gateway
    {
      this.gateway := gateway;
    }

    /** `_async_update_data`: refresh every device in place, in order; on
        success return the same gateway object, on the first failure stop. */
    method UpdateData(outcomes: seq<RefreshOutcome>) returns (r: Result<Gateway>)
      requires |outcomes| == |gateway.devices|
      modifies gateway
      ensures gateway.devices == RefreshInOrder(old(gateway.devices), outcomes).0
      ensures RefreshInOrder(old(gateway.devices), outcomes).1.None? ==> r == Ok(gateway)
      ensures RefreshInOrder(old(gateway.devices), outcomes).1.Some? ==>
        r == Err(UpdateError(RefreshInOrder(old(gateway.devices), outcomes).1.value))
    {
      ghost var before := gateway.devices;
      RefreshInOrderLayout(before, outcomes);
      var i := 0;
      while i < |outcomes|
        invariant 0 <= i <= |outcomes| == |gateway.devices|
        invariant forall j :: 0 <= j < i ==> outcomes[j].Refreshed? && gateway.devices[j] == outcomes[j].state
        invariant forall j :: i <= j < |outcomes| ==> gateway.devices[j] == before[j]
      {
        match outcomes[i]
        case RefreshFailed(e) =>
          assert FirstFailure(outcomes) == i;
          assert gateway.devices == RefreshInOrder(before, outcomes).0;
          return Err(UpdateError(e));
        case Refreshed(s) =>
          gateway.devices := gateway.devices[i := s];
        i := i + 1;
      }
      assert FirstFailure(outcomes) == |outcomes|;
      assert gateway.devices == RefreshInOrder(before, outcomes).0;
      r := Ok(gateway);
    }
  }

  // ---------------------------------------------------------------------------
  // Entry setup and unload over `hass.data`

  /** What `Gateway.from_transport` gives: a gateway, or an exception. */
  datatype ConnectOutcome =
    | Connected(serialNumber: string, version: string, devices: seq<Device>)
    | ConnectFailed(error: LibraryError)

  /** What `gateway.get_ifconfig()` gives for a network transport. */
  datatype IfconfigOutcome = Mac(address: string) | IfconfigFailed(error: LibraryError)

  /** The gateway's own entry in the device registry. */
  datatype GatewayRecord = GatewayRecord(
    configEntryId: string,
    connections: set<(string, string)>,
    identifiers: set<(string, string)>,
    manufacturer: string,
    model: string,
    name: string,
    swVersion: string)

  /** `hass.data[DOMAIN]`, or an empty dict when the domain has no entry yet. */
  function DomainEntries(data: map<string, map<string, map<string, Coordinator>>>): map<string, map<string, Coordinator>>
  {
    if Domain in data then data[Domain] else map[]
  }

  /** The transport was built, the gateway answered, and for a network
      transport its MAC address was read: what setup needs before it
      classifies the gateway. */
  predicate ConnectionReady(config: map<string, Value>, connect: ConnectOutcome, ifconfig: IfconfigOutcome)
  {
    && TransportFromConfig(config).Ok?
    && connect.Connected?
    && (TransportFromConfig(config).value.SerialTransport? || ifconfig.Mac?)
  }

  class Hass {
    /** `hass.data`: per domain, per config entry, a dict holding the entry's
        coordinator under `DATA_COORDINATOR`. */
    var data: map<string, map<string, map<string, Coordinator>>>
    /** Device-registry entries created for gateways, in creation order. */
    var registry: seq<GatewayRecord>

    constructor ()
      ensures data == map[] && registry == []
    {
      data := map[];
      registry := [];
    }

    /** `async_setup_entry`. Errors before the coordinator is stored leave
        `hass.data` and the registry as they were; a failing first refresh
        comes after both were written and leaves them written. */
    method SetupEntry(
      entryId: string, config: map<string, Value>,
      connect: ConnectOutcome, ifconfig: IfconfigOutcome, probe: ProbeOutcome,
      firstRefresh: seq<RefreshOutcome>)
      returns (r: Result<bool>)
      requires connect.Connected? ==> |firstRefresh| == |connect.devices|
      modifies this
      ensures TransportFromConfig(config).Err? ==>
        r == Err(TransportFromConfig(config).error) && unchanged(this)
      ensures TransportFromConfig(config).Ok? && connect.ConnectFailed? ==>
        r == Err(if connect.error.RemoteError? then ConfigEntryNotReady else Raised(connect.error))
        && unchanged(this)
      ensures (TransportFromConfig(config).Ok? && TransportFromConfig(config).value.TcpTransport?
               && connect.Connected? && ifconfig.IfconfigFailed?) ==>
        r == Err(Raised(ifconfig.error)) && unchanged(this)
      ensures ConnectionReady(config, connect, ifconfig) && ClassifyModel(connect.serialNumber, probe).Err? ==>
        r == Err(ClassifyModel(connect.serialNumber, probe).error) && unchanged(this)
      ensures ConnectionReady(config, connect, ifconfig) && ClassifyModel(connect.serialNumber, probe).Ok? ==>
        && r == (if RefreshInOrder(connect.devices, firstRefresh).1.None? then Ok(true) else Err(ConfigEntryNotReady))
        && registry == old(registry) + [GatewayRecord(
             entryId,
             if TransportFromConfig(config).value.TcpTransport? then {("mac", ifconfig.address)} else {},
             {(Domain, connect.serialNumber)}, "CoolAutomation",
             ClassifyModel(connect.serialNumber, probe).value,
             connect.serialNumber, connect.version)]
        && Domain in data && entryId in data[Domain]
        && data[Domain][entryId].Keys == {DataCoordinator}
        && data == old(data)[Domain := DomainEntries(old(data))[entryId := data[Domain][entryId]]]
        && fresh(data[Domain][entryId][DataCoordinator]) && fresh(data[Domain][entryId][DataCoordinator].gateway)
        && data[Domain][entryId][DataCoordinator].gateway.serialNumber == connect.serialNumber
        && data[Domain][entryId][DataCoordinator].gateway.version == connect.version
        && data[Domain][entryId][DataCoordinator].gateway.devices == RefreshInOrder(connect.devices, firstRefresh).0
    {
      var transport := TransportFromConfig(config);
      if transport.Err? {
        return Err(transport.error);
      }
      if connect.ConnectFailed? {
        return Err(if connect.error.RemoteError? then ConfigEntryNotReady else Raised(connect.error));
      }
      var gateway := new Gateway(connect.serialNumber, connect.version, connect.devices);

      var connections: set<(string, string)> := {};
      if transport.value.TcpTransport? {
        if ifconfig.IfconfigFailed? {
          return Err(Raised(ifconfig.error));
        }
        connections := {("mac", ifconfig.address)};
      }

      var model := ClassifyModel(gateway.serialNumber, probe);
      if model.Err? {
        return Err(model.error);
      }

      registry := registry + [GatewayRecord(
        entryId, connections, {(Domain, gateway.serialNumber)}, "CoolAutomation",
        model.value, gateway.serialNumber, gateway.version)];

      var coordinator := new Coordinator(gateway);
      data := data[Domain := DomainEntries(data)[entryId := map[DataCoordinator := coordinator]]];

      var refreshed := coordinator.UpdateData(firstRefresh);
      if refreshed.Err? {
        return Err(ConfigEntryNotReady);
      }
      r := Ok(true);
    }

    /** `async_unload_entry`: the entry's data is dropped exactly when the
        platforms unloaded, and the result is the platforms' result. */
    method UnloadEntry(entryId: string, unloadOk: bool) returns (r: Result<bool>)
      modifies this
      ensures registry == old(registry)
      ensures !unloadOk ==> r == Ok(false) && data == old(data)
      ensures unloadOk && Domain in old(data) && entryId in old(data)[Domain] ==>
        r == Ok(true) && data == old(data)[Domain := old(data)[Domain] - {entryId}]
      ensures unloadOk && !(Domain in old(data) && entryId in old(data)[Domain]) ==>
        r == Err(KeyError) && data == old(data)
    {
      if unloadOk {
        if Domain !in data || entryId !in data[Domain] {
          return Err(KeyError);
        }
        data := data[Domain := data[Domain] - {entryId}];
      }
      r := Ok(unloadOk);
    }
  }
}
