/** The command-line tool's CLINetworkManager: which bridges it creates for
    a network-type string, the registry of discovered devices keyed by
    "<remote>:<device address>", and the start flag. The bridges and the
    MultiBridge are not modelled inside: which bridges can be created is an
    input, and the calls made on them are recorded in order. */
module CliNetwork {
  import opened Common
  import opened Text
  import opened MoppyCore

  /** A bridge the manager created: the UDP bridge or a serial bridge on a port. */
  datatype Bridge = Udp | Serial(port: string)

  /** What the machine offers: whether the UDP bridge can be created, the
      serial ports BridgeSerial lists, and the ports whose bridge constructor throws. */
  datatype Environment = Environment(udpAvailable: bool, availableSerials: seq<string>, brokenPorts: set<string>)

  /** A call the manager makes on a bridge or on the MultiBridge. */
  datatype BridgeCall = AddBridge(bridge: Bridge) | Connect(bridge: Bridge) | SendPing | CloseBridge(bridge: Bridge)

  /** One call per bridge, in the bridges' order. */
  function AddCalls(bs: seq<Bridge>): (r: seq<BridgeCall>)
    ensures |r| == |bs| && forall i :: 0 <= i < |bs| ==> r[i] == AddBridge(bs[i])
  {
    seq(|bs|, i requires 0 <= i < |bs| => AddBridge(bs[i]))
  }

  function ConnectCalls(bs: seq<Bridge>): (r: seq<BridgeCall>)
    ensures |r| == |bs| && forall i :: 0 <= i < |bs| ==> r[i] == Connect(bs[i])
  {
    seq(|bs|, i requires 0 <= i < |bs| => Connect(bs[i]))
  }

  function CloseCalls(bs: seq<Bridge>): (r: seq<BridgeCall>)
    ensures |r| == |bs| && forall i :: 0 <= i < |bs| ==> r[i] == CloseBridge(bs[i])
  {
    seq(|bs|, i requires 0 <= i < |bs| => CloseBridge(bs[i]))
  }

  /** initializeUDPBridge: the UDP bridge, unless its constructor throws. */
  function UdpBridges(env: Environment): seq<Bridge>
  {
    if env.udpAvailable then [Udp] else []
  }

  /** One serial bridge per port whose constructor does not throw, in order. */
  function SerialBridges(ports: seq<string>, broken: set<string>): seq<Bridge>
  {
    if ports == [] then []
    else
      var last := ports[|ports| - 1];
      SerialBridges(ports[..|ports| - 1], broken) + (if last in broken then [] else [Serial(last)])
  }

  /** The serial bridges are exactly those of the listed ports whose
      constructor does not throw, at most one per port. */
  lemma {:induction false} SerialBridgesMembers(ports: seq<string>, broken: set<string>)
    ensures forall b :: b in SerialBridges(ports, broken) <==> b.Serial? && b.port in ports && b.port !in broken
    ensures |SerialBridges(ports, broken)| <= |ports|
    decreases |ports|
  {
    if ports != [] {
      var init := ports[..|ports| - 1];
      SerialBridgesMembers(init, broken);
      assert ports == init + [ports[|ports| - 1]];
    }
  }

  /** One more port adds its bridge, unless its constructor throws. */
  lemma SerialBridgesStep(ports: seq<string>, i: nat, broken: set<string>)
    requires i < |ports|
    ensures SerialBridges(ports[..i + 1], broken)
            == SerialBridges(ports[..i], broken) + (if ports[i] in broken then [] else [Serial(ports[i])])
  {
    assert ports[..i + 1][..i] == ports[..i];
  }

  /** initializeSerialBridge: the given port when there is one and it is not
      empty, otherwise every available port. */
  function SerialBridgesFor(serialPort: Option<string>, env: Environment): seq<Bridge>
  {
    if serialPort.Some? && serialPort.value != "" then
      if serialPort.value in env.brokenPorts then [] else [Serial(serialPort.value)]
    else SerialBridges(env.availableSerials, env.brokenPorts)
  }

  /** initializeBridges: the bridges created for a network type, compared
      after lower-casing; "all" and every unknown type take UDP and all serial ports. */
  function SelectBridges(networkType: string, serialPort: Option<string>, env: Environment): seq<Bridge>
  {
    var t := AsciiLower(networkType);
    if t == "udp" then UdpBridges(env)
    else if t == "serial" then SerialBridgesFor(serialPort, env)
    else UdpBridges(env) + SerialBridges(env.availableSerials, env.brokenPorts)
  }

  /** The dispatch ignores the case of the network type: "UDP" selects what "udp" selects. */
  lemma SelectIgnoresCase(networkType: string, serialPort: Option<string>, env: Environment)
    ensures SelectBridges(AsciiLower(networkType), serialPort, env) == SelectBridges(networkType, serialPort, env)
  {
    assert AsciiLower(AsciiLower(networkType)) == AsciiLower(networkType);
  }

  /** "udp" creates no serial bridge; "serial" creates no UDP bridge; any
      other type creates exactly the bridges "udp" and "serial" without a port create. */
  lemma SelectionByType(networkType: string, serialPort: Option<string>, env: Environment)
    ensures AsciiLower(networkType) == "udp" ==> forall b :: b in SelectBridges(networkType, serialPort, env) ==> b == Udp
    ensures AsciiLower(networkType) == "serial" ==> Udp !in SelectBridges(networkType, serialPort, env)
    ensures AsciiLower(networkType) != "udp" && AsciiLower(networkType) != "serial" ==>
      SelectBridges(networkType, serialPort, env) ==
        SelectBridges("udp", serialPort, env) + SelectBridges("serial", None, env)
  {
    assert AsciiLower("udp") == "udp";
    assert AsciiLower("serial") == "serial";
    SerialBridgesMembers(env.availableSerials, env.brokenPorts);
  }

  /** "serial" with a usable port creates exactly that port's bridge, even
      when the port is not among the listed ones. */
  lemma SerialWithPort(networkType: string, port: string, env: Environment)
    requires AsciiLower(networkType) == "serial" && port != "" && port !in env.brokenPorts
    ensures SelectBridges(networkType, Some(port), env) == [Serial(port)]
  {
  }

  /** The registry key: the remote identifier, a colon, and the device address read as unsigned. */
  function DeviceKey(remoteId: string, deviceAddress: JByte): string
  {
    remoteId + ":" + Decimal(Unsigned(deviceAddress))
  }

  /** The key a stored descriptor is filed under. */
  function KeyOf(d: DeviceDescriptor): string
  {
    DeviceKey(d.networkAddress, d.deviceAddress)
  }

  /** A message the registry acts on: any message whose command is SYS_PONG,
      system message or not, with a payload of at least three bytes. */
  predicate IsPong(m: ReceivedMessage)
  {
    m.command == SYS_PONG && |m.payload| >= 3
  }

  /** The descriptor a pong announces; its network address is the remote identifier alone. */
  function PongDevice(m: ReceivedMessage): (d: DeviceDescriptor)
    requires |m.payload| >= 3
    ensures KeyOf(d) == DeviceKey(m.remoteId, m.payload[0])
  {
    DeviceDescriptor(m.remoteId, m.payload[0], m.payload[1], m.payload[2])
  }

  type Registry = map<string, DeviceDescriptor>

  /** Every descriptor is filed under its own key. */
  predicate WellKeyed(r: Registry)
  {
    forall k :: k in r ==> k == KeyOf(r[k])
  }

  /** The registry after a message: a pong files its descriptor under its
      key, replacing what was there. */
  function AfterPong(r: Registry, m: ReceivedMessage): Registry
  {
    if IsPong(m) then r[DeviceKey(m.remoteId, m.payload[0]) := PongDevice(m)] else r
  }

  /** What a message publishes: NET_DEVICES_CHANGED for a pong whose key was new. */
  function PongNotices(r: Registry, m: ReceivedMessage): seq<StatusUpdate>
  {
    if IsPong(m) && DeviceKey(m.remoteId, m.payload[0]) !in r then [DEVICES_CHANGED] else []
  }

  lemma ColonAt(x: string, d: string)
    ensures (x + ":" + d)[|x|] == ':'
  {
  }

  /** A colon-free suffix after the last colon determines both halves. */
  lemma {:induction false} SplitAtLastColon(x: string, d: string, y: string, e: string)
    requires ':' !in d && ':' !in e
    requires x + ":" + d == y + ":" + e
    ensures x == y && d == e
  {
    var s := x + ":" + d;
    assert |d| == |e| by {
      if |d| < |e| {
        ColonAt(x, d);
        assert false;
      } else if |e| < |d| {
        ColonAt(y, e);
        assert false;
      }
    }
    assert d == s[|s| - |d|..] == e;
    assert x == s[..|x|] == y;
  }

  /** Two keys are equal only for the same remote identifier and device address. */
  lemma KeyInjective(r1: string, a1: JByte, r2: string, a2: JByte)
    requires DeviceKey(r1, a1) == DeviceKey(r2, a2)
    ensures r1 == r2 && a1 == a2
  {
    var d1 := Decimal(Unsigned(a1));
    var d2 := Decimal(Unsigned(a2));
    assert ':' !in d1 && ':' !in d2;
    SplitAtLastColon(r1, d1, r2, d2);
    DecimalInjective(Unsigned(a1), Unsigned(a2));
    ByteRoundTrip(a1);
    ByteRoundTrip(a2);
  }

  /** A pong keeps the registry well keyed. */
  lemma PongKeepsKeys(r: Registry, m: ReceivedMessage)
    requires WellKeyed(r)
    ensures WellKeyed(AfterPong(r, m))
  {
  }

  /** Only SYS_PONG is looked at, and whether it is a system message does not matter. */
  lemma NoSystemCheck(r: Registry, m: ReceivedMessage)
    ensures AfterPong(r, m) == AfterPong(r, m.(isSystem := !m.isSystem))
    ensures PongNotices(r, m) == PongNotices(r, m.(isSystem := !m.isSystem))
    ensures m.command != SYS_PONG ==> AfterPong(r, m) == r && PongNotices(r, m) == []
  {
  }

  /** A pong from a known device with a new sub-address range replaces the
      stored descriptor and publishes nothing. */
  lemma RangeChangeIsSilent(r: Registry, m: ReceivedMessage)
    requires IsPong(m) && DeviceKey(m.remoteId, m.payload[0]) in r
    ensures PongNotices(r, m) == []
    ensures AfterPong(r, m)[DeviceKey(m.remoteId, m.payload[0])] == PongDevice(m)
    ensures |AfterPong(r, m)| == |r|
  {
    assert AfterPong(r, m).Keys == r.Keys;
  }

  /** In a well-keyed registry a descriptor is stored exactly when its own
      key holds it, so no descriptor is stored twice. */
  lemma ValuesByKey(r: Registry)
    requires WellKeyed(r)
    ensures forall d :: d in r.Values <==> KeyOf(d) in r && r[KeyOf(d)] == d
  {
  }

  /** `devices` holds, in the order `order` lists them, the descriptors filed
      under the keys in `done`, each key once. */
  ghost predicate ListsValuesOf(r: Registry, done: set<string>, order: seq<string>, devices: seq<DeviceDescriptor>)
  {
    && |order| == |devices|
    && (forall i :: 0 <= i < |order| ==> order[i] in done && order[i] in r && devices[i] == r[order[i]])
    && (forall i, j :: 0 <= i < j < |order| ==> order[i] != order[j])
    && (forall k :: k in done ==> k in order)
  }

  /** A listing of every key holds exactly the registry's descriptors, each once. */
  lemma ListingComplete(r: Registry, order: seq<string>, devices: seq<DeviceDescriptor>)
    requires WellKeyed(r) && ListsValuesOf(r, r.Keys, order, devices)
    ensures |devices| == |r|
    ensures forall d :: d in devices <==> d in r.Values
    ensures forall i, j :: 0 <= i < j < |devices| ==> devices[i] != devices[j]
  {
    forall i, j | 0 <= i < j < |devices|
      ensures devices[i] != devices[j]
    {
      assert KeyOf(r[order[i]]) == order[i] && KeyOf(r[order[j]]) == order[j];
    }
    forall d | d in r.Values
      ensures d in devices
    {
      var k :| k in r && r[k] == d;
      var i :| 0 <= i < |order| && order[i] == k;
      assert devices[i] == d;
    }
    DistinctListSize(order, r.Keys);
  }

  /** A duplicate-free list of exactly the elements of a set is as long as the set is large. */
  lemma {:induction false} DistinctListSize(order: seq<string>, keys: set<string>)
    requires forall i, j :: 0 <= i < j < |order| ==> order[i] != order[j]
    requires forall i :: 0 <= i < |order| ==> order[i] in keys
    requires forall k :: k in keys ==> k in order
    ensures |order| == |keys|
    decreases |order|
  {
    if order != [] {
      var last := order[|order| - 1];
      var rest := order[..|order| - 1];
      forall k | k in keys - {last}
        ensures k in rest
      {
        var i :| 0 <= i < |order| && order[i] == k;
      }
      DistinctListSize(rest, keys - {last});
    }
  }

  /** `new ArrayList<>(map.values())`: the descriptors, taken key by key. */
  method CopyValues(registry: Registry) returns (devices: seq<DeviceDescriptor>, ghost order: seq<string>)
    ensures ListsValuesOf(registry, registry.Keys, order, devices)
  {
    var keys := registry.Keys;
    order := [];
    devices := [];
    while keys != {}
      invariant keys <= registry.Keys
      invariant ListsValuesOf(registry, registry.Keys - keys, order, devices)
      decreases |keys|
    {
      var k :| k in keys;
      devices := devices + [registry[k]];
      order := order + [k];
      keys := keys - {k};
    }
  }

  /** The cleanup task's removal test, which never removes anything. */
  predicate CleanupRemoves(key: string, d: DeviceDescriptor, cutoffMillis: int)
  {
    false
  }

  class CliNetworkManager {
    /** The bridges created, in creation order. */
    var bridges: seq<Bridge>
    var discovered: Registry
    var started: bool
    /** Whether the ping and cleanup tasks are scheduled. */
    var scheduled: bool
    /** Whether close has shut the scheduler down; it then refuses new tasks. */
    var shutDown: bool
    var published: seq<StatusUpdate>
    var calls: seq<BridgeCall>

    ghost predicate Valid()
      reads this
    {
      WellKeyed(discovered) && (scheduled ==> started) && (shutDown ==> !scheduled)
    }

    /** The constructor: create the bridges the network type selects (those
        whose constructor throws are skipped), then add each to the MultiBridge. */
    constructor (networkType: string, serialPort: Option<string>, env: Environment)
      ensures Valid()
      ensures bridges == SelectBridges(networkType, serialPort, env)
      ensures calls == AddCalls(bridges)
      ensures discovered == map[] && !started && !scheduled && !shutDown && published == []
    {
      bridges := [];
      discovered := map[];
      started := false;
      scheduled := false;
      shutDown := false;
      published := [];
      calls := [];
      new;
      InitializeBridges(networkType, serialPort, env);
    }

    /** initializeBridges: dispatch on the lower-cased network type, then add
        every created bridge to the MultiBridge. */
    method InitializeBridges(networkType: string, serialPort: Option<string>, env: Environment)
      modifies this
      ensures bridges == old(bridges) + SelectBridges(networkType, serialPort, env)
      ensures calls == old(calls) + AddCalls(bridges)
      ensures discovered == old(discovered) && started == old(started) && scheduled == old(scheduled) && shutDown == old(shutDown)
      ensures published == old(published)
    {
      CreateBridges(networkType, serialPort, env);
      AddBridgesToMultiBridge();
    }

    /** The switch of initializeBridges. */
    method CreateBridges(networkType: string, serialPort: Option<string>, env: Environment)
      modifies this
      ensures bridges == old(bridges) + SelectBridges(networkType, serialPort, env)
      ensures discovered == old(discovered) && started == old(started) && scheduled == old(scheduled) && shutDown == old(shutDown)
      ensures published == old(published) && calls == old(calls)
    {
      var t := AsciiLower(networkType);
      if t == "udp" {
        InitializeUdpBridge(env);
      } else if t == "serial" {
        InitializeSerialBridge(serialPort, env);
      } else {
        InitializeUdpBridge(env);
        InitializeSerialBridges(env);
      }
    }

    /** The loop of initializeBridges: add every bridge to the MultiBridge. */
    method AddBridgesToMultiBridge()
      modifies this
      ensures calls == old(calls) + AddCalls(bridges)
      ensures bridges == old(bridges) && discovered == old(discovered) && started == old(started)
      ensures scheduled == old(scheduled) && shutDown == old(shutDown) && published == old(published)
    {
      var i := 0;
      while i < |bridges|
        invariant 0 <= i <= |bridges| && bridges == old(bridges)
        invariant discovered == old(discovered) && started == old(started) && scheduled == old(scheduled) && shutDown == old(shutDown)
        invariant published == old(published)
        invariant calls == old(calls) + AddCalls(bridges[..i])
      {
        assert AddCalls(bridges[..i + 1]) == AddCalls(bridges[..i]) + [AddBridge(bridges[i])];
        calls := calls + [AddBridge(bridges[i])];
        i := i + 1;
      }
      assert bridges[..i] == bridges;
    }

    /** initializeSerialBridge: the given port when there is one and it is
        not empty, otherwise every available port. */
    method InitializeSerialBridge(serialPort: Option<string>, env: Environment)
      modifies this
      ensures bridges == old(bridges) + SerialBridgesFor(serialPort, env)
      ensures discovered == old(discovered) && started == old(started) && scheduled == old(scheduled) && shutDown == old(shutDown)
      ensures published == old(published) && calls == old(calls)
    {
      if serialPort.Some? && serialPort.value != "" {
        if serialPort.value !in env.brokenPorts {
          bridges := bridges + [Serial(serialPort.value)];
        }
      } else {
        InitializeSerialBridges(env);
      }
    }

    method InitializeUdpBridge(env: Environment)
      modifies this
      ensures bridges == old(bridges) + UdpBridges(env)
      ensures discovered == old(discovered) && started == old(started) && scheduled == old(scheduled) && shutDown == old(shutDown)
      ensures published == old(published) && calls == old(calls)
    {
      if env.udpAvailable {
        bridges := bridges + [Udp];
      }
    }

    method InitializeSerialBridges(env: Environment)
      modifies this
      ensures bridges == old(bridges) + SerialBridges(env.availableSerials, env.brokenPorts)
      ensures discovered == old(discovered) && started == old(started) && scheduled == old(scheduled) && shutDown == old(shutDown)
      ensures published == old(published) && calls == old(calls)
    {
      var ports := env.availableSerials;
      var i := 0;
      while i < |ports|
        invariant 0 <= i <= |ports|
        invariant bridges == old(bridges) + SerialBridges(ports[..i], env.brokenPorts)
        invariant discovered == old(discovered) && started == old(started) && scheduled == old(scheduled) && shutDown == old(shutDown)
        invariant published == old(published) && calls == old(calls)
      {
        SerialBridgesStep(ports, i, env.brokenPorts);
        if ports[i] !in env.brokenPorts {
          bridges := bridges + [Serial(ports[i])];
        }
        i := i + 1;
      }
      assert ports[..i] == ports;
    }

    /** start: a no-op once started; otherwise try to connect every bridge
        (a failure is logged and the rest are still tried), schedule the ping
        and cleanup tasks, and set the flag. */
    method Start() returns (rejected: bool)
      requires Valid()
      modifies this
      ensures Valid()
      ensures rejected <==> !old(started) && shutDown
      ensures old(started) ==> calls == old(calls) && started && scheduled == old(scheduled)
      ensures !old(started) ==> calls == old(calls) + ConnectCalls(bridges)
      ensures !old(started) && !rejected ==> started && scheduled
      ensures rejected ==> !started && !scheduled
      ensures bridges == old(bridges) && discovered == old(discovered) && published == old(published)
      ensures shutDown == old(shutDown)
    {
      if started {
        return false;
      }
      var i := 0;
      while i < |bridges|
        invariant 0 <= i <= |bridges| && !started && !scheduled && shutDown == old(shutDown) && bridges == old(bridges)
        invariant calls == old(calls) + ConnectCalls(bridges[..i])
        invariant discovered == old(discovered) && published == old(published)
      {
        assert ConnectCalls(bridges[..i + 1]) == ConnectCalls(bridges[..i]) + [Connect(bridges[i])];
        calls := calls + [Connect(bridges[i])];
        i := i + 1;
      }
      assert bridges[..i] == bridges;
      if shutDown {
        // scheduleAtFixedRate on a shut-down executor throws
        // RejectedExecutionException before `started` is set.
        return true;
      }
      scheduled := true;
      started := true;
      return false;
    }

    /** The ping task, every five seconds once started: send SYS_PING through
        the MultiBridge; a failure is logged. */
    method PingTick()
      requires Valid() && scheduled
      modifies this
      ensures Valid() && calls == old(calls) + [SendPing]
      ensures bridges == old(bridges) && discovered == old(discovered) && published == old(published)
      ensures started == old(started) && scheduled == old(scheduled) && shutDown == old(shutDown)
    {
      calls := calls + [SendPing];
    }

    /** The cleanup task, every thirty seconds once started: a removeIf whose
        test never holds, so every discovered device stays. */
    method CleanupTick(nowMillis: int)
      requires Valid() && scheduled
      modifies this
      ensures Valid() && discovered == old(discovered)
      ensures bridges == old(bridges) && calls == old(calls) && published == old(published)
      ensures started == old(started) && scheduled == old(scheduled) && shutDown == old(shutDown)
    {
      var cutoff := nowMillis - 30000;
      discovered := map k | k in discovered && !CleanupRemoves(k, discovered[k], cutoff) :: discovered[k];
    }

    /** acceptNetworkMessage and handleDevicePong. */
    method AcceptNetworkMessage(m: ReceivedMessage)
      requires Valid()
      modifies this
      ensures Valid()
      ensures discovered == AfterPong(old(discovered), m)
      ensures published == old(published) + PongNotices(old(discovered), m)
      ensures bridges == old(bridges) && calls == old(calls)
      ensures started == old(started) && scheduled == old(scheduled) && shutDown == old(shutDown)
    {
      if m.command == SYS_PONG {
        var payload := m.payload;
        if |payload| >= 3 {
          var device := DeviceDescriptor(m.remoteId, payload[0], payload[1], payload[2]);
          var key := m.remoteId + ":" + Decimal(Unsigned(payload[0]));
          var existed := key in discovered;
          discovered := discovered[key := device];
          if !existed {
            published := published + [DEVICES_CHANGED];
          }
        }
      }
    }

    /** getDiscoveredDevices: a new list holding each stored descriptor once.
        The list is a value, so changing it cannot reach the registry. */
    method GetDiscoveredDevices() returns (devices: seq<DeviceDescriptor>)
      requires Valid()
      ensures |devices| == |discovered|
      ensures forall d :: d in devices <==> d in discovered.Values
      ensures forall i, j :: 0 <= i < j < |devices| ==> devices[i] != devices[j]
    {
      var registry := discovered;
      ghost var order;
      devices, order := CopyValues(registry);
      ListingComplete(registry, order, devices);
    }

    /** close: shut the scheduled tasks down and close every bridge, logging failures. */
    method Close()
      requires Valid()
      modifies this
      ensures calls == old(calls) + CloseCalls(bridges)
      ensures Valid() && !scheduled && shutDown && started == old(started)
      ensures bridges == old(bridges) && discovered == old(discovered) && published == old(published)
    {
      scheduled := false;
      shutDown := true;
      var i := 0;
      while i < |bridges|
        invariant 0 <= i <= |bridges| && !scheduled && shutDown && started == old(started) && bridges == old(bridges)
        invariant calls == old(calls) + CloseCalls(bridges[..i])
        invariant discovered == old(discovered) && published == old(published)
      {
        assert CloseCalls(bridges[..i + 1]) == CloseCalls(bridges[..i]) + [CloseBridge(bridges[i])];
        calls := calls + [CloseBridge(bridges[i])];
        i := i + 1;
      }
      assert bridges[..i] == bridges;
    }
  }
}
