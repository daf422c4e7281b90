/** The API server's NetworkManager: the table of recently seen devices, fed
    by pongs and culled by the pinger, the started flag, and the bookkeeping
    of connecting and closing bridges. The MultiBridge and the bridges are not
    modelled inside: the manager's calls on them are recorded in order, and
    whether a connect or close throws is an input. */
module ApiNetwork {
  import opened Common
  import opened MoppyCore

  /** Instants are counted in nanoseconds. */
  const NANOS_PER_SECOND: int := 1000000000

  /** A device not seen for longer than this is culled. */
  const DEVICE_TTL: int := 10 * NANOS_PER_SECOND

  /** recentlySeenDevices: each descriptor with the instant it last answered. */
  type Table = map<DeviceDescriptor, int>

  /** A message the manager acts on: a system message whose command is
      SYS_PONG and whose payload holds at least three bytes. */
  predicate IsDevicePong(m: ReceivedMessage)
  {
    m.isSystem && m.command == SYS_PONG && |m.payload| >= 3
  }

  /** The descriptor a pong announces: network "<networkId> - <remoteId>",
      device, lowest and highest sub-address from the first three payload bytes. */
  function PongDescriptor(m: ReceivedMessage): (d: DeviceDescriptor)
    requires |m.payload| >= 3
  {
    DeviceDescriptor(m.networkId + " - " + m.remoteId, m.payload[0], m.payload[1], m.payload[2])
  }

  /** The table after a received message: a device pong records `now` for its
      descriptor; every other message leaves the table as it was. */
  function AfterMessage(t: Table, m: ReceivedMessage, now: int): (r: Table)
  {
    if IsDevicePong(m) then t[PongDescriptor(m) := now] else t
  }

  /** What the manager publishes for a received message: NET_DEVICES_CHANGED
      exactly when a device pong names a descriptor the table did not hold. */
  function PongNotices(t: Table, m: ReceivedMessage): seq<StatusUpdate>
  {
    if IsDevicePong(m) && PongDescriptor(m) !in t then [DEVICES_CHANGED] else []
  }

  /** The cull test: ten seconds minus the age is negative. */
  predicate IsStale(lastSeen: int, now: int)
  {
    DEVICE_TTL - (now - lastSeen) < 0
  }

  /** The entries the pinger removes at `now`. */
  function StaleDevices(t: Table, now: int): set<DeviceDescriptor>
  {
    set d | d in t && IsStale(t[d], now)
  }

  /** The table after the pinger's cull at `now`. */
  function Cull(t: Table, now: int): Table
  {
    map d | d in t && !IsStale(t[d], now) :: t[d]
  }

  /** What the pinger publishes after a cull: NET_DEVICES_CHANGED when it removed something. */
  function CullNotices(t: Table, now: int): seq<StatusUpdate>
  {
    if StaleDevices(t, now) != {} then [DEVICES_CHANGED] else []
  }

  /** A message that is not a device pong changes nothing and publishes nothing. */
  lemma OtherMessagesIgnored(t: Table, m: ReceivedMessage, now: int)
    requires !m.isSystem || m.command != SYS_PONG || |m.payload| < 3
    ensures AfterMessage(t, m, now) == t && PongNotices(t, m) == []
  {
  }

  /** A pong maps its descriptor to `now`, adds no other key, and leaves every
      other entry's instant as it was. */
  lemma PongRecordsNow(t: Table, m: ReceivedMessage, now: int)
    requires IsDevicePong(m)
    ensures AfterMessage(t, m, now).Keys == t.Keys + {PongDescriptor(m)}
    ensures AfterMessage(t, m, now)[PongDescriptor(m)] == now
    ensures forall d :: d in t && d != PongDescriptor(m) ==> AfterMessage(t, m, now)[d] == t[d]
  {
  }

  /** Payload bytes after the third do not enter the descriptor. */
  lemma ExtraPayloadIgnored(m: ReceivedMessage, extra: seq<JByte>)
    requires |m.payload| >= 3
    ensures PongDescriptor(m.(payload := m.payload + extra)) == PongDescriptor(m)
  {
  }

  /** A repeated pong only refreshes the instant: it publishes nothing. */
  lemma RepeatPongIsSilent(t: Table, m: ReceivedMessage, first: int, again: int)
    requires IsDevicePong(m)
    ensures PongNotices(AfterMessage(t, m, first), m) == []
    ensures AfterMessage(AfterMessage(t, m, first), m, again) == AfterMessage(t, m, again)
  {
  }

  /** The device count grows by one exactly when the pong publishes, and
      otherwise stays the same. */
  lemma PongCountMatchesNotice(t: Table, m: ReceivedMessage, now: int)
    ensures |AfterMessage(t, m, now)| == |t| + |PongNotices(t, m)|
  {
    if IsDevicePong(m) {
      var d := PongDescriptor(m);
      var r := AfterMessage(t, m, now);
      if d in t {
        assert r.Keys == t.Keys;
      } else {
        assert r.Keys == t.Keys + {d};
        assert |r.Keys| == |t.Keys| + 1;
      }
    }
  }

  /** The cull removes exactly the entries older than ten seconds: an entry
      exactly ten seconds old stays, and survivors keep their instants. */
  lemma CullRemovesExactlyStale(t: Table, now: int)
    ensures forall d :: d in Cull(t, now) <==> d in t && now - t[d] <= DEVICE_TTL
    ensures forall d :: d in Cull(t, now) ==> Cull(t, now)[d] == t[d]
    ensures Cull(t, now).Keys == t.Keys - StaleDevices(t, now)
  {
  }

  /** The cull publishes if and only if it changed the table, which it does
      exactly when it made the table smaller. */
  lemma {:induction false} CullNoticeIffRemoved(t: Table, now: int)
    ensures CullNotices(t, now) != [] <==> Cull(t, now) != t
    ensures CullNotices(t, now) != [] <==> |Cull(t, now)| < |t|
  {
    var r := Cull(t, now);
    var stale := StaleDevices(t, now);
    assert r.Keys == t.Keys - stale;
    assert stale <= t.Keys;
    if stale != {} {
      var d :| d in stale;
      assert d !in r;
      assert r != t;
      assert r.Keys < t.Keys;
      SubsetIsSmaller(r.Keys, t.Keys);
    } else {
      assert r.Keys == t.Keys;
      assert r == t;
    }
  }

  /** A device that answered at `seen` is still listed at any cull up to ten
      seconds later. */
  lemma PongSurvivesTtl(t: Table, m: ReceivedMessage, seen: int, now: int)
    requires IsDevicePong(m) && seen <= now <= seen + DEVICE_TTL
    ensures PongDescriptor(m) in Cull(AfterMessage(t, m, seen), now)
  {
  }

  /** A device silent for longer than ten seconds is gone after one cull, and
      a second cull at the same instant changes nothing. */
  lemma SilentDeviceGone(t: Table, d: DeviceDescriptor, now: int)
    requires d in t && now - t[d] > DEVICE_TTL
    ensures d !in Cull(t, now)
    ensures Cull(Cull(t, now), now) == Cull(t, now)
  {
  }

  /** Culling later never keeps more devices than culling earlier. */
  lemma CullMonotone(t: Table, earlier: int, later: int)
    requires earlier <= later
    ensures Cull(t, later).Keys <= Cull(t, earlier).Keys
  {
  }

  /** A call the manager makes on a bridge or on the MultiBridge. */
  datatype BridgeCall =
    | Connect(id: string, option: Option<string>)
    | RegisterReceiver(id: string)
    | AddBridge(id: string)
    | RemoveBridge(id: string)
    | DeregisterReceiver(id: string)
    | CloseBridge(id: string)
    | SendPing

  /** How a bridge operation ended: normally, with IllegalArgumentException,
      or with the IOException the bridge threw. */
  datatype Outcome = Completed | IllegalArgument(message: string) | IOFailure

  /** The calls of connectBridge on a known bridge: connect, and only when that
      returned, register the MultiBridge as receiver and add the bridge to it. */
  function ConnectCalls(id: string, option: Option<string>, fails: bool): seq<BridgeCall>
  {
    [Connect(id, option)] + (if fails then [] else [RegisterReceiver(id), AddBridge(id)])
  }

  /** The calls of closeBridge on a known bridge. */
  function CloseCalls(id: string): seq<BridgeCall>
  {
    [RemoveBridge(id), DeregisterReceiver(id), CloseBridge(id)]
  }

  /** start's calls: connectBridge(id, null) for each bridge in iteration order. */
  function ConnectAllCalls(order: seq<string>, failing: set<string>): seq<BridgeCall>
  {
    if order == [] then []
    else ConnectAllCalls(order[..|order| - 1], failing) + ConnectCalls(order[|order| - 1], None, order[|order| - 1] in failing)
  }

  /** close's calls: closeBridge(id) for each bridge in iteration order. */
  function CloseAllCalls(order: seq<string>): seq<BridgeCall>
  {
    if order == [] then [] else CloseAllCalls(order[..|order| - 1]) + CloseCalls(order[|order| - 1])
  }

  /** The identifiers a sequence lists. */
  function Members(order: seq<string>): set<string>
  {
    set x | x in order
  }

  /** `order` lists every element of `ids` exactly once: a HashMap's iteration order. */
  predicate ListsEachOnce(order: seq<string>, ids: set<string>)
  {
    (forall i, j :: 0 <= i < j < |order| ==> order[i] != order[j]) && Members(order) == ids
  }

  class NetworkManager {
    /** The identifiers of the bridges created at construction (networkBridges). */
    const bridgeIds: set<string>
    /** The bridges currently added to the MultiBridge. */
    var attached: set<string>
    /** recentlySeenDevices. */
    var seen: Table
    var isStarted: bool
    /** pingerThread != null. */
    var pingerRunning: bool
    /** Everything published on the status bus, oldest first. */
    var published: seq<StatusUpdate>
    /** Every call made on the bridges and the MultiBridge, oldest first. */
    var calls: seq<BridgeCall>

    /** Only bridges the manager created are ever attached. */
    ghost predicate AttachedKnown()
      reads this
    {
      attached <= bridgeIds
    }

    /** Between calls the pinger runs exactly while the manager is started. */
    ghost predicate Valid()
      reads this
    {
      AttachedKnown() && (isStarted <==> pingerRunning)
    }

    /** A new manager over the bridges whose construction succeeded. */
    constructor (created: set<string>)
      ensures Valid()
      ensures bridgeIds == created && attached == {} && seen == map[]
      ensures !isStarted && published == [] && calls == []
    {
      bridgeIds := created;
      attached := {};
      seen := map[];
      isStarted := false;
      pingerRunning := false;
      published := [];
      calls := [];
    }

    /** getDiscoveredDeviceCount. */
    function DiscoveredDeviceCount(): (n: nat)
      reads this
      ensures n == 0 <==> seen == map[]
    {
      |seen|
    }

    /** acceptNetworkMessage, with `now` the instant Instant.now() returns. */
    method AcceptNetworkMessage(m: ReceivedMessage, now: int)
      requires Valid()
      modifies this
      ensures Valid()
      ensures seen == AfterMessage(old(seen), m, now)
      ensures published == old(published) + PongNotices(old(seen), m)
      ensures attached == old(attached) && calls == old(calls)
      ensures isStarted == old(isStarted) && pingerRunning == old(pingerRunning)
    {
      if m.isSystem && m.command == SYS_PONG {
        var payload := m.payload;
        if |payload| >= 3 {
          var dd := DeviceDescriptor(m.networkId + " - " + m.remoteId, payload[0], payload[1], payload[2]);
          var wasPresent := dd in seen;
          seen := seen[dd := now];
          if !wasPresent {
            published := published + [DEVICES_CHANGED];
          }
        }
      }
    }

    /** One pass of the pinger's loop: send SYS_PING through the MultiBridge
        (a failure is logged and ignored), sleep, then cull at `now` and publish
        if anything was removed. An interrupt during the sleep ends the loop
        before the cull; the result says whether the loop goes on. */
    method PingerIteration(sendFails: bool, interruptedInSleep: bool, now: int) returns (continues: bool)
      requires Valid()
      modifies this
      ensures Valid()
      ensures calls == old(calls) + [SendPing]
      ensures continues == !interruptedInSleep
      ensures interruptedInSleep ==> seen == old(seen) && published == old(published)
      ensures !interruptedInSleep ==> seen == Cull(old(seen), now) && published == old(published) + CullNotices(old(seen), now)
      ensures attached == old(attached) && isStarted == old(isStarted) && pingerRunning == old(pingerRunning)
    {
      calls := calls + [SendPing];
      if interruptedInSleep {
        return false;
      }
      var stale := set d | d in seen && IsStale(seen[d], now);
      seen := map d | d in seen && !IsStale(seen[d], now) :: seen[d];
      if stale != {} {
        published := published + [DEVICES_CHANGED];
      }
      return true;
    }

    /** connectBridge: an unknown identifier throws IllegalArgumentException
        before anything else; for a known one NET_STATUS_CHANGED is published
        whether or not connect threw. */
    method ConnectBridge(id: string, option: Option<string>, connectFails: bool) returns (outcome: Outcome)
      requires AttachedKnown()
      modifies this
      ensures AttachedKnown()
      ensures id !in bridgeIds ==>
        outcome == IllegalArgument("Unknown bridge identifier: " + id) &&
        calls == old(calls) && published == old(published) && attached == old(attached)
      ensures id in bridgeIds ==>
        && outcome == (if connectFails then IOFailure else Completed)
        && calls == old(calls) + ConnectCalls(id, option, connectFails)
        && published == old(published) + [STATUS_CHANGED]
        && attached == (if connectFails then old(attached) else old(attached) + {id})
      ensures seen == old(seen) && isStarted == old(isStarted) && pingerRunning == old(pingerRunning)
    {
      if id !in bridgeIds {
        return IllegalArgument("Unknown bridge identifier: " + id);
      }
      calls := calls + [Connect(id, option)];
      if connectFails {
        outcome := IOFailure;
      } else {
        calls := calls + [RegisterReceiver(id), AddBridge(id)];
        attached := attached + {id};
        outcome := Completed;
      }
      published := published + [STATUS_CHANGED];
    }

    /** closeBridge: an unknown identifier is a silent no-op; for a known one
        the bridge leaves the MultiBridge, is closed, and NET_STATUS_CHANGED is
        published even when close throws. */
    method CloseBridgeById(id: string, closeFails: bool) returns (outcome: Outcome)
      requires AttachedKnown()
      modifies this
      ensures AttachedKnown()
      ensures id !in bridgeIds ==>
        outcome == Completed && calls == old(calls) && published == old(published) && attached == old(attached)
      ensures id in bridgeIds ==>
        && outcome == (if closeFails then IOFailure else Completed)
        && calls == old(calls) + CloseCalls(id)
        && published == old(published) + [STATUS_CHANGED]
        && attached == old(attached) - {id}
      ensures seen == old(seen) && isStarted == old(isStarted) && pingerRunning == old(pingerRunning)
    {
      if id !in bridgeIds {
        return Completed;
      }
      calls := calls + CloseCalls(id);
      attached := attached - {id};
      published := published + [STATUS_CHANGED];
      outcome := if closeFails then IOFailure else Completed;
    }

    /** start: a no-op once started; otherwise connect every bridge in the
        map's iteration order (failures are logged), start the pinger, and set
        the started flag. */
    method Start(order: seq<string>, failing: set<string>)
      requires Valid() && ListsEachOnce(order, bridgeIds)
      modifies this
      ensures Valid() && isStarted && seen == old(seen)
      ensures old(isStarted) ==> calls == old(calls) && published == old(published) && attached == old(attached)
      ensures !old(isStarted) ==>
        && calls == old(calls) + ConnectAllCalls(order, failing)
        && published == old(published) + Repeated(STATUS_CHANGED, |order|)
        && attached == old(attached) + (bridgeIds - failing)
    {
      if isStarted {
        return;
      }
      ConnectAll(order, failing);
      pingerRunning := true;
      isStarted := true;
    }

    /** The loop of start: connectBridge(id, null) for every bridge in turn. */
    method ConnectAll(order: seq<string>, failing: set<string>)
      requires AttachedKnown() && Members(order) <= bridgeIds
      modifies this
      ensures AttachedKnown()
      ensures calls == old(calls) + ConnectAllCalls(order, failing)
      ensures published == old(published) + Repeated(STATUS_CHANGED, |order|)
      ensures attached == old(attached) + (Members(order) - failing)
      ensures seen == old(seen) && isStarted == old(isStarted) && pingerRunning == old(pingerRunning)
    {
      var i := 0;
      while i < |order|
        invariant 0 <= i <= |order|
        invariant AttachedKnown() && seen == old(seen)
        invariant isStarted == old(isStarted) && pingerRunning == old(pingerRunning)
        invariant calls == old(calls) + ConnectAllCalls(order[..i], failing)
        invariant published == old(published) + Repeated(STATUS_CHANGED, i)
        invariant attached == old(attached) + (Members(order[..i]) - failing)
      {
        var id := order[i];
        assert id in bridgeIds;
        var _ := ConnectBridge(id, None, id in failing);
        assert order[..i + 1][..i] == order[..i];
        assert Members(order[..i + 1]) == Members(order[..i]) + {id};
        i := i + 1;
      }
      assert order[..i] == order;
    }

    /** close: a no-op unless started; otherwise stop the pinger, close every
        bridge in the map's iteration order (failures are logged), and clear
        the started flag. */
    method Close(order: seq<string>, failing: set<string>)
      requires Valid() && ListsEachOnce(order, bridgeIds)
      modifies this
      ensures Valid() && !isStarted && !pingerRunning && seen == old(seen)
      ensures !old(isStarted) ==> calls == old(calls) && published == old(published) && attached == old(attached)
      ensures old(isStarted) ==>
        && calls == old(calls) + CloseAllCalls(order)
        && published == old(published) + Repeated(STATUS_CHANGED, |order|)
        && attached == {}
    {
      if !isStarted {
        return;
      }
      pingerRunning := false;
      var i := 0;
      while i < |order|
        invariant 0 <= i <= |order|
        invariant AttachedKnown() && isStarted && !pingerRunning && seen == old(seen)
        invariant calls == old(calls) + CloseAllCalls(order[..i])
        invariant published == old(published) + Repeated(STATUS_CHANGED, i)
        invariant attached == old(attached) - Members(order[..i])
      {
        var id := order[i];
        assert id in bridgeIds;
        var _ := CloseBridgeById(id, id in failing);
        assert order[..i + 1][..i] == order[..i];
        assert Members(order[..i + 1]) == Members(order[..i]) + {id};
        i := i + 1;
      }
      assert order[..i] == order;
      isStarted := false;
    }
  }
}
