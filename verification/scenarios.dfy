/** The unit test's scenarios, stated over the model: a ZigBee local
    device whose `NT` reads 0x01 (or 0x05) and that receives no, one or two
    replies built by the test's own helper. */
module Scenarios {
  import opened Wrappers
  import opened ByteUtils
  import opened XBeeModels
  import opened DiscoveryTrace
  import opened Discovery
  import opened NdPayload
  import opened RunProperties
  import opened RecordingListener
  import opened ParameterValues
  import XBeeNetwork

  /** Every reply that parses yields exactly one device, in reply order. */
  lemma {:induction false} DevicesFromAllParse(replies: seq<Bytes>, local: Protocol)
    requires forall i :: 0 <= i < |replies| ==> ParseDiscoveryData(replies[i], local).Success?
    ensures var ds := DevicesFrom(replies, local);
      && |ds| == |replies|
      && forall i :: 0 <= i < |replies| ==> ds[i] == ParseDiscoveryData(replies[i], local).value
  {
    if |replies| > 0 {
      var rest := replies[1..];
      assert forall i :: 0 <= i < |rest| ==> rest[i] == replies[i + 1];
      DevicesFromAllParse(rest, local);
    }
  }

  /** When every reply parses, a run with N replies parses N payloads,
      adds N devices and reports N devices, and the listener holds N devices. */
  lemma RunCounts(nd: NodeDiscovery, req: Request, env: Env)
    requires Accepted(nd, req)
    requires forall i :: 0 <= i < |env.replies| ==> ParseDiscoveryData(env.replies[i], nd.device.protocol).Success?
    ensures var t := DiscoverDevices(nd, req, env).trace;
      && |Parsed(t)| == |env.replies|
      && |Added(t)| == |env.replies|
      && |Discovered(t)| == |env.replies|
      && |Replay(Fresh, t).discovered| == |env.replies|
  {
    DevicesFromAllParse(env.replies, nd.device.protocol);
    RunReports(nd, req, env);
    RunListener(nd, req, env);
  }

  /** The setup every scenario shares: an open device whose `NT` reads
      `nt`, a listener, no options and the device's own timeout. */
  predicate DeviceTimeoutSetup(nd: NodeDiscovery, req: Request, nt: Bytes) {
    && nd.device.open
    && NT in nd.device.params && nd.device.params[NT] == nt
    && req == Request(true, None, UseDeviceTimeout)
  }

  /** The same setup on a ZigBee device. */
  predicate ZigBeeSetup(nd: NodeDiscovery, req: Request, nt: Bytes) {
    DeviceTimeoutSetup(nd, req, nt) && nd.device.protocol == ZigBee
  }

  const MAC_1: Address64 := Address64([0x00, 0x13, 0xA2, 0x00, 0x40, 0xA6, 0xA0, 0xDB])
  const MAC_2: Address64 := Address64([0x00, 0x13, 0xA2, 0x00, 0x40, 0xAD, 0x15, 0x85])
  const ADDR_1: Address16 := Address16([0x00, 0x00])
  const ADDR_2: Address16 := Address16([0x79, 0x71])
  const PARENT_1: Address16 := Address16([0xFF, 0xFE])
  const PARENT_2: Address16 := Address16([0x00, 0x00])

  /** No reply: collection lasts 100 ms, the listener finishes with no
      device, and nothing is added to the network. */
  lemma NoDevices(nd: NodeDiscovery, req: Request, env: Env)
    requires DeviceTimeoutSetup(nd, req, [0x01]) && env.replies == []
    ensures var o := DiscoverDevices(nd, req, env);
      && o.thrown.None?
      && Windows(o.trace) == [100]
      && Parsed(o.trace) == [] && Added(o.trace) == [] && Discovered(o.trace) == []
      && Replay(Fresh, o.trace).discovered == []
      && Replay(Fresh, o.trace).finished
      && o.after.deviceList == []
      && o.after.device.network == nd.device.network
  {
    RunWindow(nd, req, env);
    NtMillisOneByte(0x01);
    RunReports(nd, req, env);
    RunListener(nd, req, env);
    RunNetwork(nd, req, env);
  }

  /** One reply from the coordinator: the listener receives one ZigBee
      device with the reply's node identifier and addresses. */
  lemma OneZigBeeDevice(nd: NodeDiscovery, req: Request, env: Env)
    requires ZigBeeSetup(nd, req, [0x01])
    requires env.replies == [CreatePacket(1, Ok, ADDR_1, MAC_1, "Ni string", PARENT_1, 0x00, 0x49).value]
    ensures var r := Replay(Fresh, DiscoverDevices(nd, req, env).trace);
      && r.finished && r.finishError == None
      && |r.discovered| == 1
      && r.discovered[0].kind == RemoteZigBee && r.discovered[0].protocol == ZigBee
      && r.discovered[0].nodeId == "Ni string"
      && r.discovered[0].addr64 == MAC_1 && r.discovered[0].addr16 == Some(ADDR_1)
  {
    ParseCreatePacket(1, Ok, ADDR_1, MAC_1, "Ni string", PARENT_1, 0x00, 0x49, ZigBee);
    DevicesFromAllParse(env.replies, ZigBee);
    RunListener(nd, req, env);
  }

  /** Two replies, from the coordinator and from a router: the listener
      receives both devices, in arrival order, each with its own node
      identifier and addresses. */
  lemma TwoZigBeeDevices(nd: NodeDiscovery, req: Request, env: Env)
    requires ZigBeeSetup(nd, req, [0x05])
    requires env.replies == [CreatePacket(1, Ok, ADDR_1, MAC_1, "Ni string 1", PARENT_1, 0x00, 0x49).value,
                             CreatePacket(1, Ok, ADDR_2, MAC_2, "Ni string 2", PARENT_2, 0x01, 0x67).value]
    ensures var r := Replay(Fresh, DiscoverDevices(nd, req, env).trace);
      && r.finished && r.finishError == None
      && |r.discovered| == 2
      && r.discovered[0].kind == RemoteZigBee && r.discovered[1].kind == RemoteZigBee
      && r.discovered[0].nodeId == "Ni string 1" && r.discovered[1].nodeId == "Ni string 2"
      && r.discovered[0].addr64 == MAC_1 && r.discovered[1].addr64 == MAC_2
      && r.discovered[0].addr16 == Some(ADDR_1) && r.discovered[1].addr16 == Some(ADDR_2)
  {
    var d1 := NewRemoteDevice(ZigBee, MAC_1, ADDR_1, "Ni string 1", PARENT_1, RoleOf(0x49));
    var d2 := NewRemoteDevice(ZigBee, MAC_2, ADDR_2, "Ni string 2", PARENT_2, RoleOf(0x67));
    TwoReplies(ADDR_1, MAC_1, "Ni string 1", PARENT_1, 0x00, 0x49,
               ADDR_2, MAC_2, "Ni string 2", PARENT_2, 0x01, 0x67, ZigBee);
    RunListener(nd, req, env);
    TwoZigBeeFields(d1, d2);
  }

  lemma TwoZigBeeFields(d1: RemoteDevice, d2: RemoteDevice)
    requires d1 == NewRemoteDevice(ZigBee, MAC_1, ADDR_1, "Ni string 1", PARENT_1, RoleOf(0x49))
    requires d2 == NewRemoteDevice(ZigBee, MAC_2, ADDR_2, "Ni string 2", PARENT_2, RoleOf(0x67))
    ensures var ds := [d1, d2];
      && |ds| == 2
      && ds[0].kind == RemoteZigBee && ds[1].kind == RemoteZigBee
      && ds[0].nodeId == "Ni string 1" && ds[1].nodeId == "Ni string 2"
      && ds[0].addr64 == MAC_1 && ds[1].addr64 == MAC_2
      && ds[0].addr16 == Some(ADDR_1) && ds[1].addr16 == Some(ADDR_2)
  {
  }

  /** Two replies built by the test's helper yield their two devices, in order. */
  lemma TwoReplies(addr16: Address16, addr64: Address64, ni: string, parent: Address16, role: byte, rssi: byte,
                   addr16': Address16, addr64': Address64, ni': string, parent': Address16, role': byte, rssi': byte,
                   local: Protocol)
    requires ValidNodeId(ni) && ValidNodeId(ni')
    ensures DevicesFrom([CreatePacket(1, Ok, addr16, addr64, ni, parent, role, rssi).value,
                         CreatePacket(1, Ok, addr16', addr64', ni', parent', role', rssi').value], local)
         == [NewRemoteDevice(local, addr64, addr16, ni, parent, RoleOf(rssi)),
             NewRemoteDevice(local, addr64', addr16', ni', parent', RoleOf(rssi'))]
  {
    var a := CreatePacket(1, Ok, addr16, addr64, ni, parent, role, rssi).value;
    var b := CreatePacket(1, Ok, addr16', addr64', ni', parent', role', rssi').value;
    ReplyOfCreatePacket(addr16, addr64, ni, parent, role, rssi, local);
    ReplyOfCreatePacket(addr16', addr64', ni', parent', role', rssi', local);
    DevicesFromTwo(a, b, local);
  }

  lemma DevicesFromTwo(a: Bytes, b: Bytes, local: Protocol)
    ensures DevicesFrom([a, b], local) == ReplyDevice(a, local) + ReplyDevice(b, local)
  {
    assert [a, b][1..] == [b];
    assert [b][1..] == [];
  }

  /** A reply built by the test's helper yields one device. */
  lemma ReplyOfCreatePacket(addr16: Address16, addr64: Address64, ni: string, parent: Address16,
                            role: byte, rssi: byte, local: Protocol)
    requires ValidNodeId(ni)
    ensures ReplyDevice(CreatePacket(1, Ok, addr16, addr64, ni, parent, role, rssi).value, local)
         == [NewRemoteDevice(local, addr64, addr16, ni, parent, RoleOf(rssi))]
  {
    ParseCreatePacket(1, Ok, addr16, addr64, ni, parent, role, rssi, local);
  }

}
