/** The payload of a node-discovery (`ND`) reply: the encoder the unit test
    uses to fabricate replies (`createPacket`) and the parser that turns a
    payload back into a remote device.

    Layout, with `n` the length of the node identifier:
      [0, 2)          16-bit network address
      [2, 10)         64-bit hardware address
      [10, 10 + n)    node identifier, then a 0x00 terminator at 10 + n
      [11 + n, 13 + n) parent 16-bit address
      13 + n          role ("device type")
      14 + n          status
      [15 + n, 17 + n) profile, [17 + n, 19 + n) manufacturer, [19 + n, 23 + n) device type id
      23 + n          signal strength (RSSI) */
module NdPayload {
  import opened Wrappers
  import opened ByteUtils
  import opened XBeeModels

  /** Status of an AT command response (`ATCommandStatus`). */
  datatype AtCommandStatus = Ok | Error | InvalidCommand | InvalidParameter | TxFailure

  /** An AT command response frame (`ATCommandResponsePacket`). */
  datatype AtCommandResponse = AtCommandResponse(frameId: int, status: AtCommandStatus, command: string, value: Bytes)

  const ND_COMMAND: string := "ND"
  const PROFILE: Bytes := [0xC1, 0x05]
  const MANUFACTURER: Bytes := [0x10, 0x1E]
  const DEVICE_TYPE_ID: Bytes := [0x00, 0x03, 0x00, 0x00]

  /** Node identifiers the encoder handles: one byte per character and no
      0x00, which would end the identifier early. */
  predicate ValidNodeId(ni: string) {
    forall i :: 0 <= i < |ni| ==> 0 < ni[i] as int < 128
  }

  /** `String.getBytes` on an identifier of single-byte characters. */
  function NodeIdBytes(ni: string): (b: Bytes)
    requires ValidNodeId(ni)
    ensures |b| == |ni|
    ensures forall i :: 0 <= i < |ni| ==> b[i] == ni[i] as int && b[i] != 0
  {
    seq(|ni|, i requires 0 <= i < |ni| => ni[i] as int)
  }

  /** Reads bytes as characters, one character per byte. */
  function BytesToString(b: Bytes): (s: string)
    ensures |s| == |b|
    ensures forall i :: 0 <= i < |b| ==> s[i] as int == b[i]
  {
    seq(|b|, i requires 0 <= i < |b| => b[i] as char)
  }

  lemma NodeIdRoundTrip(ni: string)
    requires ValidNodeId(ni)
    ensures BytesToString(NodeIdBytes(ni)) == ni
  {
  }

  /** `System.arraycopy(src, 0, buf, off, |src|)`. */
  function ArrayCopy(buf: Bytes, off: nat, src: Bytes): (r: Bytes)
    requires off + |src| <= |buf|
    ensures |r| == |buf|
    ensures forall i :: 0 <= i < |buf| ==> r[i] == if off <= i < off + |src| then src[i - off] else buf[i]
  {
    buf[..off] + src + buf[off + |src|..]
  }

  /** The reply payload laid out field by field, with explicit contents of
      the role slot (offset 13 + n) and of the signal-strength slot (the last byte). */
  function Layout(addr16: Address16, addr64: Address64, ni: string, parent: Address16,
                  roleSlot: byte, rssiSlot: byte): (v: Bytes)
    requires ValidNodeId(ni)
    ensures |v| == 24 + |ni|
  {
    addr16.value + addr64.value + NodeIdBytes(ni) + [0] + parent.value
      + [roleSlot, 0] + PROFILE + MANUFACTURER + DEVICE_TYPE_ID + [rssiSlot]
  }

  /** The fields of `createPacket` up to (and excluding) its final write. */
  function CreatePacketFields(addr16: Address16, addr64: Address64, ni: string,
                              parent: Address16, role: byte): (v: Bytes)
    requires ValidNodeId(ni)
    ensures |v| == 24 + |ni|
  {
    var n := |ni|;
    var v0: Bytes := seq(24 + n, _ => 0);
    var v1 := ArrayCopy(v0, 0, addr16.value);
    var v2 := ArrayCopy(v1, 2, addr64.value);
    var v3 := ArrayCopy(v2, 10, NodeIdBytes(ni));
    var v4 := v3[10 + n := 0];
    var v5 := ArrayCopy(v4, 11 + n, parent.value);
    var v6 := v5[13 + n := role];
    var v7 := v6[14 + n := 0];
    var v8 := ArrayCopy(v7, 15 + n, PROFILE);
    var v9 := ArrayCopy(v8, 17 + n, MANUFACTURER);
    ArrayCopy(v9, 19 + n, DEVICE_TYPE_ID)
  }

  /** The test helper `createPacket` as written: its last write stores the
      signal strength at offset 13 + n, over the role. */
  function CreatePacket(frameId: int, status: AtCommandStatus, addr16: Address16, addr64: Address64,
                        ni: string, parent: Address16, role: byte, rssi: byte): (p: AtCommandResponse)
    requires ValidNodeId(ni)
    ensures p.frameId == frameId && p.status == status && p.command == ND_COMMAND
    ensures p.value == Layout(addr16, addr64, ni, parent, rssi, 0)
  {
    var v := CreatePacketFields(addr16, addr64, ni, parent, role);
    FieldsLayout(addr16, addr64, ni, parent, role);
    AtCommandResponse(frameId, status, ND_COMMAND, v[13 + |ni| := rssi])
  }

  /** `createPacket` with its last write aimed at the signal-strength slot (23 + n). */
  function CreateIntendedPacket(frameId: int, status: AtCommandStatus, addr16: Address16, addr64: Address64,
                                ni: string, parent: Address16, role: byte, rssi: byte): (p: AtCommandResponse)
    requires ValidNodeId(ni)
    ensures p.frameId == frameId && p.status == status && p.command == ND_COMMAND
    ensures p.value == Layout(addr16, addr64, ni, parent, role, rssi)
  {
    var v := CreatePacketFields(addr16, addr64, ni, parent, role);
    FieldsLayout(addr16, addr64, ni, parent, role);
    AtCommandResponse(frameId, status, ND_COMMAND, v[23 + |ni| := rssi])
  }

  /** The helper's writes produce the documented layout with the role in place
      and the signal-strength slot still zero. */
  lemma FieldsLayout(addr16: Address16, addr64: Address64, ni: string, parent: Address16, role: byte)
    requires ValidNodeId(ni)
    ensures CreatePacketFields(addr16, addr64, ni, parent, role) == Layout(addr16, addr64, ni, parent, role, 0)
  {
    var n := |ni|;
    var v := CreatePacketFields(addr16, addr64, ni, parent, role);
    var w := Layout(addr16, addr64, ni, parent, role, 0);
    forall i | 0 <= i < 24 + n
      ensures v[i] == w[i]
    {
      if i < 2 {
        assert w[i] == addr16.value[i];
      } else if i < 10 {
        assert w[i] == addr64.value[i - 2];
      } else if i < 10 + n {
        assert w[i] == NodeIdBytes(ni)[i - 10];
      } else if i < 11 + n {
      } else if i < 13 + n {
        assert w[i] == parent.value[i - 11 - n];
      } else if i < 15 + n {
      } else if i < 17 + n {
        assert w[i] == PROFILE[i - 15 - n];
      } else if i < 19 + n {
        assert w[i] == MANUFACTURER[i - 17 - n];
      } else if i < 23 + n {
        assert w[i] == DEVICE_TYPE_ID[i - 19 - n];
      }
    }
  }

  /** The first 0x00 at or after `from`, if any. */
  function FindZero(s: Bytes, from: nat): (r: Option<nat>)
    requires from <= |s|
    ensures r.Some? ==> from <= r.value < |s| && s[r.value] == 0
    ensures r.Some? ==> forall j :: from <= j < r.value ==> s[j] != 0
    ensures r.None? ==> forall j :: from <= j < |s| ==> s[j] != 0
    decreases |s| - from
  {
    if from == |s| then None
    else if s[from] == 0 then Some(from)
    else FindZero(s, from + 1)
  }

  /** Why a reply payload could not be parsed. */
  datatype ParseError = TooShort | UnterminatedNodeId

  /** `parseDiscoveryAPIData`: reads the addresses, the 0x00-terminated node
      identifier, the parent address and the role byte; what follows is not
      interpreted. The device class follows the local protocol. */
  function ParseDiscoveryData(payload: Bytes, local: Protocol): (r: Result<RemoteDevice, ParseError>)
    ensures r.Success? ==> var d := r.value;
      && d.protocol == local && d.kind == KindFor(local)
      && 14 + |d.nodeId| <= |payload|
      && d.addr64.value == payload[2..10]
      && (d.addr16.Some? <==> HasAddress16(d.kind))
      && (d.addr16.Some? ==> d.addr16.value.value == payload[..2])
      && payload[10 + |d.nodeId|] == 0
      && (forall i :: 0 <= i < |d.nodeId| ==> d.nodeId[i] as int == payload[10 + i] != 0)
      && d.parent.value == payload[11 + |d.nodeId|..13 + |d.nodeId|]
      && d.role == RoleOf(payload[13 + |d.nodeId|])
  {
    if |payload| < 10 then Failure(TooShort)
    else match FindZero(payload, 10)
      case None => Failure(UnterminatedNodeId)
      case Some(z) =>
        if |payload| < z + 4 then Failure(TooShort)
        else Success(NewRemoteDevice(local, Address64(payload[2..10]), Address16(payload[0..2]),
                                     BytesToString(payload[10..z]), Address16(payload[z + 1..z + 3]),
                                     RoleOf(payload[z + 3])))
  }

  /** A payload parses exactly when it holds both addresses and a terminated
      node identifier followed by the parent address and the role byte. */
  ghost predicate WellFormed(payload: Bytes) {
    exists z :: 10 <= z && z + 4 <= |payload| && payload[z] == 0
      && forall j :: 10 <= j < z ==> payload[j] != 0
  }

  lemma ParseSucceedsIff(payload: Bytes, local: Protocol)
    ensures ParseDiscoveryData(payload, local).Success? <==> WellFormed(payload)
  {
    if WellFormed(payload) {
      var z :| 10 <= z && z + 4 <= |payload| && payload[z] == 0
        && forall j :: 10 <= j < z ==> payload[j] != 0;
      FindZeroFirst(payload, 10, z);
    }
  }

  /** Round trip: parsing a payload built by `createPacket` recovers the
      16-bit address, the 64-bit address, the node identifier and the parent
      address; the role it yields is the one the signal-strength byte encodes. */
  lemma ParseCreatePacket(frameId: int, status: AtCommandStatus, addr16: Address16, addr64: Address64,
                          ni: string, parent: Address16, role: byte, rssi: byte, local: Protocol)
    requires ValidNodeId(ni)
    ensures var v := CreatePacket(frameId, status, addr16, addr64, ni, parent, role, rssi).value;
      && |v| == 24 + |ni|
      && v[10 + |ni|] == 0
      && ParseDiscoveryData(v, local) == Success(NewRemoteDevice(local, addr64, addr16, ni, parent, RoleOf(rssi)))
  {
    ParseLayout(addr16, addr64, ni, parent, rssi, 0, local);
  }

  /** Round trip for the corrected helper: the role is recovered as well,
      and the signal strength is the payload's last byte. */
  lemma ParseCreateIntendedPacket(frameId: int, status: AtCommandStatus, addr16: Address16, addr64: Address64,
                                  ni: string, parent: Address16, role: byte, rssi: byte, local: Protocol)
    requires ValidNodeId(ni)
    ensures var v := CreateIntendedPacket(frameId, status, addr16, addr64, ni, parent, role, rssi).value;
      && |v| == 24 + |ni|
      && v[|v| - 1] == rssi
      && ParseDiscoveryData(v, local) == Success(NewRemoteDevice(local, addr64, addr16, ni, parent, RoleOf(role)))
  {
    ParseLayout(addr16, addr64, ni, parent, role, rssi, local);
  }

  lemma ParseLayout(addr16: Address16, addr64: Address64, ni: string, parent: Address16,
                    roleSlot: byte, rssiSlot: byte, local: Protocol)
    requires ValidNodeId(ni)
    ensures ParseDiscoveryData(Layout(addr16, addr64, ni, parent, roleSlot, rssiSlot), local)
         == Success(NewRemoteDevice(local, addr64, addr16, ni, parent, RoleOf(roleSlot)))
  {
    var n := |ni|;
    var v := Layout(addr16, addr64, ni, parent, roleSlot, rssiSlot);
    var nb := NodeIdBytes(ni);
    assert v[..2] == addr16.value;
    assert v[2..10] == addr64.value;
    assert v[10..10 + n] == nb;
    assert v[10 + n] == 0;
    assert v[11 + n..13 + n] == parent.value;
    assert v[13 + n] == roleSlot;
    assert forall j :: 10 <= j < 10 + n ==> v[j] != 0 by {
      forall j | 10 <= j < 10 + n ensures v[j] != 0 {
        assert v[j] == v[10..10 + n][j - 10];
      }
    }
    FindZeroFirst(v, 10, 10 + n);
    NodeIdRoundTrip(ni);
  }

  /** `FindZero` returns the first zero. */
  lemma {:induction false} FindZeroFirst(s: Bytes, from: nat, z: nat)
    requires from <= z < |s| && s[z] == 0
    requires forall j :: from <= j < z ==> s[j] != 0
    ensures FindZero(s, from) == Some(z)
    decreases z - from
  {
    if from < z {
      FindZeroFirst(s, from + 1, z);
    }
  }

  /** As written, `createPacket` loses the role: a coordinator (role 0x00)
      built with signal strength 0x49 parses as an unknown role, and the
      payload's signal-strength slot stays 0x00. */
  lemma CreatePacketLosesRole(addr16: Address16, addr64: Address64, parent: Address16, local: Protocol)
    ensures var v := CreatePacket(1, Ok, addr16, addr64, "Ni string", parent, 0x00, 0x49).value;
      && v[|v| - 1] == 0x00
      && ParseDiscoveryData(v, local).Success?
      && ParseDiscoveryData(v, local).value.role == UnknownRole
      && RoleOf(0x00) == Coordinator
  {
    ParseCreatePacket(1, Ok, addr16, addr64, "Ni string", parent, 0x00, 0x49, local);
  }
}
