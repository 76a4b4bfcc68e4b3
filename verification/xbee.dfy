/** The value types the discovery procedure works with: protocols,
    addresses, discovery options and the remote devices it reports. */
module XBeeModels {
  import opened Wrappers
  import opened ByteUtils

  /** The radio protocol of a local device (a subset of `XBeeProtocol`). */
  datatype Protocol = ZigBee | Raw802154 | DigiMesh | ZNet | DigiPoint | Xlr | UnknownProtocol

  type Bytes2 = s: Bytes | |s| == 2 witness [0, 0]
  type Bytes8 = s: Bytes | |s| == 8 witness [0, 0, 0, 0, 0, 0, 0, 0]

  /** A 16-bit network address (`XBee16BitAddress`), big-endian. */
  datatype Address16 = Address16(value: Bytes2)

  /** A 64-bit hardware address (`XBee64BitAddress`), big-endian. */
  datatype Address64 = Address64(value: Bytes8)

  /** The network role a node-discovery reply announces. */
  datatype Role = Coordinator | Router | EndDevice | UnknownRole

  /** Decodes the role byte of a discovery reply. */
  function RoleOf(b: byte): (r: Role)
    ensures r != UnknownRole <==> b <= 2
  {
    match b
    case 0 => Coordinator
    case 1 => Router
    case 2 => EndDevice
    case _ => UnknownRole
  }

  /** The remote-device class a discovery run instantiates. */
  datatype DeviceKind = RemoteZigBee | RemoteRaw802 | RemoteDigiMesh | RemoteGeneric

  /** The remote-device class follows the LOCAL device's protocol, not the reply. */
  function KindFor(p: Protocol): (k: DeviceKind)
    ensures k == RemoteZigBee <==> p == ZigBee
    ensures k == RemoteRaw802 <==> p == Raw802154
    ensures k == RemoteDigiMesh <==> p == DigiMesh
  {
    match p
    case ZigBee => RemoteZigBee
    case Raw802154 => RemoteRaw802
    case DigiMesh => RemoteDigiMesh
    case _ => RemoteGeneric
  }

  /** DigiMesh remote devices carry no 16-bit address. */
  predicate HasAddress16(k: DeviceKind) {
    k != RemoteDigiMesh
  }

  /** A discovered remote device; once built it is never changed. */
  datatype RemoteDevice = RemoteDevice(
    kind: DeviceKind,
    protocol: Protocol,
    addr64: Address64,
    addr16: Option<Address16>,
    nodeId: string,
    parent: Address16,
    role: Role)

  /** Builds the remote device a reply describes, as seen from a local device of protocol `local`. */
  function NewRemoteDevice(local: Protocol, addr64: Address64, addr16: Address16,
                           nodeId: string, parent: Address16, role: Role): (d: RemoteDevice)
    ensures d.protocol == local && d.kind == KindFor(local)
    ensures d.addr64 == addr64 && d.nodeId == nodeId
    ensures d.addr16 == (if HasAddress16(KindFor(local)) then Some(addr16) else None)
    ensures d.parent == parent && d.role == role
  {
    var k := KindFor(local);
    RemoteDevice(k, local, addr64, if HasAddress16(k) then Some(addr16) else None, nodeId, parent, role)
  }

  /** The flags of `DiscoveryOptions`. */
  datatype DiscoveryOption = AppendDd | AppendRssi | DiscoverMyself

  /** The two device parameters discovery reconfigures: the discovery
      timeout (units of 100 ms) and the discovery options. */
  datatype Param = NT | NO
}
