# Node discovery of the XBee Java library, as its unit test pins it down

This project models `NodeDiscovery.discoverDevices(listener, options, timeout)` of
the XBee Java library. The implementation class is not part of this model. The
behaviour modelled is the one that
`library/src/test/java/com/digi/xbee/api/NodeDiscoveryDiscoverDevicesListenerTest.java`
verifies. The model also covers the two pieces of that test with behaviour of
their own:

- the `createPacket` helper, which encodes a node-discovery (`ND`) reply payload;
- the `DiscoveryListener` recorder, which keeps what a run reports.

A discovery run is the pure function `Discovery.DiscoverDevices(nd, req, env)`. It
depends on:

- whether a listener is given;
- the requested timeout, either the `USE_DEVICE_TIMEOUT` sentinel or an explicit number of ms;
- the option set, or `null`;
- whether the device is open;
- its protocol;
- its `NT` and `NO` parameter values;
- the ordered list of `ND` reply payloads that arrive while the packet listener is registered.

The result is either one of three synchronous exceptions, or a trace and a final
state:

- The trace is the ordered list of actions the run performs:
  - the procedure's own steps;
  - parameter reads and writes;
  - starting and stopping the packet listener;
  - the `ND` send;
  - parses, `addRemoteDevice` calls;
  - listener notifications.
- The final state is the device, its network cache and the internal device list.

A parameter missing from the device's map is one whose read fails. The model
assumes that `getParameter` then reports `discoveryError` and returns its
fallback; no test makes a read fail (see "## Left out").

Files, each one module:

| file | module | contents |
|---|---|---|
| wrappers.dfy | Wrappers | `Option` (Java `null`), `Result` |
| bytes.dfy | ByteUtils | bytes, big-endian values, Java `int` cast, truncating `/`, `intToByteArray` |
| xbee.dfy | XBeeModels | protocols, addresses, roles, remote devices and their subtype, discovery options, `NT`/`NO` |
| network.dfy | XBeeNetwork | the device's network cache, keyed by 64-bit address |
| nd_payload.dfy | NdPayload | `createPacket` as written and corrected, the reply parser, round trips |
| trace.dfy | DiscoveryTrace | the actions of a run and projections of a trace |
| node_discovery.dfy | Discovery | argument checks, the configure/collect/restore phases, the run |
| phase_properties.dfy | PhaseProperties | what each phase does, projection by projection |
| run_properties.dfy | RunProperties | what a whole run reads, writes, sends, reports and leaves behind |
| listener.dfy | RecordingListener | the test's listener and replaying a trace through it |
| parameter_values.dfy | ParameterValues | what the written `NT` and `NO` values stand for |
| scenarios.dfy | Scenarios | the test's reply scenarios and reply counts |

## Model

| member | source | states |
|---|---|---|
| Discovery.CheckArguments | library/src/test/java/com/digi/xbee/api/NodeDiscoveryDiscoverDevicesListenerTest.java:174-221 | A call is accepted exactly when a listener is given, the timeout is the sentinel or positive, and the device is open. A missing listener gives `NullPointerException("Listener cannot be null.")`. Otherwise a non-positive explicit timeout gives `IllegalArgumentException("The timeout must be bigger than 0.")`. Otherwise a closed device gives `InterfaceNotOpenException("The connection interface is not open.")`. |
| Discovery.DiscoverDevices | library/src/test/java/com/digi/xbee/api/NodeDiscoveryDiscoverDevicesListenerTest.java:174-221 | A rejected call throws the `CheckArguments` exception with an empty trace and an unchanged state. An accepted call throws nothing, ends with `discoveryFinished(null)` and leaves the internal device list empty, as the accepted-call tests require (lines 252-259, 275-276). |
| Discovery.ReadParameter | library/src/test/java/com/digi/xbee/api/NodeDiscoveryDiscoverDevicesListenerTest.java:263 | `getParameter` returns the device's value when the read succeeds. Otherwise it returns the fallback, and the read is followed by `discoveryError` with the parameter's description ("network timeout", "network options"). |
| Discovery.WriteParameter | library/src/test/java/com/digi/xbee/api/NodeDiscoveryDiscoverDevicesListenerTest.java:265-266 | Writing `null` leaves the device unchanged. Writing a value changes that parameter only. |
| Discovery.ConfigureTimeout | library/src/test/java/com/digi/xbee/api/NodeDiscoveryDiscoverDevicesListenerTest.java:293-296 | With the sentinel nothing is written or remembered, and the window is the device's `NT` (or `DEFAULT_TIMEOUT`) × 100 ms. With an explicit `t`, the window is `t`, the value read is remembered, and `NT` becomes `intToByteArray((int) t / 100)`. Also lines 322-325. |
| Discovery.ConfigureOptions | library/src/test/java/com/digi/xbee/api/NodeDiscoveryDiscoverDevicesListenerTest.java:352-355 | Without options nothing is written or remembered. With options the value `NO` had is remembered, and `NO` becomes the encoding of the set for the device's protocol. Also lines 384-387. |
| PhaseProperties.HandleReplyReports | library/src/test/java/com/digi/xbee/api/NodeDiscoveryDiscoverDevicesListenerTest.java:590-596 | The packet listener's handling of one reply (`Discovery.HandleReply`): it parses the reply once. If it parses, the listener adds the parsed device to the network once and reports it once. Otherwise it neither adds nor reports a device; what counts as malformed is assumed (see "## Left out"). |
| PhaseProperties.HandleRepliesNetwork | library/src/test/java/com/digi/xbee/api/NodeDiscoveryDiscoverDevicesListenerTest.java:597-598 | Handling the replies (`Discovery.HandleReplies`) adds devices only one at a time: the network keeps every entry it had and gains exactly the 64-bit addresses of the devices found. |
| PhaseProperties.CollectionSteps | library/src/test/java/com/digi/xbee/api/NodeDiscoveryDiscoverDevicesListenerTest.java:269-273 | `discoverDevicesAPI` (`Discovery.Collect`) takes its steps in this order: it opens the window it is given, starts the packet listener, sends `ND`, parses each reply in arrival order, and stops the packet listener. |
| PhaseProperties.HandleRepliesReports | library/src/test/java/com/digi/xbee/api/NodeDiscoveryDiscoverDevicesListenerTest.java:591-598 | The packet listener parses every reply once, in order. It adds and reports each device that parses, in order. The devices collected are those the replies describe. |
| RunProperties.RunReads | library/src/test/java/com/digi/xbee/api/NodeDiscoveryDiscoverDevicesListenerTest.java:263-264 | A run reads `NT` exactly once. With the sentinel it reads with `DEFAULT_TIMEOUT` as fallback, with an explicit timeout with `null`. It reads `NO` once, with `null`, exactly when options are given. No other parameter read happens. Also lines 322-323, 383-384 and 444-445. |
| RunProperties.RunTimeoutWrites | library/src/test/java/com/digi/xbee/api/NodeDiscoveryDiscoverDevicesListenerTest.java:265-266 | The sequence of `setDiscoveryTimeout` arguments is `[null]` with the sentinel. With an explicit timeout `t` it is `[intToByteArray((int) t / 100), the value read]`. Also lines 293-296, 324-325 and 446-447. |
| RunProperties.RunOptionsWrites | library/src/test/java/com/digi/xbee/api/NodeDiscoveryDiscoverDevicesListenerTest.java:267-268 | The sequence of `setDiscoveryOptions` arguments is `[null]` without options. With options it is `[intToByteArray(calculateDiscoveryValue(protocol, options)), the value read]`. Also lines 352-355, 386-387 and 448-449. |
| RunProperties.RunWindow | library/src/test/java/com/digi/xbee/api/NodeDiscoveryDiscoverDevicesListenerTest.java:236-237 | A run opens exactly one collection window. With an explicit timeout its length is that timeout. With the sentinel it is `NT` × 100 ms, or `DEFAULT_TIMEOUT` × 100 ms when `NT` cannot be read. Also lines 273, 331, 392 and 454. |
| RunProperties.RunSteps | library/src/test/java/com/digi/xbee/api/NodeDiscoveryDiscoverDevicesListenerTest.java:261-273 | The procedure's steps occur each once, in this order (the test pins start listening before the `ND` send through its mocks; the rest of the order is the model's, see below): configure timeout, configure options, one window, start listening, send `ND`. Then comes one parse per reply in arrival order. Then stop listening and `discoveryFinished(null)`. `addRemoteDevices` never occurs. Also lines 278, 591 and 682. |
| RunProperties.RunReports | library/src/test/java/com/digi/xbee/api/NodeDiscoveryDiscoverDevicesListenerTest.java:591-598 | Every reply is parsed once, in arrival order. The devices the replies describe are passed to `addRemoteDevice` once each and reported through `deviceDiscovered` once each, in reply order. Malformed replies, whose definition is assumed, yield neither. Also lines 512-519 and 682-689. |
| RunProperties.RunNetwork | library/src/test/java/com/digi/xbee/api/NodeDiscoveryDiscoverDevicesListenerTest.java:597-598 | The network cache keeps every entry it had. It gains exactly the 64-bit addresses of the devices the replies describe. |
| RunProperties.RunRestoresTimeout | library/src/test/java/com/digi/xbee/api/NodeDiscoveryDiscoverDevicesListenerTest.java:324-325 | When `NT` can be read, the run leaves it with the value it had before, whatever the timeout and options. |
| RunProperties.RunUnreadableTimeout | library/src/test/java/com/digi/xbee/api/NodeDiscoveryDiscoverDevicesListenerTest.java:322-325 | When `NT` cannot be read, the restore passes `null` and writes nothing. So `NT` stays unset with the sentinel, and keeps the explicitly written value otherwise. |
| RunProperties.RunRestoresOptions | library/src/test/java/com/digi/xbee/api/NodeDiscoveryDiscoverDevicesListenerTest.java:384-387 | When `NO` can be read, the run leaves it with the value it had before, whatever the timeout and options. Also lines 445-449. |
| RunProperties.RunUnreadableOptions | library/src/test/java/com/digi/xbee/api/NodeDiscoveryDiscoverDevicesListenerTest.java:384-387 | When `NO` cannot be read, the restore passes `null` and writes nothing. So `NO` stays unset without options, and keeps the encoded option set otherwise. |
| RunProperties.RunFinishesLast | library/src/test/java/com/digi/xbee/api/NodeDiscoveryDiscoverDevicesListenerTest.java:252-256 | No action before the last one of a run is a `discoveryFinished`. |
| RunProperties.RejectedListener | library/src/test/java/com/digi/xbee/api/NodeDiscoveryDiscoverDevicesListenerTest.java:174-221 | A rejected call leaves the listener exactly as it was constructed. |
| RunProperties.RunListener | library/src/test/java/com/digi/xbee/api/NodeDiscoveryDiscoverDevicesListenerTest.java:252-259 | After an accepted run, the recording listener holds exactly the devices the replies describe, in reply order. It is finished, with a `null` finish error. |
| RunProperties.RunListenerRunning | library/src/test/java/com/digi/xbee/api/NodeDiscoveryDiscoverDevicesListenerTest.java:251-252 | Every proper prefix of an accepted run leaves the listener unfinished. |
| RecordingListener.Notify | library/src/test/java/com/digi/xbee/api/NodeDiscoveryDiscoverDevicesListenerTest.java:760-774 | Only the three callbacks change the listener. `deviceDiscovered` appends the device, `discoveryError` appends the error, `discoveryFinished` sets the flag and the finish error. |
| RecordingListener.ReplayDiscovered | library/src/test/java/com/digi/xbee/api/NodeDiscoveryDiscoverDevicesListenerTest.java:771-774 | Replaying a trace appends exactly the trace's `deviceDiscovered` devices, in order. |
| RecordingListener.ReplayErrors | library/src/test/java/com/digi/xbee/api/NodeDiscoveryDiscoverDevicesListenerTest.java:766-769 | Replaying a trace appends exactly the trace's `discoveryError` problems, in order. |
| RecordingListener.ReplayFinished | library/src/test/java/com/digi/xbee/api/NodeDiscoveryDiscoverDevicesListenerTest.java:760-764 | A trace that ends with `discoveryFinished(e)` leaves the listener finished with error `e`. |
| RecordingListener.ReplayUnfinished | library/src/test/java/com/digi/xbee/api/NodeDiscoveryDiscoverDevicesListenerTest.java:738-742 | A listener that is not finished stays unfinished through a trace with no `discoveryFinished`. |
| NdPayload.FieldsLayout | library/src/test/java/com/digi/xbee/api/NodeDiscoveryDiscoverDevicesListenerTest.java:708-725 | The helper's array writes up to line 725 produce, byte for byte, the field layout: 16-bit address, 64-bit address, NI, 0x00, parent, role, 0x00, profile, manufacturer, device type, a zero last byte. The payload is 24 + len(NI) bytes. |
| NdPayload.CreatePacket | library/src/test/java/com/digi/xbee/api/NodeDiscoveryDiscoverDevicesListenerTest.java:705-729 | The helper as written builds an `ND` response with the given frame id and status. Its payload is the field layout with the signal strength in the role slot (offset 13 + len(NI)) and 0x00 as the last byte. |
| NdPayload.ParseSucceedsIff | library/src/test/java/com/digi/xbee/api/NodeDiscoveryDiscoverDevicesListenerTest.java:708-721 | A payload parses exactly when it holds both addresses, then a 0x00-terminated NI, then the parent address and the role byte. |
| NdPayload.ParseDiscoveryData | library/src/test/java/com/digi/xbee/api/NodeDiscoveryDiscoverDevicesListenerTest.java:568-578 | A parsed device takes the local protocol and its subtype. Its 64-bit address is bytes 2-9. Its 16-bit address, when its subtype has one, is bytes 0-1. Its NI is the non-zero bytes from offset 10 up to the 0x00 terminator. The parent address is the two bytes after the terminator, and the role is the byte after those. It has a 16-bit address exactly when its subtype has one. |
| NdPayload.ParseCreatePacket | library/src/test/java/com/digi/xbee/api/NodeDiscoveryDiscoverDevicesListenerTest.java:705-729 | Round trip: parsing a payload built by `createPacket` gives back the 16-bit address, the 64-bit address, the NI and the parent address. The NI is null-terminated at 10 + len(NI) in a payload of 24 + len(NI) bytes. |
| NdPayload.CreatePacketLosesRole | library/src/test/java/com/digi/xbee/api/NodeDiscoveryDiscoverDevicesListenerTest.java:726 | As written, a coordinator reply (role 0x00, signal strength 0x49) parses with an unknown role, and its last byte is 0x00. |
| NdPayload.ParseCreateIntendedPacket | library/src/test/java/com/digi/xbee/api/NodeDiscoveryDiscoverDevicesListenerTest.java:722-727 | With the last write aimed at the signal-strength byte, the round trip also recovers the role, and the payload ends with the signal strength. |
| XBeeModels.KindFor | library/src/test/java/com/digi/xbee/api/NodeDiscoveryDiscoverDevicesListenerTest.java:571-572 | The remote-device subtype follows the local protocol. ZigBee gives `RemoteZigBeeDevice`, as the test asserts here and at lines 661-662. The model assumes the other protocols: 802.15.4 gives the 802.15.4 subtype, DigiMesh gives the DigiMesh subtype, and any other protocol gives the generic one (see "## Left out"). |
| XBeeNetwork.AddressesMembership | library/src/test/java/com/digi/xbee/api/NodeDiscoveryDiscoverDevicesListenerTest.java:597-598 | An address is among the addresses a run adds to the network exactly when some discovered device has it. This is what the network statements of `HandleRepliesNetwork` and `RunNetwork` mean. |
| XBeeNetwork.AddRemoteDevice | library/src/test/java/com/digi/xbee/api/NodeDiscoveryDiscoverDevicesListenerTest.java:104-110 | Adding a device keeps every entry and adds the device's 64-bit address. The call returns the stored device, which is the given one when its address was new. |
| ParameterValues.TimeoutParamValue | library/src/test/java/com/digi/xbee/api/NodeDiscoveryDiscoverDevicesListenerTest.java:296 | For 0 < t < 2^31, the `NT` value (`Discovery.TimeoutParam`) written for timeout `t` is four bytes holding t / 100. It stands for a device timeout within 100 ms below `t`. |
| ParameterValues.TimeoutParamWraps | library/src/test/java/com/digi/xbee/api/NodeDiscoveryDiscoverDevicesListenerTest.java:296 | The `(int)` cast keeps only the low 32 bits. Whenever they form a non-negative `int`, `NT` holds them / 100, so a timeout of 2^32 ms or more is written as at least 2^32 ms shorter; 2^32 + 500 ms is written as 5. |
| ParameterValues.OptionsParamValue | library/src/test/java/com/digi/xbee/api/NodeDiscoveryDiscoverDevicesListenerTest.java:355 | The `NO` value written is the four-byte big-endian form of `calculateDiscoveryValue(protocol, options)`. |
| ParameterValues.NtMillisOneByte | library/src/test/java/com/digi/xbee/api/NodeDiscoveryDiscoverDevicesListenerTest.java:236-237 | A one-byte `NT` value `n` stands for 100 × n ms. |
| Scenarios.DevicesFromAllParse | library/src/test/java/com/digi/xbee/api/NodeDiscoveryDiscoverDevicesListenerTest.java:653-669 | When every reply parses, there is one device per reply. The i-th device is the parse of the i-th reply. |
| Scenarios.RunCounts | library/src/test/java/com/digi/xbee/api/NodeDiscoveryDiscoverDevicesListenerTest.java:682-689 | When every one of N replies parses, a run performs N parses, N `addRemoteDevice` calls and N `deviceDiscovered` calls. The listener ends with N devices. |
| Scenarios.NoDevices | library/src/test/java/com/digi/xbee/api/NodeDiscoveryDiscoverDevicesListenerTest.java:471-520 | No reply, `NT` = 0x01: a 100 ms window, and no parse, add or report. The listener is finished and empty, the internal list is empty, and the network is unchanged. |
| Scenarios.OneZigBeeDevice | library/src/test/java/com/digi/xbee/api/NodeDiscoveryDiscoverDevicesListenerTest.java:530-578 | One `createPacket` reply on a ZigBee device gives one `RemoteZigBeeDevice`. It has NI "Ni string", 64-bit address 0013A20040A6A0DB and 16-bit address 0000. The listener is finished. |
| Scenarios.TwoZigBeeDevices | library/src/test/java/com/digi/xbee/api/NodeDiscoveryDiscoverDevicesListenerTest.java:609-669 | Two `createPacket` replies give two `RemoteZigBeeDevice`s, in arrival order, each with its own NI, 64-bit address and 16-bit address. |
| Scenarios.TwoReplies | library/src/test/java/com/digi/xbee/api/NodeDiscoveryDiscoverDevicesListenerTest.java:622-627 | Two replies built by `createPacket` yield exactly their two devices, in order. |

## Left out

- Threads and wall-clock time. The test checks that the call does not block and finishes within the window plus 150 ms (lines 250-258). It also delivers replies from a mock thread with 200 ms pauses (lines 130-162). Collection is modelled as the ordered list of replies received while the packet listener is registered.
- PowerMock, Mockito and Whitebox mechanics. These are test scaffolding, not behaviour.
- The frame codec, the dispatcher and frame-ID correlation. No source for them is part of this model. The `ND` send is one action, with no frame.
- `NodeDiscovery.java`, `DiscoveryOptions.java`, `ByteUtils.java`, `XBeeNetwork.java` and the address classes are not part of this model.
  - `calculateDiscoveryValue` is an uninterpreted function in `Env`.
  - The value of `DEFAULT_TIMEOUT` is an input.
  - `byteArrayToLong` is assumed to be big-endian unsigned. `intToByteArray` is assumed to be four-byte big-endian two's complement.
  - The network cache keeps the first device stored per 64-bit address. The test's mock `addRemoteDevice` returns its argument (lines 104-110), and the two agree whenever the address is new. The listener is told about the parsed device, not the one `addRemoteDevice` returns; with the keep-first cache these differ when a reply repeats a known address.
  - `parseDiscoveryAPIData` is modelled by one parser for every protocol, reading the layout `createPacket` builds. What follows the role byte is not interpreted.
- Failing parameter reads. No test makes `getParameter` fail, so its behaviour then, reporting `discoveryError` and falling back, is assumed rather than taken from the test.
- Runs that end in `discoveryFinished` with an error: closing the interface during a run, or a failing `ND` send. The test has none, so every accepted run in the model finishes with a `null` error, and `RunProperties.RunListener` states only that.
- The identity of the packet listener. `StartListening` and `StopListening` carry none, so the model cannot state that the listener removed is the one added (lines 270-271).
- Writes always succeed. The test never makes `setParameter` fail, so restoration failures are not modelled.
- `discoveryError` carries a `Problem` value, not the library's message text, which is not part of this model.
- `src/com/digi/xbee/api/ZNetDevice.java` holds constructors and send overrides that only forward to `super` (lines 36-110, 125-137). Its one fact, that the protocol is `ZNET` (lines 117-119), is the constant `ZNet` of `XBeeModels.Protocol`.
- NdPayload.ParseCreatePacket: does not recover the role, because `createPacket` as written overwrites it (see Findings).
- XBeeModels.KindFor: only the ZigBee case is taken from the test (lines 571-572, 661-662). The 802.15.4, DigiMesh and generic subtypes are assumed, and so is `XBeeModels.HasAddress16`: DigiMesh remote devices carry no 16-bit address. The `NdPayload.ParseDiscoveryData` row depends on that assumption.
- Malformed replies. Which payloads fail to parse (`TooShort`, `UnterminatedNodeId`) and the `discoveryError` they raise are assumed. No test sends a malformed reply or reads the listener's error list.
- NdPayload.BytesToString: decodes each byte to the character with the same code, so bytes 0x80 and above map one-to-one onto characters. The default-charset decoding of `new String(byte[])` is not modelled.
- NdPayload.ValidNodeId: node identifiers are limited to single-byte characters other than 0x00. For these, `ni.length()` and `ni.getBytes().length` agree, and the terminator is the first zero byte.

### Choices the model takes from the test lines

- With the device's own timeout, `NT` is still read once, with `DEFAULT_TIMEOUT` as fallback, and `setDiscoveryTimeout` is called once with `null` (lines 263-266). The model does the same, and a `null` write changes nothing.
- Both restore methods are called in every run, with `null` when nothing was remembered (lines 265-268, 324-326, 385-387). The model has every run call both.
- The order of the steps. The test verifies each step with `times(1)` or `never()` (lines 261-273) and has no in-order check. One pair is still pinned by its mocks: `setUp` clears the packet listener (line 93), only `startListeningForPackets` sets it (line 125), and the `ND` send delivers no reply while it is unset (lines 133-134), yet the reply tests require a device (lines 566-568, 653). So the test pins start listening before the `ND` send; the rest of the order is the model's. The model's full order is: configure, open the window, start listening, send `ND`, parse the replies, stop listening, restore, finish. `RunProperties.RunSteps` states that order.
- The order of the argument checks: null listener, then timeout, then open interface. Each rejecting test has exactly one bad argument (lines 183, 201, 220), so this order is the model's.
- The value of `USE_DEVICE_TIMEOUT` is not visible. The sentinel is its own case, `UseDeviceTimeout`, and `Explicit(v)` stands for a call with any `v` other than the sentinel's value. So if that value is, say, -1, a Java call with -1 is `UseDeviceTimeout` in the model and is accepted; `Explicit(-1)`, which the model rejects, then stands for no call at all. The test's own invalid timeout is -3 (line 201).
- Options are keyed on presence. An empty set still reads and writes `NO`; the test pins only `null` (lines 264, 267) and a non-empty set (lines 352, 383-387).

## Findings

| source | as written | input that shows it | evidently intended | confidence | as-written member | corrected member |
|---|---|---|---|---|---|---|
| library/src/test/java/com/digi/xbee/api/NodeDiscoveryDiscoverDevicesListenerTest.java:726 | `value[13 + ni.length()] = rssi;` writes the signal strength over the role byte, and the last byte, reserved for the signal strength, stays 0x00 | `createPacket(1, OK, 0000, 0013A20040A6A0DB, "Ni string", FFFE, 0x00, 0x49)`: the role byte reads 0x49 (unknown role) instead of 0x00 (coordinator), and the last byte is 0x00 | `value[value.length - 1] = rssi;`, so the role survives and the payload ends with the signal strength | high (not executed) | NdPayload.CreatePacketLosesRole | NdPayload.ParseCreateIntendedPacket |
