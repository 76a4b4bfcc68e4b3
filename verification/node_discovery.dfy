/** `NodeDiscovery.discoverDevices(listener, options, timeout)` as a pure
    function: argument checks, then the run the background task performs —
    configure the discovery timeout and options, broadcast `ND`, collect
    the replies, restore the configuration, finish.

    Collection is abstracted as the ordered list of reply payloads that
    arrive while the packet listener is registered. A device parameter
    absent from `params` is one whose read fails. */
module Discovery {
  import opened Wrappers
  import opened ByteUtils
  import opened XBeeModels
  import opened DiscoveryTrace
  import NdPayload
  import XBeeNetwork

  const LISTENER_NULL: string := "Listener cannot be null."
  const TIMEOUT_NOT_POSITIVE: string := "The timeout must be bigger than 0."
  const INTERFACE_NOT_OPEN: string := "The connection interface is not open."

  /** The exceptions `discoverDevices` throws synchronously. */
  datatype DiscoveryException =
    | NullPointerException(message: string)
    | IllegalArgumentException(message: string)
    | InterfaceNotOpenException(message: string)

  /** The local device as discovery sees it. */
  datatype LocalDevice = LocalDevice(
    open: bool,
    protocol: Protocol,
    params: map<Param, Bytes>,
    network: XBeeNetwork.Registry)

  /** A `NodeDiscovery` object: its device and its collected-devices list. */
  datatype NodeDiscovery = NodeDiscovery(device: LocalDevice, deviceList: seq<RemoteDevice>)

  /** The arguments of `discoverDevices`; only the listener's presence matters. */
  datatype Request = Request(hasListener: bool, options: Option<set<DiscoveryOption>>, timeout: Timeout)

  /** What a run depends on besides its arguments: the replies that arrive
      while collecting, the protocol-specific option encoding
      (`DiscoveryOptions.calculateDiscoveryValue`) and the fallback value
      for the discovery timeout (`NodeDiscovery.DEFAULT_TIMEOUT`). */
  datatype Env = Env(
    replies: seq<Bytes>,
    calculateDiscoveryValue: (Protocol, set<DiscoveryOption>) -> int32,
    defaultTimeout: Bytes)

  /** The synchronous exception, if any; otherwise the run's trace and final state. */
  datatype Outcome = Outcome(thrown: Option<DiscoveryException>, trace: seq<Action>, after: NodeDiscovery)

  predicate ValidTimeout(t: Timeout) {
    t.UseDeviceTimeout? || t.millis > 0
  }

  /** The synchronous argument checks, in the order they are made. */
  function CheckArguments(hasListener: bool, timeout: Timeout, open: bool): (e: Option<DiscoveryException>)
    ensures e.None? <==> hasListener && ValidTimeout(timeout) && open
    ensures !hasListener ==> e == Some(NullPointerException(LISTENER_NULL))
    ensures hasListener && !ValidTimeout(timeout) ==> e == Some(IllegalArgumentException(TIMEOUT_NOT_POSITIVE))
    ensures hasListener && ValidTimeout(timeout) && !open ==> e == Some(InterfaceNotOpenException(INTERFACE_NOT_OPEN))
  {
    if !hasListener then Some(NullPointerException(LISTENER_NULL))
    else if !ValidTimeout(timeout) then Some(IllegalArgumentException(TIMEOUT_NOT_POSITIVE))
    else if !open then Some(InterfaceNotOpenException(INTERFACE_NOT_OPEN))
    else None
  }

  /** The discovery timeout, in milliseconds, that an `NT` value stands for. */
  function NtMillis(nt: Bytes): (ms: nat)
  {
    BeValue(nt) * 100
  }

  /** The `NT` value written for an explicit timeout: `intToByteArray((int) t / 100)`. */
  function TimeoutParam(t: int64): (nt: Bytes)
  {
    IntToByteArray(JavaDiv(ToInt32(t), 100))
  }

  /** The description `getParameter` uses when it reports a failed read. */
  function Description(p: Param): string {
    match p
    case NT => "network timeout"
    case NO => "network options"
  }

  /** The value a parameter had before discovery changed it, `null` when it could not be read. */
  function Saved(dev: LocalDevice, p: Param): Option<Bytes> {
    if p in dev.params then Some(dev.params[p]) else None
  }

  /** A parameter read and the value it produced. */
  datatype Read = Read(actions: seq<Action>, value: Option<Bytes>)

  /** `getParameter(device, name, fallback, description, listener)`: the
      device's value, or, when the read fails, `discoveryError` and the fallback. */
  function ReadParameter(dev: LocalDevice, p: Param, fallback: Option<Bytes>): (r: Read)
    ensures r.value == if p in dev.params then Some(dev.params[p]) else fallback
    ensures |r.actions| >= 1 && r.actions[0] == GetParameter(p, fallback)
    ensures p !in dev.params <==> DiscoveryError(ReadFailed(Description(p))) in r.actions
  {
    if p in dev.params then Read([GetParameter(p, fallback)], Some(dev.params[p]))
    else Read([GetParameter(p, fallback), DiscoveryError(ReadFailed(Description(p)))], fallback)
  }

  /** `setDiscoveryTimeout` / `setDiscoveryOptions`: writes the parameter;
      `null` leaves the device as it is. */
  function WriteParameter(dev: LocalDevice, p: Param, value: Option<Bytes>): (d: LocalDevice)
    ensures d.open == dev.open && d.protocol == dev.protocol && d.network == dev.network
    ensures value.Some? ==> d.params == dev.params[p := value.value]
    ensures value.None? ==> d == dev
  {
    match value
    case Some(v) => dev.(params := dev.params[p := v])
    case None => dev
  }

  /** The outcome of configuring the timeout: actions, device, collection
      window in milliseconds and the `NT` value to restore. */
  datatype TimeoutSetup = TimeoutSetup(actions: seq<Action>, device: LocalDevice, window: int, saved: Option<Bytes>)

  /** `configureDiscoveryTimeout`. With the device timeout, `NT` is read (with
      `DEFAULT_TIMEOUT` as fallback) and converted to milliseconds; nothing
      is written. With an explicit timeout, `NT` is read to be remembered and
      overwritten with the timeout in units of 100 ms; collection lasts the
      explicit timeout itself. */
  function ConfigureTimeout(dev: LocalDevice, timeout: Timeout, defaultTimeout: Bytes): (s: TimeoutSetup)
    ensures timeout.UseDeviceTimeout? ==> s.device == dev && s.saved == None
    ensures timeout.UseDeviceTimeout? ==>
      s.window == NtMillis(if NT in dev.params then dev.params[NT] else defaultTimeout)
    ensures timeout.Explicit? ==> s.window == timeout.millis && s.saved == Saved(dev, NT)
    ensures timeout.Explicit? ==> s.device == WriteParameter(dev, NT, Some(TimeoutParam(timeout.millis)))
  {
    match timeout
    case UseDeviceTimeout =>
      var r := ReadParameter(dev, NT, Some(defaultTimeout));
      TimeoutSetup([ConfigureDiscoveryTimeout(timeout)] + r.actions, dev, NtMillis(r.value.value), None)
    case Explicit(t) =>
      var r := ReadParameter(dev, NT, None);
      var nt := TimeoutParam(t);
      TimeoutSetup([ConfigureDiscoveryTimeout(timeout)] + (r.actions + [SetDiscoveryTimeout(Some(nt))]),
                   WriteParameter(dev, NT, Some(nt)), t, r.value)
  }

  /** The outcome of configuring the options: actions, device and the `NO` value to restore. */
  datatype OptionsSetup = OptionsSetup(actions: seq<Action>, device: LocalDevice, saved: Option<Bytes>)

  /** The `NO` value written for an option set. */
  function OptionsParam(encode: (Protocol, set<DiscoveryOption>) -> int32, p: Protocol,
                        options: set<DiscoveryOption>): (no: Bytes)
  {
    IntToByteArray(encode(p, options))
  }

  /** `configureDiscoveryOptions`. Without options nothing is read or written;
      with a set, `NO` is read to be remembered and overwritten with the
      protocol-specific encoding of the set. */
  function ConfigureOptions(dev: LocalDevice, options: Option<set<DiscoveryOption>>,
                            encode: (Protocol, set<DiscoveryOption>) -> int32): (s: OptionsSetup)
    ensures options.None? ==> s.device == dev && s.saved == None
    ensures options.Some? ==> s.saved == Saved(dev, NO)
    ensures options.Some? ==> s.device == WriteParameter(dev, NO, Some(OptionsParam(encode, dev.protocol, options.value)))
  {
    match options
    case None => OptionsSetup([ConfigureDiscoveryOptions(options)], dev, None)
    case Some(opts) =>
      var r := ReadParameter(dev, NO, None);
      var no := OptionsParam(encode, dev.protocol, opts);
      OptionsSetup([ConfigureDiscoveryOptions(options)] + (r.actions + [SetDiscoveryOptions(Some(no))]),
                   WriteParameter(dev, NO, Some(no)), r.value)
  }

  /** The actions of collection, the network afterwards and the devices
      collected (the transient `deviceList`). */
  datatype Collection = Collection(actions: seq<Action>, network: XBeeNetwork.Registry, found: seq<RemoteDevice>)

  /** The device a reply describes, if it parses. */
  function ReplyDevice(payload: Bytes, local: Protocol): (ds: seq<RemoteDevice>)
    ensures |ds| <= 1
    ensures |ds| == 1 <==> NdPayload.ParseDiscoveryData(payload, local).Success?
  {
    match NdPayload.ParseDiscoveryData(payload, local)
    case Success(d) => [d]
    case Failure(_) => []
  }

  /** The devices the replies describe, in reply order, skipping malformed ones. */
  function DevicesFrom(replies: seq<Bytes>, local: Protocol): (ds: seq<RemoteDevice>)
    ensures |ds| <= |replies|
  {
    if |replies| == 0 then [] else ReplyDevice(replies[0], local) + DevicesFrom(replies[1..], local)
  }

  /** The packet listener's handling of one reply: parse it; if it parses,
      add the device to the network and report it, otherwise report a
      discovery error. The device reported is the parsed one, not the one
      `addRemoteDevice` returns; the two are the same object whenever the
      address was new to the network, and always with the test's network mock. */
  function HandleReply(reg: XBeeNetwork.Registry, local: Protocol, payload: Bytes): (c: Collection)
    ensures |c.found| <= 1
  {
    match NdPayload.ParseDiscoveryData(payload, local)
    case Success(d) =>
      Collection([ParseDiscoveryApiData(payload), AddRemoteDevice(d), DeviceDiscovered(d)],
                 XBeeNetwork.AddRemoteDevice(reg, d).0, [d])
    case Failure(_) =>
      Collection([ParseDiscoveryApiData(payload), DiscoveryError(MalformedReply(payload))], reg, [])
  }

  /** The handling of every reply, in arrival order. */
  function HandleReplies(reg: XBeeNetwork.Registry, local: Protocol, replies: seq<Bytes>): (c: Collection)
    ensures |c.found| <= |replies|
    decreases |replies|
  {
    if |replies| == 0 then Collection([], reg, [])
    else
      var step := HandleReply(reg, local, replies[0]);
      var rest := HandleReplies(step.network, local, replies[1..]);
      Collection(step.actions + rest.actions, rest.network, step.found + rest.found)
  }

  /** `discoverDevicesAPI(device, listener, null, window)`: register the packet
      listener, send `ND`, handle the replies, unregister the listener. */
  function Collect(dev: LocalDevice, window: int, replies: seq<Bytes>): (c: Collection)
    ensures c.found == HandleReplies(dev.network, dev.protocol, replies).found
  {
    var h := HandleReplies(dev.network, dev.protocol, replies);
    Collection([DiscoverDevicesApi(window), StartListening, SendNodeDiscoverCommand] + (h.actions + [StopListening]),
               h.network, h.found)
  }

  /** The three phases of a run that precede the restoration. */
  datatype Phases = Phases(timeout: TimeoutSetup, options: OptionsSetup, collection: Collection)

  function RunPhases(nd: NodeDiscovery, req: Request, env: Env): (ph: Phases)
    ensures ph.collection.found == HandleReplies(ph.options.device.network, nd.device.protocol, env.replies).found
  {
    var ts := ConfigureTimeout(nd.device, req.timeout, env.defaultTimeout);
    var os := ConfigureOptions(ts.device, req.options, env.calculateDiscoveryValue);
    Phases(ts, os, Collect(os.device, ts.window, env.replies))
  }

  /** Restoration and the end of the run: `setDiscoveryTimeout` and
      `setDiscoveryOptions` with the remembered values, then `discoveryFinished`. */
  function Epilogue(ph: Phases): (t: seq<Action>)
    ensures |t| == 3 && t[2] == DiscoveryFinished(None)
  {
    [SetDiscoveryTimeout(ph.timeout.saved), SetDiscoveryOptions(ph.options.saved), DiscoveryFinished(None)]
  }

  /** The device after restoration. */
  function Restored(ph: Phases): (d: LocalDevice)
    ensures d.network == ph.collection.network
  {
    WriteParameter(WriteParameter(ph.options.device.(network := ph.collection.network), NT, ph.timeout.saved),
                   NO, ph.options.saved)
  }

  /** The background part of a run, once the arguments are accepted. The
      internal device list is transient in this model: collection hands its
      devices straight to the listener, so a run always ends with the list
      empty, and the `deviceList == []` clauses here and in
      `DiscoverDevices` record that choice rather than derive it. */
  function Run(nd: NodeDiscovery, req: Request, env: Env): (o: Outcome)
    ensures o.thrown.None? && o.after.deviceList == []
    ensures |o.trace| > 0 && o.trace[|o.trace| - 1] == DiscoveryFinished(None)
  {
    var ph := RunPhases(nd, req, env);
    Outcome(None,
            ph.timeout.actions + (ph.options.actions + (ph.collection.actions + Epilogue(ph))),
            NodeDiscovery(Restored(ph), []))
  }

  /** `discoverDevices(listener, options, timeout)`. A rejected call throws and
      does nothing else: no action, no change of state. */
  function DiscoverDevices(nd: NodeDiscovery, req: Request, env: Env): (o: Outcome)
    ensures o.thrown.Some? ==> o.trace == [] && o.after == nd
    ensures o.thrown == CheckArguments(req.hasListener, req.timeout, nd.device.open)
    ensures o.thrown.None? ==>
              o.after.deviceList == [] && |o.trace| > 0 && o.trace[|o.trace| - 1] == DiscoveryFinished(None)
  {
    match CheckArguments(req.hasListener, req.timeout, nd.device.open)
    case Some(e) => Outcome(Some(e), [], nd)
    case None => Run(nd, req, env)
  }
}
