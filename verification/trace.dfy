/** The observable actions of a discovery run, in the order they happen,
    and projections that pick one kind of action out of a trace. */
module DiscoveryTrace {
  import opened Wrappers
  import opened ByteUtils
  import opened XBeeModels

  /** The timeout a caller asks for: the device's own (`USE_DEVICE_TIMEOUT`)
      or an explicit number of milliseconds (a Java `long`). */
  datatype Timeout = UseDeviceTimeout | Explicit(millis: int64)

  /** What a run reports through `discoveryError`. */
  datatype Problem = ReadFailed(description: string) | MalformedReply(payload: Bytes)

  /** One step of a discovery run: a call of one of the procedure's own
      steps, a device or network call, or a listener notification. */
  datatype Action =
    | ConfigureDiscoveryTimeout(timeout: Timeout)
    | ConfigureDiscoveryOptions(options: Option<set<DiscoveryOption>>)
    | GetParameter(param: Param, fallback: Option<Bytes>)
    | SetDiscoveryTimeout(ntValue: Option<Bytes>)
    | SetDiscoveryOptions(noValue: Option<Bytes>)
    | DiscoverDevicesApi(timeoutMillis: int)
    | StartListening
    | SendNodeDiscoverCommand
    | ParseDiscoveryApiData(payload: Bytes)
    | AddRemoteDevice(device: RemoteDevice)
    | AddRemoteDevices(devices: seq<RemoteDevice>)
    | DeviceDiscovered(device: RemoteDevice)
    | DiscoveryError(problem: Problem)
    | StopListening
    | DiscoveryFinished(error: Option<string>)

  /** The value of an option as a sequence of at most one element. */
  function Opt<T>(o: Option<T>): (s: seq<T>)
    ensures |s| <= 1
  {
    match o
    case Some(x) => [x]
    case None => []
  }

  /** The values `f` picks out of a trace, in trace order. */
  function Pick<T>(t: seq<Action>, f: Action -> Option<T>): (r: seq<T>)
    ensures |r| <= |t|
  {
    if |t| == 0 then [] else Opt(f(t[0])) + Pick(t[1..], f)
  }

  lemma PickCons<T>(a: Action, t: seq<Action>, f: Action -> Option<T>)
    ensures Pick([a] + t, f) == Opt(f(a)) + Pick(t, f)
  {
    assert ([a] + t)[1..] == t;
  }

  lemma PickTwo<T>(a: Action, b: Action, t: seq<Action>, f: Action -> Option<T>)
    ensures Pick([a, b] + t, f) == Opt(f(a)) + Opt(f(b)) + Pick(t, f)
  {
    assert [a, b] + t == [a] + ([b] + t);
    PickCons(a, [b] + t, f);
    PickCons(b, t, f);
  }

  lemma PickThree<T>(a: Action, b: Action, c: Action, t: seq<Action>, f: Action -> Option<T>)
    ensures Pick([a, b, c] + t, f) == Opt(f(a)) + Opt(f(b)) + Opt(f(c)) + Pick(t, f)
  {
    assert [a, b, c] + t == [a] + ([b, c] + t);
    PickCons(a, [b, c] + t, f);
    PickTwo(b, c, t, f);
  }

  /** The projection of a two-action list. */
  lemma PickPair<T>(a: Action, b: Action, f: Action -> Option<T>)
    ensures Pick([a, b], f) == Opt(f(a)) + Opt(f(b))
  {
    PickCons(a, [b], f);
    PickCons(b, [], f);
    assert [a, b] == [a] + [b];
    assert [b] == [b] + [];
  }

  /** The projection of a three-action list. */
  lemma PickTriple<T>(a: Action, b: Action, c: Action, f: Action -> Option<T>)
    ensures Pick([a, b, c], f) == Opt(f(a)) + (Opt(f(b)) + Opt(f(c)))
  {
    PickCons(a, [b, c], f);
    PickPair(b, c, f);
    assert [a, b, c] == [a] + [b, c];
  }

  lemma {:induction false} PickAppend<T>(a: seq<Action>, b: seq<Action>, f: Action -> Option<T>)
    ensures Pick(a + b, f) == Pick(a, f) + Pick(b, f)
  {
    if |a| > 0 {
      assert (a + b)[1..] == a[1..] + b;
      PickAppend(a[1..], b, f);
    } else {
      assert a + b == b;
    }
  }

  /** Projection of four consecutive parts. */
  lemma PickFour<T>(a: seq<Action>, b: seq<Action>, c: seq<Action>, e: seq<Action>, f: Action -> Option<T>)
    ensures Pick(a + (b + (c + e)), f) == Pick(a, f) + (Pick(b, f) + (Pick(c, f) + Pick(e, f)))
  {
    PickAppend(a, b + (c + e), f);
    PickAppend(b, c + e, f);
    PickAppend(c, e, f);
  }

  /** A trace without any action `f` picks yields nothing. */
  lemma {:induction false} PickNone<T>(t: seq<Action>, f: Action -> Option<T>)
    requires forall a :: a in t ==> f(a).None?
    ensures Pick(t, f) == []
  {
    if |t| > 0 {
      assert t[0] in t;
      PickNone(t[1..], f);
    }
  }

  function ReadOf(a: Action): Option<(Param, Option<Bytes>)> {
    if a.GetParameter? then Some((a.param, a.fallback)) else None
  }
  function TimeoutSetOf(a: Action): Option<Option<Bytes>> {
    if a.SetDiscoveryTimeout? then Some(a.ntValue) else None
  }
  function OptionsSetOf(a: Action): Option<Option<Bytes>> {
    if a.SetDiscoveryOptions? then Some(a.noValue) else None
  }
  function WindowOf(a: Action): Option<int> {
    if a.DiscoverDevicesApi? then Some(a.timeoutMillis) else None
  }
  function ParsedOf(a: Action): Option<Bytes> {
    if a.ParseDiscoveryApiData? then Some(a.payload) else None
  }
  function AddedOf(a: Action): Option<RemoteDevice> {
    if a.AddRemoteDevice? then Some(a.device) else None
  }
  function DiscoveredOf(a: Action): Option<RemoteDevice> {
    if a.DeviceDiscovered? then Some(a.device) else None
  }

  /** The procedure's own steps and the listener's lifecycle: everything a
      run does except reading and writing parameters and what it reports
      about single devices. */
  function StepOf(a: Action): Option<Action> {
    match a
    case GetParameter(_, _) | SetDiscoveryTimeout(_) | SetDiscoveryOptions(_)
       | AddRemoteDevice(_) | DeviceDiscovered(_) | DiscoveryError(_) => None
    case _ => Some(a)
  }

  /** The steps of a trace, in order. */
  function Steps(t: seq<Action>): seq<Action> { Pick(t, StepOf) }
  /** Parameter reads (`getParameter`), as (parameter, fallback) pairs. */
  function Reads(t: seq<Action>): seq<(Param, Option<Bytes>)> { Pick(t, ReadOf) }
  /** Arguments of the `setDiscoveryTimeout` calls. */
  function TimeoutSets(t: seq<Action>): seq<Option<Bytes>> { Pick(t, TimeoutSetOf) }
  /** Arguments of the `setDiscoveryOptions` calls. */
  function OptionsSets(t: seq<Action>): seq<Option<Bytes>> { Pick(t, OptionsSetOf) }
  /** Collection windows (`discoverDevicesAPI` timeouts), in milliseconds. */
  function Windows(t: seq<Action>): seq<int> { Pick(t, WindowOf) }
  /** Payloads handed to `parseDiscoveryAPIData`. */
  function Parsed(t: seq<Action>): seq<Bytes> { Pick(t, ParsedOf) }
  /** Devices passed to `addRemoteDevice`. */
  function Added(t: seq<Action>): seq<RemoteDevice> { Pick(t, AddedOf) }
  /** Devices reported through `deviceDiscovered`. */
  function Discovered(t: seq<Action>): seq<RemoteDevice> { Pick(t, DiscoveredOf) }

  /** A trace projection is the four phase projections joined in order;
      these are the joins when some phases contribute nothing. */
  lemma JoinAround<T>(ts: seq<T>, os: seq<T>, col: seq<T>, ep: seq<T>)
    ensures ts == [] && os == [] && ep == [] ==> ts + (os + (col + ep)) == col
    ensures ts == [] && col == [] ==> ts + (os + (col + ep)) == os + ep
    ensures os == [] && col == [] ==> ts + (os + (col + ep)) == ts + ep
    ensures col == [] && ep == [] ==> ts + (os + (col + ep)) == ts + os
  {
  }
}
