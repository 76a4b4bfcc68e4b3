/** What each phase of a discovery run performs: the projections of the
    timeout, options and collection phases, and the handling of replies. */
module PhaseProperties {
  import opened Wrappers
  import opened ByteUtils
  import opened XBeeModels
  import opened DiscoveryTrace
  import opened Discovery
  import NdPayload
  import XBeeNetwork

  /** The fallback `getParameter` is given for `NT`: `DEFAULT_TIMEOUT` when
      the device's timeout is used, `null` when it is only remembered. */
  function NtFallback(timeout: Timeout, defaultTimeout: Bytes): Option<Bytes> {
    if timeout.UseDeviceTimeout? then Some(defaultTimeout) else None
  }

  /** The actions the packet listener performs while handling replies. */
  predicate IsReplyAction(a: Action) {
    a.ParseDiscoveryApiData? || a.AddRemoteDevice? || a.DeviceDiscovered? || a.DiscoveryError?
  }

  // ---- Phase by phase: what a projection picks out of each part of a run ----

  lemma ReadPick<T>(dev: LocalDevice, p: Param, fallback: Option<Bytes>, f: Action -> Option<T>)
    ensures Pick(ReadParameter(dev, p, fallback).actions, f)
         == Opt(f(GetParameter(p, fallback)))
            + (if p in dev.params then [] else Opt(f(DiscoveryError(ReadFailed(Description(p))))))
  {
    if p in dev.params {
      PickCons(GetParameter(p, fallback), [], f);
    } else {
      PickTwo(GetParameter(p, fallback), DiscoveryError(ReadFailed(Description(p))), [], f);
    }
  }

  lemma TimeoutPickDevice<T>(dev: LocalDevice, defaultTimeout: Bytes, f: Action -> Option<T>)
    ensures Pick(ConfigureTimeout(dev, UseDeviceTimeout, defaultTimeout).actions, f)
         == Opt(f(ConfigureDiscoveryTimeout(UseDeviceTimeout)))
            + Pick(ReadParameter(dev, NT, Some(defaultTimeout)).actions, f)
  {
    PickCons(ConfigureDiscoveryTimeout(UseDeviceTimeout), ReadParameter(dev, NT, Some(defaultTimeout)).actions, f);
  }

  lemma TimeoutPickExplicit<T>(dev: LocalDevice, t: int64, defaultTimeout: Bytes, f: Action -> Option<T>)
    ensures Pick(ConfigureTimeout(dev, Explicit(t), defaultTimeout).actions, f)
         == Opt(f(ConfigureDiscoveryTimeout(Explicit(t))))
            + Pick(ReadParameter(dev, NT, None).actions, f)
            + Opt(f(SetDiscoveryTimeout(Some(TimeoutParam(t)))))
  {
    var c := ConfigureDiscoveryTimeout(Explicit(t));
    var r := ReadParameter(dev, NT, None);
    var w := SetDiscoveryTimeout(Some(TimeoutParam(t)));
    PickCons(c, r.actions + [w], f);
    PickAppend(r.actions, [w], f);
    PickCons(w, [], f);
  }

  lemma OptionsPickAbsent<T>(dev: LocalDevice, encode: (Protocol, set<DiscoveryOption>) -> int32, f: Action -> Option<T>)
    ensures Pick(ConfigureOptions(dev, None, encode).actions, f) == Opt(f(ConfigureDiscoveryOptions(None)))
  {
    PickCons(ConfigureDiscoveryOptions(None), [], f);
  }

  lemma OptionsPickGiven<T>(dev: LocalDevice, options: set<DiscoveryOption>,
                           encode: (Protocol, set<DiscoveryOption>) -> int32, f: Action -> Option<T>)
    ensures Pick(ConfigureOptions(dev, Some(options), encode).actions, f)
         == Opt(f(ConfigureDiscoveryOptions(Some(options))))
            + Pick(ReadParameter(dev, NO, None).actions, f)
            + Opt(f(SetDiscoveryOptions(Some(OptionsParam(encode, dev.protocol, options)))))
  {
    var c := ConfigureDiscoveryOptions(Some(options));
    var r := ReadParameter(dev, NO, None);
    var w := SetDiscoveryOptions(Some(OptionsParam(encode, dev.protocol, options)));
    PickCons(c, r.actions + [w], f);
    PickAppend(r.actions, [w], f);
    PickCons(w, [], f);
  }

  lemma CollectPick<T>(dev: LocalDevice, window: int, replies: seq<Bytes>, f: Action -> Option<T>)
    ensures Pick(Collect(dev, window, replies).actions, f)
         == Opt(f(DiscoverDevicesApi(window))) + Opt(f(StartListening)) + Opt(f(SendNodeDiscoverCommand))
            + Pick(HandleReplies(dev.network, dev.protocol, replies).actions, f)
            + Opt(f(StopListening))
  {
    var h := HandleReplies(dev.network, dev.protocol, replies);
    var head := [DiscoverDevicesApi(window), StartListening, SendNodeDiscoverCommand];
    PickThree(DiscoverDevicesApi(window), StartListening, SendNodeDiscoverCommand, h.actions + [StopListening], f);
    PickAppend(h.actions, [StopListening], f);
    PickCons(StopListening, [], f);
  }

  /** A projection of a whole run is the concatenation of its projections of the phases. */
  lemma RunPick<T>(nd: NodeDiscovery, req: Request, env: Env, f: Action -> Option<T>)
    ensures var ph := RunPhases(nd, req, env);
      Pick(Run(nd, req, env).trace, f)
        == Pick(ph.timeout.actions, f) + (Pick(ph.options.actions, f) + (Pick(ph.collection.actions, f) + Pick(Epilogue(ph), f)))
  {
    var ph := RunPhases(nd, req, env);
    PickFour(ph.timeout.actions, ph.options.actions, ph.collection.actions, Epilogue(ph), f);
  }

  /** Restoration writes `NT`, then `NO`, then reports the end. */
  lemma EpiloguePick<T>(ph: Phases, f: Action -> Option<T>)
    ensures Pick(Epilogue(ph), f)
         == Opt(f(SetDiscoveryTimeout(ph.timeout.saved))) + (Opt(f(SetDiscoveryOptions(ph.options.saved))) + Opt(f(DiscoveryFinished(None))))
  {
    var e := Epilogue(ph);
    PickTriple(e[0], e[1], e[2], f);
    assert e == [e[0], e[1], e[2]];
  }

  /** Restoration writes the remembered `NT` value once. */
  lemma EpilogueTimeoutSets(ph: Phases)
    ensures TimeoutSets(Epilogue(ph)) == [ph.timeout.saved]
  {
    EpiloguePick(ph, TimeoutSetOf);
  }

  /** Restoration writes the remembered `NO` value once. */
  lemma EpilogueOptionsSets(ph: Phases)
    ensures OptionsSets(Epilogue(ph)) == [ph.options.saved]
  {
    EpiloguePick(ph, OptionsSetOf);
  }

  /** Restoration reads nothing, opens no window and reports no device. */
  lemma EpilogueQuiet(ph: Phases)
    ensures var e := Epilogue(ph);
      && Reads(e) == [] && Windows(e) == []
      && Parsed(e) == [] && Added(e) == [] && Discovered(e) == []
  {
    EpiloguePick(ph, ReadOf);
    EpiloguePick(ph, WindowOf);
    EpiloguePick(ph, ParsedOf);
    EpiloguePick(ph, AddedOf);
    EpiloguePick(ph, DiscoveredOf);
  }

  // ---- Reply handling ----

  /** What handling one reply reports: one parse; if the payload parses,
      one add and one report of the parsed device, otherwise neither. */
  lemma HandleReplyReports(reg: XBeeNetwork.Registry, local: Protocol, payload: Bytes)
    ensures var c := HandleReply(reg, local, payload);
      && Parsed(c.actions) == [payload]
      && c.found == ReplyDevice(payload, local)
      && Added(c.actions) == c.found
      && Discovered(c.actions) == c.found
  {
    match NdPayload.ParseDiscoveryData(payload, local)
    case Success(d) =>
      var p, a, r := ParseDiscoveryApiData(payload), AddRemoteDevice(d), DeviceDiscovered(d);
      PickTriple(p, a, r, ParsedOf);
      PickTriple(p, a, r, AddedOf);
      PickTriple(p, a, r, DiscoveredOf);
    case Failure(_) =>
      var p, e := ParseDiscoveryApiData(payload), DiscoveryError(MalformedReply(payload));
      PickPair(p, e, ParsedOf);
      PickPair(p, e, AddedOf);
      PickPair(p, e, DiscoveredOf);
  }

  /** Handling one reply performs only reply actions, and the network keeps
      its entries and gains the address of the device found, if any. */
  lemma HandleReplyEffects(reg: XBeeNetwork.Registry, local: Protocol, payload: Bytes)
    ensures var c := HandleReply(reg, local, payload);
      && (forall a :: a in c.actions ==> IsReplyAction(a))
      && c.network.Keys == reg.Keys + XBeeNetwork.Addresses(c.found)
      && (forall a :: a in reg ==> c.network[a] == reg[a])
  {
  }

  /** While collecting, the listener only parses, adds, reports and flags
      errors. */
  lemma {:induction false} HandleRepliesOnlyReplyActions(reg: XBeeNetwork.Registry, local: Protocol, replies: seq<Bytes>)
    ensures forall a :: a in HandleReplies(reg, local, replies).actions ==> IsReplyAction(a)
    decreases |replies|
  {
    if |replies| > 0 {
      var step := HandleReply(reg, local, replies[0]);
      var rest := HandleReplies(step.network, local, replies[1..]);
      HandleReplyEffects(reg, local, replies[0]);
      HandleRepliesOnlyReplyActions(step.network, local, replies[1..]);
      assert HandleReplies(reg, local, replies).actions == step.actions + rest.actions;
    }
  }

  /** The listener handles every reply, in arrival order: each is parsed
      once; the devices found are those the replies describe, in reply
      order, each added to the network once and reported once. */
  lemma {:induction false} HandleRepliesReports(reg: XBeeNetwork.Registry, local: Protocol, replies: seq<Bytes>)
    ensures var c := HandleReplies(reg, local, replies);
      && Parsed(c.actions) == replies
      && c.found == DevicesFrom(replies, local)
      && Added(c.actions) == c.found
      && Discovered(c.actions) == c.found
    decreases |replies|
  {
    if |replies| > 0 {
      var step := HandleReply(reg, local, replies[0]);
      var rest := HandleReplies(step.network, local, replies[1..]);
      HandleReplyReports(reg, local, replies[0]);
      HandleRepliesReports(step.network, local, replies[1..]);
      PickAppend(step.actions, rest.actions, ParsedOf);
      PickAppend(step.actions, rest.actions, AddedOf);
      PickAppend(step.actions, rest.actions, DiscoveredOf);
      assert replies == [replies[0]] + replies[1..];
    }
  }

  /** The network keeps every entry it had and gains exactly the addresses
      of the devices found. */
  lemma {:induction false} HandleRepliesNetwork(reg: XBeeNetwork.Registry, local: Protocol, replies: seq<Bytes>)
    ensures var c := HandleReplies(reg, local, replies);
      && c.network.Keys == reg.Keys + XBeeNetwork.Addresses(c.found)
      && (forall a :: a in reg ==> c.network[a] == reg[a])
    decreases |replies|
  {
    if |replies| > 0 {
      var step := HandleReply(reg, local, replies[0]);
      var rest := HandleReplies(step.network, local, replies[1..]);
      HandleReplyEffects(reg, local, replies[0]);
      HandleRepliesNetwork(step.network, local, replies[1..]);
      AddressesAppend(step.found, rest.found);
    }
  }

  lemma AddressesAppend(a: seq<RemoteDevice>, b: seq<RemoteDevice>)
    requires |a| <= 1
    ensures XBeeNetwork.Addresses(a + b) == XBeeNetwork.Addresses(a) + XBeeNetwork.Addresses(b)
  {
    if |a| == 1 {
      assert (a + b)[1..] == b;
      assert a[1..] == [];
    } else {
      assert a + b == b;
    }
  }

  // ---- Phase by phase: which actions each phase performs ----

  /** The actions that configuring the timeout performs. */
  predicate InTimeoutPhase(a: Action) {
    a.ConfigureDiscoveryTimeout? || a.GetParameter? || a.SetDiscoveryTimeout? || (a.DiscoveryError? && a.problem.ReadFailed?)
  }

  /** The actions that configuring the options performs. */
  predicate InOptionsPhase(a: Action) {
    a.ConfigureDiscoveryOptions? || a.GetParameter? || a.SetDiscoveryOptions? || (a.DiscoveryError? && a.problem.ReadFailed?)
  }

  /** The actions of collection. */
  predicate InCollection(a: Action) {
    a.DiscoverDevicesApi? || a.StartListening? || a.SendNodeDiscoverCommand? || a.StopListening? || IsReplyAction(a)
  }

  /** Configuring the timeout only configures, reads, writes `NT` and flags read failures. */
  lemma TimeoutPhaseActions(dev: LocalDevice, timeout: Timeout, defaultTimeout: Bytes)
    ensures forall a :: a in ConfigureTimeout(dev, timeout, defaultTimeout).actions ==> InTimeoutPhase(a)
  {
  }

  /** Configuring the options only configures, reads, writes `NO` and flags read failures. */
  lemma OptionsPhaseActions(dev: LocalDevice, options: Option<set<DiscoveryOption>>,
                            encode: (Protocol, set<DiscoveryOption>) -> int32)
    ensures forall a :: a in ConfigureOptions(dev, options, encode).actions ==> InOptionsPhase(a)
  {
  }

  /** Collection only opens the window, starts and stops listening, sends `ND` and handles replies. */
  lemma CollectionActions(dev: LocalDevice, window: int, replies: seq<Bytes>)
    ensures forall a :: a in Collect(dev, window, replies).actions ==> InCollection(a)
  {
    HandleRepliesOnlyReplyActions(dev.network, dev.protocol, replies);
  }

  /** Configuring the timeout reads `NT` once, with the fallback the timeout calls for. */
  lemma TimeoutPhaseReads(dev: LocalDevice, timeout: Timeout, defaultTimeout: Bytes)
    ensures Reads(ConfigureTimeout(dev, timeout, defaultTimeout).actions) == [(NT, NtFallback(timeout, defaultTimeout))]
  {
    match timeout
    case UseDeviceTimeout =>
      TimeoutPickDevice(dev, defaultTimeout, ReadOf);
      ReadPick(dev, NT, Some(defaultTimeout), ReadOf);
    case Explicit(t) =>
      TimeoutPickExplicit(dev, t, defaultTimeout, ReadOf);
      ReadPick(dev, NT, None, ReadOf);
  }

  /** Configuring the timeout writes `NT` only for an explicit timeout. */
  lemma TimeoutPhaseWrites(dev: LocalDevice, timeout: Timeout, defaultTimeout: Bytes)
    ensures TimeoutSets(ConfigureTimeout(dev, timeout, defaultTimeout).actions)
         == (if timeout.Explicit? then [Some(TimeoutParam(timeout.millis))] else [])
  {
    match timeout
    case UseDeviceTimeout =>
      TimeoutPickDevice(dev, defaultTimeout, TimeoutSetOf);
      ReadPick(dev, NT, Some(defaultTimeout), TimeoutSetOf);
    case Explicit(t) =>
      TimeoutPickExplicit(dev, t, defaultTimeout, TimeoutSetOf);
      ReadPick(dev, NT, None, TimeoutSetOf);
  }

  /** Configuring the options reads `NO` once when options are given. */
  lemma OptionsPhaseReads(dev: LocalDevice, options: Option<set<DiscoveryOption>>,
                          encode: (Protocol, set<DiscoveryOption>) -> int32)
    ensures Reads(ConfigureOptions(dev, options, encode).actions) == (if options.Some? then [(NO, None)] else [])
  {
    match options
    case None =>
      OptionsPickAbsent(dev, encode, ReadOf);
    case Some(opts) =>
      OptionsPickGiven(dev, opts, encode, ReadOf);
      ReadPick(dev, NO, None, ReadOf);
  }

  /** Configuring the options writes `NO` once, with the encoded set, when options are given. */
  lemma OptionsPhaseWrites(dev: LocalDevice, options: Option<set<DiscoveryOption>>,
                           encode: (Protocol, set<DiscoveryOption>) -> int32)
    ensures OptionsSets(ConfigureOptions(dev, options, encode).actions)
         == (if options.Some? then [Some(OptionsParam(encode, dev.protocol, options.value))] else [])
  {
    match options
    case None =>
      OptionsPickAbsent(dev, encode, OptionsSetOf);
    case Some(opts) =>
      OptionsPickGiven(dev, opts, encode, OptionsSetOf);
      ReadPick(dev, NO, None, OptionsSetOf);
  }

  /** Collection reads no parameter. */
  lemma CollectionNoReads(dev: LocalDevice, window: int, replies: seq<Bytes>)
    ensures Reads(Collect(dev, window, replies).actions) == []
  {
    CollectionActions(dev, window, replies);
    PickNone(Collect(dev, window, replies).actions, ReadOf);
  }

  /** Collection writes no `NT`. */
  lemma CollectionNoTimeoutSets(dev: LocalDevice, window: int, replies: seq<Bytes>)
    ensures TimeoutSets(Collect(dev, window, replies).actions) == []
  {
    CollectionActions(dev, window, replies);
    PickNone(Collect(dev, window, replies).actions, TimeoutSetOf);
  }

  /** Collection writes no `NO`. */
  lemma CollectionNoOptionsSets(dev: LocalDevice, window: int, replies: seq<Bytes>)
    ensures OptionsSets(Collect(dev, window, replies).actions) == []
  {
    CollectionActions(dev, window, replies);
    PickNone(Collect(dev, window, replies).actions, OptionsSetOf);
  }

  /** Collection opens exactly one window, of the given length. */
  lemma CollectionWindows(dev: LocalDevice, window: int, replies: seq<Bytes>)
    ensures Windows(Collect(dev, window, replies).actions) == [window]
  {
    var h := HandleReplies(dev.network, dev.protocol, replies);
    HandleRepliesOnlyReplyActions(dev.network, dev.protocol, replies);
    PickNone(h.actions, WindowOf);
    CollectPick(dev, window, replies, WindowOf);
  }

  /** Collection parses every reply, in arrival order. */
  lemma CollectionParsed(dev: LocalDevice, window: int, replies: seq<Bytes>)
    ensures Parsed(Collect(dev, window, replies).actions) == replies
  {
    HandleRepliesReports(dev.network, dev.protocol, replies);
    CollectPick(dev, window, replies, ParsedOf);
  }

  /** Collection adds each device found to the network, in reply order. */
  lemma CollectionAdded(dev: LocalDevice, window: int, replies: seq<Bytes>)
    ensures Added(Collect(dev, window, replies).actions) == DevicesFrom(replies, dev.protocol)
  {
    HandleRepliesReports(dev.network, dev.protocol, replies);
    CollectPick(dev, window, replies, AddedOf);
  }

  /** Collection reports each device found, in reply order. */
  lemma CollectionDiscovered(dev: LocalDevice, window: int, replies: seq<Bytes>)
    ensures Discovered(Collect(dev, window, replies).actions) == DevicesFrom(replies, dev.protocol)
  {
    HandleRepliesReports(dev.network, dev.protocol, replies);
    CollectPick(dev, window, replies, DiscoveredOf);
  }

  /** A projection that picks nothing the timeout phase performs yields nothing from it. */
  lemma TimeoutPhaseSilent<T>(dev: LocalDevice, timeout: Timeout, defaultTimeout: Bytes, f: Action -> Option<T>)
    requires f(ConfigureDiscoveryTimeout(timeout)).None?
    requires f(GetParameter(NT, NtFallback(timeout, defaultTimeout))).None?
    requires f(DiscoveryError(ReadFailed(Description(NT)))).None?
    requires timeout.Explicit? ==> f(SetDiscoveryTimeout(Some(TimeoutParam(timeout.millis)))).None?
    ensures Pick(ConfigureTimeout(dev, timeout, defaultTimeout).actions, f) == []
  {
    match timeout
    case UseDeviceTimeout =>
      TimeoutPickDevice(dev, defaultTimeout, f);
      ReadPick(dev, NT, Some(defaultTimeout), f);
    case Explicit(t) =>
      TimeoutPickExplicit(dev, t, defaultTimeout, f);
      ReadPick(dev, NT, None, f);
  }

  /** A projection that picks nothing the options phase performs yields nothing from it. */
  lemma OptionsPhaseSilent<T>(dev: LocalDevice, options: Option<set<DiscoveryOption>>,
                              encode: (Protocol, set<DiscoveryOption>) -> int32, f: Action -> Option<T>)
    requires f(ConfigureDiscoveryOptions(options)).None?
    requires f(GetParameter(NO, None)).None?
    requires f(DiscoveryError(ReadFailed(Description(NO)))).None?
    requires options.Some? ==> f(SetDiscoveryOptions(Some(OptionsParam(encode, dev.protocol, options.value)))).None?
    ensures Pick(ConfigureOptions(dev, options, encode).actions, f) == []
  {
    match options
    case None =>
      OptionsPickAbsent(dev, encode, f);
    case Some(opts) =>
      OptionsPickGiven(dev, opts, encode, f);
      ReadPick(dev, NO, None, f);
  }

  /** Configuring the timeout writes no `NO`. */
  lemma TimeoutPhaseNoOptionsSets(dev: LocalDevice, timeout: Timeout, defaultTimeout: Bytes)
    ensures OptionsSets(ConfigureTimeout(dev, timeout, defaultTimeout).actions) == []
  {
    TimeoutPhaseSilent(dev, timeout, defaultTimeout, OptionsSetOf);
  }

  /** Configuring the timeout opens no collection window. */
  lemma TimeoutPhaseNoWindows(dev: LocalDevice, timeout: Timeout, defaultTimeout: Bytes)
    ensures Windows(ConfigureTimeout(dev, timeout, defaultTimeout).actions) == []
  {
    TimeoutPhaseSilent(dev, timeout, defaultTimeout, WindowOf);
  }

  /** Configuring the timeout parses nothing. */
  lemma TimeoutPhaseNoParsed(dev: LocalDevice, timeout: Timeout, defaultTimeout: Bytes)
    ensures Parsed(ConfigureTimeout(dev, timeout, defaultTimeout).actions) == []
  {
    TimeoutPhaseSilent(dev, timeout, defaultTimeout, ParsedOf);
  }

  /** Configuring the timeout adds no device. */
  lemma TimeoutPhaseNoAdded(dev: LocalDevice, timeout: Timeout, defaultTimeout: Bytes)
    ensures Added(ConfigureTimeout(dev, timeout, defaultTimeout).actions) == []
  {
    TimeoutPhaseSilent(dev, timeout, defaultTimeout, AddedOf);
  }

  /** Configuring the timeout reports no device. */
  lemma TimeoutPhaseNoDiscovered(dev: LocalDevice, timeout: Timeout, defaultTimeout: Bytes)
    ensures Discovered(ConfigureTimeout(dev, timeout, defaultTimeout).actions) == []
  {
    TimeoutPhaseSilent(dev, timeout, defaultTimeout, DiscoveredOf);
  }

  /** Configuring the options writes no `NT`. */
  lemma OptionsPhaseNoTimeoutSets(dev: LocalDevice, options: Option<set<DiscoveryOption>>,
                         encode: (Protocol, set<DiscoveryOption>) -> int32)
    ensures TimeoutSets(ConfigureOptions(dev, options, encode).actions) == []
  {
    OptionsPhaseSilent(dev, options, encode, TimeoutSetOf);
  }

  /** Configuring the options opens no collection window. */
  lemma OptionsPhaseNoWindows(dev: LocalDevice, options: Option<set<DiscoveryOption>>,
                         encode: (Protocol, set<DiscoveryOption>) -> int32)
    ensures Windows(ConfigureOptions(dev, options, encode).actions) == []
  {
    OptionsPhaseSilent(dev, options, encode, WindowOf);
  }

  /** Configuring the options parses nothing. */
  lemma OptionsPhaseNoParsed(dev: LocalDevice, options: Option<set<DiscoveryOption>>,
                         encode: (Protocol, set<DiscoveryOption>) -> int32)
    ensures Parsed(ConfigureOptions(dev, options, encode).actions) == []
  {
    OptionsPhaseSilent(dev, options, encode, ParsedOf);
  }

  /** Configuring the options adds no device. */
  lemma OptionsPhaseNoAdded(dev: LocalDevice, options: Option<set<DiscoveryOption>>,
                         encode: (Protocol, set<DiscoveryOption>) -> int32)
    ensures Added(ConfigureOptions(dev, options, encode).actions) == []
  {
    OptionsPhaseSilent(dev, options, encode, AddedOf);
  }

  /** Configuring the options reports no device. */
  lemma OptionsPhaseNoDiscovered(dev: LocalDevice, options: Option<set<DiscoveryOption>>,
                         encode: (Protocol, set<DiscoveryOption>) -> int32)
    ensures Discovered(ConfigureOptions(dev, options, encode).actions) == []
  {
    OptionsPhaseSilent(dev, options, encode, DiscoveredOf);
  }

  // ---- Parameters across the phases ----

  /** Configuring the options leaves `NT` alone. */
  lemma OptionsKeepTimeoutParam(dev: LocalDevice, options: Option<set<DiscoveryOption>>,
                                encode: (Protocol, set<DiscoveryOption>) -> int32)
    ensures var d := ConfigureOptions(dev, options, encode).device;
      (NT in d.params <==> NT in dev.params) && (NT in dev.params ==> d.params[NT] == dev.params[NT])
  {
  }

  /** Configuring the timeout leaves `NO` alone. */
  lemma TimeoutKeepsOptionsParam(dev: LocalDevice, timeout: Timeout, defaultTimeout: Bytes)
    ensures var d := ConfigureTimeout(dev, timeout, defaultTimeout).device;
      (NO in d.params <==> NO in dev.params) && (NO in dev.params ==> d.params[NO] == dev.params[NO])
      && Saved(d, NO) == Saved(dev, NO)
  {
  }

  /** Restoration leaves `NT` as the timeout phase remembered it, or, when
      nothing was remembered, as collection found it. */
  lemma RestoredTimeoutParam(ph: Phases)
    ensures var d := Restored(ph).params;
      if ph.timeout.saved.Some? then NT in d && d[NT] == ph.timeout.saved.value
      else (NT in d <==> NT in ph.options.device.params)
           && (NT in d ==> d[NT] == ph.options.device.params[NT])
  {
  }

  /** Restoration leaves `NO` as the options phase remembered it, or, when
      nothing was remembered, as collection found it. */
  lemma RestoredOptionsParam(ph: Phases)
    ensures var d := Restored(ph).params;
      if ph.options.saved.Some? then NO in d && d[NO] == ph.options.saved.value
      else (NO in d <==> NO in ph.options.device.params)
           && (NO in d ==> d[NO] == ph.options.device.params[NO])
  {
  }

  // ---- Steps: the procedure's own calls and the listener's lifecycle ----

  /** One `parseDiscoveryAPIData` call per reply, in arrival order. */
  function ParseCalls(replies: seq<Bytes>): (t: seq<Action>)
    ensures |t| == |replies|
  {
    if |replies| == 0 then [] else [ParseDiscoveryApiData(replies[0])] + ParseCalls(replies[1..])
  }

  /** Configuring the timeout takes one step of its own. */
  lemma TimeoutPhaseSteps(dev: LocalDevice, timeout: Timeout, defaultTimeout: Bytes)
    ensures Steps(ConfigureTimeout(dev, timeout, defaultTimeout).actions) == [ConfigureDiscoveryTimeout(timeout)]
  {
    match timeout
    case UseDeviceTimeout => DeviceTimeoutSteps(dev, defaultTimeout);
    case Explicit(t) => ExplicitTimeoutSteps(dev, t, defaultTimeout);
  }

  lemma DeviceTimeoutSteps(dev: LocalDevice, defaultTimeout: Bytes)
    ensures Steps(ConfigureTimeout(dev, UseDeviceTimeout, defaultTimeout).actions) == [ConfigureDiscoveryTimeout(UseDeviceTimeout)]
  {
    TimeoutPickDevice(dev, defaultTimeout, StepOf);
    ReadPick(dev, NT, Some(defaultTimeout), StepOf);
  }

  lemma ExplicitTimeoutSteps(dev: LocalDevice, t: int64, defaultTimeout: Bytes)
    ensures Steps(ConfigureTimeout(dev, Explicit(t), defaultTimeout).actions) == [ConfigureDiscoveryTimeout(Explicit(t))]
  {
    TimeoutPickExplicit(dev, t, defaultTimeout, StepOf);
    ReadPick(dev, NT, None, StepOf);
  }

  /** Configuring the options takes one step of its own. */
  lemma OptionsPhaseSteps(dev: LocalDevice, options: Option<set<DiscoveryOption>>,
                          encode: (Protocol, set<DiscoveryOption>) -> int32)
    ensures Steps(ConfigureOptions(dev, options, encode).actions) == [ConfigureDiscoveryOptions(options)]
  {
    match options
    case None =>
      OptionsPickAbsent(dev, encode, StepOf);
    case Some(opts) =>
      OptionsPickGiven(dev, opts, encode, StepOf);
      ReadPick(dev, NO, None, StepOf);
  }

  /** Handling one reply parses it and takes no other step. */
  lemma HandleReplySteps(reg: XBeeNetwork.Registry, local: Protocol, payload: Bytes)
    ensures Steps(HandleReply(reg, local, payload).actions) == [ParseDiscoveryApiData(payload)]
  {
    match NdPayload.ParseDiscoveryData(payload, local)
    case Success(d) => FoundReplySteps(payload, d);
    case Failure(_) => MalformedReplySteps(payload);
  }

  lemma FoundReplySteps(payload: Bytes, d: RemoteDevice)
    ensures Steps([ParseDiscoveryApiData(payload), AddRemoteDevice(d), DeviceDiscovered(d)])
         == [ParseDiscoveryApiData(payload)]
  {
    PickTriple(ParseDiscoveryApiData(payload), AddRemoteDevice(d), DeviceDiscovered(d), StepOf);
  }

  lemma MalformedReplySteps(payload: Bytes)
    ensures Steps([ParseDiscoveryApiData(payload), DiscoveryError(MalformedReply(payload))])
         == [ParseDiscoveryApiData(payload)]
  {
    PickPair(ParseDiscoveryApiData(payload), DiscoveryError(MalformedReply(payload)), StepOf);
  }

  /** Handling the replies parses each once, in arrival order, and takes no
      other step: in particular devices are added one at a time, never
      through `addRemoteDevices`. */
  lemma {:induction false} HandleRepliesSteps(reg: XBeeNetwork.Registry, local: Protocol, replies: seq<Bytes>)
    ensures Steps(HandleReplies(reg, local, replies).actions) == ParseCalls(replies)
    decreases |replies|
  {
    if |replies| > 0 {
      var step := HandleReply(reg, local, replies[0]);
      var rest := HandleReplies(step.network, local, replies[1..]);
      HandleReplySteps(reg, local, replies[0]);
      HandleRepliesSteps(step.network, local, replies[1..]);
      PickAppend(step.actions, rest.actions, StepOf);
    }
  }

  /** Collection opens the window, starts listening, sends `ND`, parses
      each reply and stops listening, in that order. */
  lemma CollectionSteps(dev: LocalDevice, window: int, replies: seq<Bytes>)
    ensures Steps(Collect(dev, window, replies).actions)
         == [DiscoverDevicesApi(window), StartListening, SendNodeDiscoverCommand] + (ParseCalls(replies) + [StopListening])
  {
    var head := [DiscoverDevicesApi(window), StartListening, SendNodeDiscoverCommand];
    var calls := ParseCalls(replies);
    HandleRepliesSteps(dev.network, dev.protocol, replies);
    CollectPick(dev, window, replies, StepOf);
    CollectionHeadSteps(window);
    assert head + calls + [StopListening] == head + (calls + [StopListening]);
  }

  lemma CollectionHeadSteps(window: int)
    ensures Opt(StepOf(DiscoverDevicesApi(window))) + Opt(StepOf(StartListening)) + Opt(StepOf(SendNodeDiscoverCommand))
         == [DiscoverDevicesApi(window), StartListening, SendNodeDiscoverCommand]
    ensures Opt(StepOf(StopListening)) == [StopListening]
  {
  }

  /** Restoration takes one step: reporting the end without error. */
  lemma EpilogueSteps(ph: Phases)
    ensures Steps(Epilogue(ph)) == [DiscoveryFinished(None)]
  {
    EpiloguePick(ph, StepOf);
  }
}
