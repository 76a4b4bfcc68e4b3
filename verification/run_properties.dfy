/** Properties of a discovery run: what is read, written, sent and reported,
    how often and in which order, and what the device and network look like
    afterwards. */
module RunProperties {
  import opened Wrappers
  import opened ByteUtils
  import opened XBeeModels
  import opened DiscoveryTrace
  import opened Discovery
  import opened PhaseProperties
  import opened RecordingListener
  import NdPayload
  import XBeeNetwork

  /** The arguments pass the synchronous checks. */
  predicate Accepted(nd: NodeDiscovery, req: Request) {
    CheckArguments(req.hasListener, req.timeout, nd.device.open).None?
  }

  /** Every phase of a run stays within its own kind of action. */
  lemma RunPhaseActions(nd: NodeDiscovery, req: Request, env: Env)
    ensures var ph := RunPhases(nd, req, env);
      && (forall a :: a in ph.timeout.actions ==> InTimeoutPhase(a))
      && (forall a :: a in ph.options.actions ==> InOptionsPhase(a))
      && (forall a :: a in ph.collection.actions ==> InCollection(a))
  {
    var ph := RunPhases(nd, req, env);
    TimeoutPhaseActions(nd.device, req.timeout, env.defaultTimeout);
    OptionsPhaseActions(ph.timeout.device, req.options, env.calculateDiscoveryValue);
    CollectionActions(ph.options.device, ph.timeout.window, env.replies);
  }

  // ---- A run's trace, phase by phase ----

  /** Only the timeout and options phases read parameters. */
  lemma TraceReads(nd: NodeDiscovery, req: Request, env: Env)
    ensures var ph := RunPhases(nd, req, env);
      Reads(Run(nd, req, env).trace) == Reads(ph.timeout.actions) + Reads(ph.options.actions)
  {
    var ph := RunPhases(nd, req, env);
    RunPick(nd, req, env, ReadOf);
    CollectionNoReads(ph.options.device, ph.timeout.window, env.replies);
    EpilogueQuiet(ph);
    JoinAround(Reads(ph.timeout.actions), Reads(ph.options.actions), Reads(ph.collection.actions), Reads(Epilogue(ph)));
  }

  /** `NT` is written by the timeout phase and once more, with the remembered value, at the end. */
  lemma TraceTimeoutSets(nd: NodeDiscovery, req: Request, env: Env)
    ensures var ph := RunPhases(nd, req, env);
      TimeoutSets(Run(nd, req, env).trace) == TimeoutSets(ph.timeout.actions) + [ph.timeout.saved]
  {
    var ph := RunPhases(nd, req, env);
    RunPick(nd, req, env, TimeoutSetOf);
    OptionsPhaseNoTimeoutSets(ph.timeout.device, req.options, env.calculateDiscoveryValue);
    CollectionNoTimeoutSets(ph.options.device, ph.timeout.window, env.replies);
    EpilogueTimeoutSets(ph);
    JoinAround(TimeoutSets(ph.timeout.actions), TimeoutSets(ph.options.actions),
               TimeoutSets(ph.collection.actions), TimeoutSets(Epilogue(ph)));
  }

  /** `NO` is written by the options phase and once more, with the remembered value, at the end. */
  lemma TraceOptionsSets(nd: NodeDiscovery, req: Request, env: Env)
    ensures var ph := RunPhases(nd, req, env);
      OptionsSets(Run(nd, req, env).trace) == OptionsSets(ph.options.actions) + [ph.options.saved]
  {
    var ph := RunPhases(nd, req, env);
    RunPick(nd, req, env, OptionsSetOf);
    TimeoutPhaseNoOptionsSets(nd.device, req.timeout, env.defaultTimeout);
    CollectionNoOptionsSets(ph.options.device, ph.timeout.window, env.replies);
    EpilogueOptionsSets(ph);
    JoinAround(OptionsSets(ph.timeout.actions), OptionsSets(ph.options.actions),
               OptionsSets(ph.collection.actions), OptionsSets(Epilogue(ph)));
  }

  /** The only collection window is the one the timeout phase computed. */
  lemma TraceWindows(nd: NodeDiscovery, req: Request, env: Env)
    ensures Windows(Run(nd, req, env).trace) == [RunPhases(nd, req, env).timeout.window]
  {
    var ph := RunPhases(nd, req, env);
    RunPick(nd, req, env, WindowOf);
    TimeoutPhaseNoWindows(nd.device, req.timeout, env.defaultTimeout);
    OptionsPhaseNoWindows(ph.timeout.device, req.options, env.calculateDiscoveryValue);
    CollectionWindows(ph.options.device, ph.timeout.window, env.replies);
    EpilogueQuiet(ph);
    JoinAround(Windows(ph.timeout.actions), Windows(ph.options.actions), Windows(ph.collection.actions), Windows(Epilogue(ph)));
  }

  /** The steps of a run: those of each phase, in phase order. */
  lemma TraceSteps(nd: NodeDiscovery, req: Request, env: Env)
    ensures var ph := RunPhases(nd, req, env);
      Steps(Run(nd, req, env).trace)
        == [ConfigureDiscoveryTimeout(req.timeout)] + ([ConfigureDiscoveryOptions(req.options)]
           + (Steps(ph.collection.actions) + [DiscoveryFinished(None)]))
  {
    var ph := RunPhases(nd, req, env);
    RunPick(nd, req, env, StepOf);
    TimeoutPhaseSteps(nd.device, req.timeout, env.defaultTimeout);
    OptionsPhaseSteps(ph.timeout.device, req.options, env.calculateDiscoveryValue);
    EpilogueSteps(ph);
  }

  /** Every reply is parsed, in arrival order. */
  lemma TraceParsed(nd: NodeDiscovery, req: Request, env: Env)
    ensures Parsed(Run(nd, req, env).trace) == env.replies
  {
    var ph := RunPhases(nd, req, env);
    RunPick(nd, req, env, ParsedOf);
    TimeoutPhaseNoParsed(nd.device, req.timeout, env.defaultTimeout);
    OptionsPhaseNoParsed(ph.timeout.device, req.options, env.calculateDiscoveryValue);
    CollectionParsed(ph.options.device, ph.timeout.window, env.replies);
    EpilogueQuiet(ph);
    JoinAround(Parsed(ph.timeout.actions), Parsed(ph.options.actions), Parsed(ph.collection.actions), Parsed(Epilogue(ph)));
  }

  /** The devices the replies describe are added to the network, in reply order. */
  lemma TraceAdded(nd: NodeDiscovery, req: Request, env: Env)
    ensures Added(Run(nd, req, env).trace) == DevicesFrom(env.replies, nd.device.protocol)
  {
    var ph := RunPhases(nd, req, env);
    RunPick(nd, req, env, AddedOf);
    TimeoutPhaseNoAdded(nd.device, req.timeout, env.defaultTimeout);
    OptionsPhaseNoAdded(ph.timeout.device, req.options, env.calculateDiscoveryValue);
    CollectionAdded(ph.options.device, ph.timeout.window, env.replies);
    EpilogueQuiet(ph);
    JoinAround(Added(ph.timeout.actions), Added(ph.options.actions), Added(ph.collection.actions), Added(Epilogue(ph)));
  }

  /** The devices the replies describe are reported to the listener, in reply order. */
  lemma TraceDiscovered(nd: NodeDiscovery, req: Request, env: Env)
    ensures Discovered(Run(nd, req, env).trace) == DevicesFrom(env.replies, nd.device.protocol)
  {
    var ph := RunPhases(nd, req, env);
    RunPick(nd, req, env, DiscoveredOf);
    TimeoutPhaseNoDiscovered(nd.device, req.timeout, env.defaultTimeout);
    OptionsPhaseNoDiscovered(ph.timeout.device, req.options, env.calculateDiscoveryValue);
    CollectionDiscovered(ph.options.device, ph.timeout.window, env.replies);
    EpilogueQuiet(ph);
    JoinAround(Discovered(ph.timeout.actions), Discovered(ph.options.actions),
               Discovered(ph.collection.actions), Discovered(Epilogue(ph)));
  }

  // ---- Whole runs ----

  /** `NT` is read exactly once per run — with `DEFAULT_TIMEOUT` as fallback
      when the device's timeout is used, with no fallback when it is only
      remembered — and `NO` is read once when options are given, never otherwise. */
  lemma RunReads(nd: NodeDiscovery, req: Request, env: Env)
    requires Accepted(nd, req)
    ensures Reads(DiscoverDevices(nd, req, env).trace)
         == [(NT, NtFallback(req.timeout, env.defaultTimeout))] + (if req.options.Some? then [(NO, None)] else [])
  {
    var ph := RunPhases(nd, req, env);
    TraceReads(nd, req, env);
    TimeoutPhaseReads(nd.device, req.timeout, env.defaultTimeout);
    OptionsPhaseReads(ph.timeout.device, req.options, env.calculateDiscoveryValue);
  }

  /** With the device's timeout, `setDiscoveryTimeout` is called once, with
      `null`. With an explicit timeout it is called twice: first with the
      timeout in units of 100 ms, then with the value `NT` had before. */
  lemma RunTimeoutWrites(nd: NodeDiscovery, req: Request, env: Env)
    requires Accepted(nd, req)
    ensures TimeoutSets(DiscoverDevices(nd, req, env).trace)
         == (if req.timeout.Explicit? then [Some(TimeoutParam(req.timeout.millis)), Saved(nd.device, NT)]
             else [None])
  {
    TraceTimeoutSets(nd, req, env);
    TimeoutPhaseWrites(nd.device, req.timeout, env.defaultTimeout);
  }

  /** Without options, `setDiscoveryOptions` is called once, with `null`.
      With options it is called twice: first with the protocol's encoding
      of the set, then with the value `NO` had before. */
  lemma RunOptionsWrites(nd: NodeDiscovery, req: Request, env: Env)
    requires Accepted(nd, req)
    ensures OptionsSets(DiscoverDevices(nd, req, env).trace)
         == (if req.options.Some? then
               [Some(OptionsParam(env.calculateDiscoveryValue, nd.device.protocol, req.options.value)), Saved(nd.device, NO)]
             else [None])
  {
    var ph := RunPhases(nd, req, env);
    TraceOptionsSets(nd, req, env);
    OptionsPhaseWrites(ph.timeout.device, req.options, env.calculateDiscoveryValue);
  }

  /** How long collection lasts: the explicit timeout itself, or the
      device's `NT` value (or `DEFAULT_TIMEOUT` when it cannot be read) times 100 ms. */
  function ExpectedWindow(nd: NodeDiscovery, req: Request, env: Env): int {
    if req.timeout.Explicit? then req.timeout.millis
    else NtMillis(if NT in nd.device.params then nd.device.params[NT] else env.defaultTimeout)
  }

  /** One collection window per run, of the expected length. */
  lemma RunWindow(nd: NodeDiscovery, req: Request, env: Env)
    requires Accepted(nd, req)
    ensures Windows(DiscoverDevices(nd, req, env).trace) == [ExpectedWindow(nd, req, env)]
  {
    TraceWindows(nd, req, env);
  }

  /** The procedure configures the timeout, then the options, opens one
      window of the expected length, starts listening, sends `ND` once,
      parses each reply in arrival order, stops listening and reports the
      end once, without error. Each of these happens exactly once and in
      this order; `addRemoteDevices` is never called. */
  lemma RunSteps(nd: NodeDiscovery, req: Request, env: Env)
    requires Accepted(nd, req)
    ensures Steps(DiscoverDevices(nd, req, env).trace)
         == [ConfigureDiscoveryTimeout(req.timeout), ConfigureDiscoveryOptions(req.options),
             DiscoverDevicesApi(ExpectedWindow(nd, req, env)), StartListening, SendNodeDiscoverCommand]
            + ParseCalls(env.replies) + [StopListening, DiscoveryFinished(None)]
  {
    var ph := RunPhases(nd, req, env);
    TraceSteps(nd, req, env);
    CollectionSteps(ph.options.device, ph.timeout.window, env.replies);
    StepsShape(ConfigureDiscoveryTimeout(req.timeout), ConfigureDiscoveryOptions(req.options),
               DiscoverDevicesApi(ph.timeout.window), ParseCalls(env.replies));
  }

  lemma StepsShape(t: Action, o: Action, w: Action, calls: seq<Action>)
    ensures [t] + ([o] + ([w, StartListening, SendNodeDiscoverCommand] + (calls + [StopListening])
                          + [DiscoveryFinished(None)]))
         == [t, o, w, StartListening, SendNodeDiscoverCommand] + calls + [StopListening, DiscoveryFinished(None)]
  {
  }

  /** Reply handling: every reply is parsed once, in arrival order; each
      device a reply describes is added to the network once and reported
      once, in the same order. */
  lemma RunReports(nd: NodeDiscovery, req: Request, env: Env)
    requires Accepted(nd, req)
    ensures var t := DiscoverDevices(nd, req, env).trace;
      && Parsed(t) == env.replies
      && Added(t) == DevicesFrom(env.replies, nd.device.protocol)
      && Discovered(t) == DevicesFrom(env.replies, nd.device.protocol)
  {
    TraceParsed(nd, req, env);
    TraceAdded(nd, req, env);
    TraceDiscovered(nd, req, env);
  }

  /** The network keeps every entry it had and gains exactly the
      addresses of the devices the replies describe. */
  lemma RunNetwork(nd: NodeDiscovery, req: Request, env: Env)
    requires Accepted(nd, req)
    ensures var after := DiscoverDevices(nd, req, env).after.device.network;
      && after.Keys == nd.device.network.Keys + XBeeNetwork.Addresses(DevicesFrom(env.replies, nd.device.protocol))
      && (forall a :: a in nd.device.network ==> after[a] == nd.device.network[a])
  {
    var ph := RunPhases(nd, req, env);
    var dev := ph.options.device;
    assert dev.network == nd.device.network && dev.protocol == nd.device.protocol;
    HandleRepliesNetwork(dev.network, dev.protocol, env.replies);
    HandleRepliesReports(dev.network, dev.protocol, env.replies);
  }

  /** A readable `NT` value is restored: the run leaves it as it found it. */
  lemma RunRestoresTimeout(nd: NodeDiscovery, req: Request, env: Env)
    requires Accepted(nd, req) && NT in nd.device.params
    ensures var after := DiscoverDevices(nd, req, env).after.device.params;
      NT in after && after[NT] == nd.device.params[NT]
  {
    var ph := RunPhases(nd, req, env);
    OptionsKeepTimeoutParam(ph.timeout.device, req.options, env.calculateDiscoveryValue);
    RestoredTimeoutParam(ph);
  }

  /** An unreadable `NT` stays unset under the device's timeout and keeps the
      value written for an explicit timeout, since restoring `null` writes nothing. */
  lemma RunUnreadableTimeout(nd: NodeDiscovery, req: Request, env: Env)
    requires Accepted(nd, req) && NT !in nd.device.params
    ensures var after := DiscoverDevices(nd, req, env).after.device.params;
      if req.timeout.Explicit? then NT in after && after[NT] == TimeoutParam(req.timeout.millis)
      else NT !in after
  {
    var ph := RunPhases(nd, req, env);
    OptionsKeepTimeoutParam(ph.timeout.device, req.options, env.calculateDiscoveryValue);
    RestoredTimeoutParam(ph);
  }

  /** A readable `NO` value is restored: the run leaves it as it found it. */
  lemma RunRestoresOptions(nd: NodeDiscovery, req: Request, env: Env)
    requires Accepted(nd, req) && NO in nd.device.params
    ensures var after := DiscoverDevices(nd, req, env).after.device.params;
      NO in after && after[NO] == nd.device.params[NO]
  {
    var ph := RunPhases(nd, req, env);
    TimeoutKeepsOptionsParam(nd.device, req.timeout, env.defaultTimeout);
    RestoredOptionsParam(ph);
  }

  /** An unreadable `NO` stays unset without options and keeps the encoded
      option set otherwise, since restoring `null` writes nothing. */
  lemma RunUnreadableOptions(nd: NodeDiscovery, req: Request, env: Env)
    requires Accepted(nd, req) && NO !in nd.device.params
    ensures var after := DiscoverDevices(nd, req, env).after.device.params;
      if req.options.Some? then
        NO in after && after[NO] == OptionsParam(env.calculateDiscoveryValue, nd.device.protocol, req.options.value)
      else NO !in after
  {
    var ph := RunPhases(nd, req, env);
    TimeoutKeepsOptionsParam(nd.device, req.timeout, env.defaultTimeout);
    RestoredOptionsParam(ph);
  }

  // ---- What the caller's listener observes ----

  /** The end is reported once, as the last action of a run. */
  lemma RunFinishesLast(nd: NodeDiscovery, req: Request, env: Env)
    ensures var t := Run(nd, req, env).trace;
      forall a :: a in t[..|t| - 1] ==> !a.DiscoveryFinished?
  {
    var ph := RunPhases(nd, req, env);
    RunPhaseActions(nd, req, env);
    NoFinishBeforeLast(ph.timeout.actions, ph.options.actions, ph.collection.actions, Epilogue(ph));
  }

  lemma NoFinishBeforeLast(a: seq<Action>, b: seq<Action>, c: seq<Action>, e: seq<Action>)
    requires forall x :: x in a ==> InTimeoutPhase(x)
    requires forall x :: x in b ==> InOptionsPhase(x)
    requires forall x :: x in c ==> InCollection(x)
    requires |e| == 3 && !e[0].DiscoveryFinished? && !e[1].DiscoveryFinished?
    ensures var t := a + (b + (c + e)); forall x :: x in t[..|t| - 1] ==> !x.DiscoveryFinished?
  {
    var t := a + (b + (c + e));
    assert t[..|t| - 1] == a + (b + (c + e[..2]));
  }

  /** A rejected call tells the listener nothing. */
  lemma RejectedListener(nd: NodeDiscovery, req: Request, env: Env)
    requires !Accepted(nd, req)
    ensures Replay(Fresh, DiscoverDevices(nd, req, env).trace) == Fresh
  {
  }

  /** After an accepted run, the listener holds the devices the replies
      describe, in reply order, and has finished without error. */
  lemma RunListener(nd: NodeDiscovery, req: Request, env: Env)
    requires Accepted(nd, req)
    ensures var r := Replay(Fresh, DiscoverDevices(nd, req, env).trace);
      && r.discovered == DevicesFrom(env.replies, nd.device.protocol)
      && r.finished && r.finishError == None
  {
    var t := DiscoverDevices(nd, req, env).trace;
    ReplayDiscovered(Fresh, t);
    TraceDiscovered(nd, req, env);
    ReplayFinished(Fresh, t, None);
  }

  /** Until its last action, a run leaves the listener unfinished: the test
      can observe the run as still going. */
  lemma RunListenerRunning(nd: NodeDiscovery, req: Request, env: Env, k: nat)
    requires Accepted(nd, req)
    requires k < |DiscoverDevices(nd, req, env).trace|
    ensures !Replay(Fresh, DiscoverDevices(nd, req, env).trace[..k]).finished
  {
    var t := DiscoverDevices(nd, req, env).trace;
    RunFinishesLast(nd, req, env);
    assert t[..k] == t[..|t| - 1][..k];
    ReplayUnfinished(Fresh, t[..k]);
  }
}
