/** The test's recording discovery listener: it keeps every device and
    every error it is told about, in order, and remembers whether and how
    the discovery finished. Replaying a trace through it gives what a
    caller of `discoverDevices` observes. */
module RecordingListener {
  import opened Wrappers
  import opened XBeeModels
  import opened DiscoveryTrace

  /** The listener's state: `getDiscoveredDevices`, `getErrors`,
      `isFinished` and `getFinishError`. */
  datatype Recorder = Recorder(
    discovered: seq<RemoteDevice>,
    errors: seq<Problem>,
    finished: bool,
    finishError: Option<string>)

  /** A freshly constructed listener: nothing seen, not finished. */
  const Fresh := Recorder([], [], false, None)

  /** The listener's reaction to one action: the three callbacks change it,
      anything else the run does leaves it alone. */
  function Notify(r: Recorder, a: Action): (r': Recorder)
    ensures a.DeviceDiscovered? ==> r' == r.(discovered := r.discovered + [a.device])
    ensures a.DiscoveryError? ==> r' == r.(errors := r.errors + [a.problem])
    ensures a.DiscoveryFinished? ==> r' == r.(finished := true, finishError := a.error)
    ensures !a.DeviceDiscovered? && !a.DiscoveryError? && !a.DiscoveryFinished? ==> r' == r
  {
    match a
    case DeviceDiscovered(d) => r.(discovered := r.discovered + [d])
    case DiscoveryError(p) => r.(errors := r.errors + [p])
    case DiscoveryFinished(e) => r.(finished := true, finishError := e)
    case _ => r
  }

  /** The listener after it has seen a trace, action by action. */
  function Replay(r: Recorder, t: seq<Action>): Recorder
    decreases |t|
  {
    if |t| == 0 then r else Replay(Notify(r, t[0]), t[1..])
  }

  function ErrorOf(a: Action): Option<Problem> {
    if a.DiscoveryError? then Some(a.problem) else None
  }

  /** Problems reported through `discoveryError`, in trace order. */
  function Errors(t: seq<Action>): seq<Problem> { Pick(t, ErrorOf) }

  /** The listener records exactly the devices the trace reports, in order. */
  lemma {:induction false} ReplayDiscovered(r: Recorder, t: seq<Action>)
    ensures Replay(r, t).discovered == r.discovered + Discovered(t)
    decreases |t|
  {
    if |t| > 0 {
      ReplayDiscovered(Notify(r, t[0]), t[1..]);
      PickCons(t[0], t[1..], DiscoveredOf);
      assert t == [t[0]] + t[1..];
    }
  }

  /** The listener records exactly the errors the trace reports, in order. */
  lemma {:induction false} ReplayErrors(r: Recorder, t: seq<Action>)
    ensures Replay(r, t).errors == r.errors + Errors(t)
    decreases |t|
  {
    if |t| > 0 {
      ReplayErrors(Notify(r, t[0]), t[1..]);
      PickCons(t[0], t[1..], ErrorOf);
      assert t == [t[0]] + t[1..];
    }
  }

  /** A listener that has not finished stays unfinished through a trace
      that never reports the end. */
  lemma {:induction false} ReplayUnfinished(r: Recorder, t: seq<Action>)
    requires !r.finished
    requires forall a :: a in t ==> !a.DiscoveryFinished?
    ensures !Replay(r, t).finished
    decreases |t|
  {
    if |t| > 0 {
      assert t[0] in t;
      ReplayUnfinished(Notify(r, t[0]), t[1..]);
    }
  }

  /** A trace that ends by reporting the end leaves the listener finished,
      with the error that last report carried. */
  lemma {:induction false} ReplayFinished(r: Recorder, t: seq<Action>, e: Option<string>)
    requires |t| > 0 && t[|t| - 1] == DiscoveryFinished(e)
    ensures Replay(r, t).finished && Replay(r, t).finishError == e
    decreases |t|
  {
    if |t| > 1 {
      ReplayFinished(Notify(r, t[0]), t[1..], e);
    }
  }
}
