/**
 * `engine`: the broker's start-up sequence, in which the first failing step ends
 * everything, and its run phase, a race between the termination signal and the
 * bus server with the file-watch task running beside them. Bus, reactor and
 * inotify answers are inputs; the interleaving of the run phase is an input trace.
 */
module Engine {
  import opened Wrappers
  import opened Io
  import opened Paths
  import opened Indications
  import opened Notifier
  import opened Server
  import opened Seqs

  /** The start-up steps of `engine`, one per fallible call. */
  datatype StartupStep =
    | Connect           // open a private connection to the system bus
    | RegisterName      // claim the bus name, replacing an existing owner
    | RegisterTree      // register the object tree on the connection
    | CreateReactor     // create the event loop; a failure is returned
    | ReopenReactor     // create the event loop that is used; a failure panics
    | AttachConnection  // attach the connection to the event loop; a failure panics
    | OpenMessages      // open the inbound message stream; a failure panics
    | BuildNotifier     // set up the sentinel watch
    | ScheduleWatcher   // schedule the watch task on the event loop

  const StartupOrder: seq<StartupStep> :=
    [Connect, RegisterName, RegisterTree, CreateReactor, ReopenReactor,
     AttachConnection, OpenMessages, BuildNotifier, ScheduleWatcher]

  /**
   * How the bus, the event loop and inotify answer each start-up call. Bus errors are
   * given by their debug rendering, which the broker puts into its own message.
   */
  datatype Platform = Platform(
    connect: Outcome<string>,
    registerName: Outcome<string>,
    registerTree: Outcome<string>,
    reactor: Outcome<IoError>,
    reactorAgain: Outcome<IoError>,
    attach: Outcome<IoError>,
    messages: Outcome<IoError>,
    inotifyInit: Outcome<IoError>,
    addWatch: Outcome<IoError>,
    schedule: Outcome<string>)

  /** A step succeeds, makes `engine` return an error, or panics on an `unwrap`. */
  datatype StepResult = Done | Abort(error: IoError) | Panic

  function Checked(o: Outcome<string>, context: string): (r: StepResult)
    ensures r.Done? <==> o.Pass?
    ensures o.Fail? ==> r == Abort(OtherError(context + o.error))
  {
    match o
    case Pass => Done
    case Fail(e) => Abort(OtherError(context + e))
  }

  function Unwrapped<E>(o: Outcome<E>): (r: StepResult)
    ensures r.Done? <==> o.Pass?
    ensures o.Fail? ==> r == Panic
  {
    if o.Pass? then Done else Panic
  }

  /**
   * The result of one start-up step, with the error message `engine` reports for it.
   * A bus failure or a failure to schedule the watch task is wrapped in an `Other` error
   * with the step's context; the first event loop's and the notifier's errors are
   * returned as they are; the `unwrap`ped calls panic.
   */
  function RunStep(step: StartupStep, p: Platform, path: Path): (r: StepResult)
    ensures step == Connect ==>
      && (r.Done? <==> p.connect.Pass?)
      && (p.connect.Fail? ==> r == Abort(OtherError("Error creating connection. " + p.connect.error)))
    ensures step == RegisterName ==>
      && (r.Done? <==> p.registerName.Pass?)
      && (p.registerName.Fail? ==> r == Abort(OtherError("Error registering name. " + p.registerName.error)))
    ensures step == RegisterTree ==>
      && (r.Done? <==> p.registerTree.Pass?)
      && (p.registerTree.Fail? ==> r == Abort(OtherError("Error registering D-Bus tree. " + p.registerTree.error)))
    ensures step == CreateReactor ==>
      && (r.Done? <==> p.reactor.Pass?)
      && (p.reactor.Fail? ==> r == Abort(p.reactor.error))
    ensures step == ReopenReactor ==> (r.Done? <==> p.reactorAgain.Pass?) && (p.reactorAgain.Fail? ==> r == Panic)
    ensures step == AttachConnection ==> (r.Done? <==> p.attach.Pass?) && (p.attach.Fail? ==> r == Panic)
    ensures step == OpenMessages ==> (r.Done? <==> p.messages.Pass?) && (p.messages.Fail? ==> r == Panic)
    ensures step == BuildNotifier ==>
      && (r.Done? <==> NewWatch(path, p.inotifyInit, p.addWatch).Ok?)
      && (NewWatch(path, p.inotifyInit, p.addWatch).Err? ==> r == Abort(NewWatch(path, p.inotifyInit, p.addWatch).error))
    ensures step == ScheduleWatcher ==>
      && (r.Done? <==> p.schedule.Pass?)
      && (p.schedule.Fail? ==> r == Abort(OtherError("Could not schedule inotify watcher. " + p.schedule.error)))
  {
    match step
    case Connect => Checked(p.connect, "Error creating connection. ")
    case RegisterName => Checked(p.registerName, "Error registering name. ")
    case RegisterTree => Checked(p.registerTree, "Error registering D-Bus tree. ")
    case CreateReactor => if p.reactor.Fail? then Abort(p.reactor.error) else Done
    case ReopenReactor => Unwrapped(p.reactorAgain)
    case AttachConnection => Unwrapped(p.attach)
    case OpenMessages => Unwrapped(p.messages)
    case BuildNotifier =>
      (match NewWatch(path, p.inotifyInit, p.addWatch)
       case Err(e) => Abort(e)
       case Ok(_) => Done)
    case ScheduleWatcher => Checked(p.schedule, "Could not schedule inotify watcher. ")
  }

  /** The steps that ran, in order, and how the last of them ended. */
  datatype Startup = Startup(executed: seq<StartupStep>, result: StepResult)

  /**
   * Run the steps in order until one does not succeed. The steps that ran are a prefix
   * of `steps`; all but the last succeeded; the last one's result is the outcome; and
   * the whole sequence succeeds only when every step ran and succeeded.
   */
  function RunSteps(steps: seq<StartupStep>, p: Platform, path: Path): (s: Startup)
    ensures s.executed <= steps
    ensures |steps| > 0 ==> |s.executed| > 0
    ensures forall i | 0 <= i < |s.executed| - 1 :: RunStep(s.executed[i], p, path).Done?
    ensures |s.executed| > 0 ==> s.result == RunStep(s.executed[|s.executed| - 1], p, path)
    ensures s.result.Done? <==> s.executed == steps && forall st | st in steps :: RunStep(st, p, path).Done?
  {
    if |steps| == 0 then
      Startup([], Done)
    else
      var r := RunStep(steps[0], p, path);
      if r.Done? then
        var rest := RunSteps(steps[1..], p, path);
        assert steps == [steps[0]] + steps[1..];
        Startup([steps[0]] + rest.executed, rest.result)
      else
        Startup([steps[0]], r)
  }

  /** What happens while the event loop runs, in the order it happens. */
  datatype Happening =
    | Call(m: Inbound)                   // the server task takes a message from the bus
    | FsEvent(a: Arrival, sendOk: bool)  // the watch task takes an inotify event; sendOk: a broadcast would be sent
    | WatchClosed                        // the inotify stream ends without error
    | WatchFailed(error: IoError)        // the inotify stream fails
    | SigTerm                            // a SIGTERM is delivered
    | SignalFailed                       // the SIGTERM stream fails
    | BusClosed                          // the bus message stream ends
    | BusFailed                          // the bus message stream fails

  /** How the process stands: still serving, `engine` returned, the process exited, or it panicked. */
  datatype End = Serving | Returned(result: Result<(), IoError>) | Exited(code: int) | Panicked

  /**
   * The run phase: whether the watch task is still consuming events, the replies sent,
   * the broadcasts attempted, and how things stand.
   */
  datatype RunState = RunState(watching: bool, replies: seq<Handling>, emissions: seq<Emission>, end: End)

  const Initial: RunState := RunState(true, [], [], Serving)

  const RunError: IoError := IoError(Other, "Error running server")

  /** The broadcasts for a batch of snapshots, all sent with the same outcome. */
  function Broadcasts(inds: seq<UpdateStatusIndication>, sendOk: bool): (es: seq<Emission>)
    ensures |es| == |inds|
    ensures forall i | 0 <= i < |inds| :: es[i] == Broadcast(inds[i], sendOk)
  {
    seq(|inds|, i requires 0 <= i < |inds| => Broadcast(inds[i], sendOk))
  }

  /**
   * One happening. Once `engine` returned or the process exited nothing more happens.
   * A message is answered or, when unhandled, only logged. A sentinel event is
   * broadcast. The watch task ending quietly just stops it; failing exits with 1.
   * The first of a SIGTERM and the end of the bus stream decides the race.
   */
  function Advance(sentinel: string, s: RunState, h: Happening): (r: RunState)
    ensures !s.end.Serving? ==> r == s
    ensures s.replies <= r.replies && s.emissions <= r.emissions
    ensures r.watching ==> s.watching
    ensures s.end.Serving? ==> (r.end.Serving? <==> !EndsRace(h) && !(h.WatchFailed? && s.watching))
    ensures s.end.Serving? && EndsRace(h) ==> r.end == Returned(if h.SigTerm? || h.BusClosed? then Ok(()) else Err(RunError))
    ensures s.end.Serving? && h.WatchFailed? && s.watching ==> r.end == Exited(1)
    ensures !h.Call? ==> r.replies == s.replies
    ensures !h.FsEvent? ==> r.emissions == s.emissions
  {
    if !s.end.Serving? then s
    else
      match h
      case Call(m) =>
        var r := Handle(m);
        if r.Unhandled? then s else s.(replies := s.replies + [r])
      case FsEvent(a, sendOk) =>
        if s.watching then s.(emissions := s.emissions + Broadcasts(Notify(sentinel, [a]), sendOk)) else s
      case WatchClosed => s.(watching := false)
      case WatchFailed(_) => if s.watching then s.(end := Exited(1)) else s
      case SigTerm => s.(end := Returned(Ok(())))
      case SignalFailed => s.(end := Returned(Err(RunError)))
      case BusClosed => s.(end := Returned(Ok(())))
      case BusFailed => s.(end := Returned(Err(RunError)))
  }

  function Run(sentinel: string, s: RunState, hs: seq<Happening>): (r: RunState)
    ensures !s.end.Serving? ==> r == s
    ensures s.replies <= r.replies && s.emissions <= r.emissions
    ensures r.watching ==> s.watching
    decreases |hs|
  {
    if |hs| == 0 then s else Run(sentinel, Advance(sentinel, s, hs[0]), hs[1..])
  }

  lemma RunFirst(sentinel: string, s: RunState, hs: seq<Happening>)
    requires |hs| > 0
    ensures Run(sentinel, s, hs) == Run(sentinel, Advance(sentinel, s, hs[0]), hs[1..])
  {
  }

  lemma {:induction false} RunAppend(sentinel: string, s: RunState, a: seq<Happening>, b: seq<Happening>)
    ensures Run(sentinel, s, a + b) == Run(sentinel, Run(sentinel, s, a), b)
    decreases |a|
  {
    if |a| == 0 {
      AppendEmpty(b);
    } else {
      DropHeadOfAppend(a, b);
      RunFirst(sentinel, s, a + b);
      RunFirst(sentinel, s, a);
      RunAppend(sentinel, Advance(sentinel, s, a[0]), a[1..], b);
    }
  }

  /** Once decided, nothing changes: no reply, no broadcast, no second SIGTERM counts. */
  lemma {:induction false} DecidedIsFinal(sentinel: string, s: RunState, hs: seq<Happening>)
    requires !s.end.Serving?
    ensures Run(sentinel, s, hs) == s
    decreases |hs|
  {
    if |hs| > 0 {
      DecidedIsFinal(sentinel, s, hs[1..]);
    }
  }

  /** The happenings that decide the race between the termination signal and the server. */
  predicate EndsRace(h: Happening)
  {
    h.SigTerm? || h.SignalFailed? || h.BusClosed? || h.BusFailed?
  }

  /** How `engine` returns when `h` decides the race: a run error becomes "Error running server". */
  function RaceResult(h: Happening): Result<(), IoError>
    requires EndsRace(h)
  {
    if h.SigTerm? || h.BusClosed? then Ok(()) else Err(RunError)
  }

  /** Nothing in `hs` ends the run or touches the watch task's life. */
  predicate Quiet(hs: seq<Happening>)
  {
    forall i | 0 <= i < |hs| :: !EndsRace(hs[i]) && !hs[i].WatchFailed? && !hs[i].WatchClosed?
  }

  /** Through a quiet stretch the broker keeps serving and the watch task keeps watching. */
  lemma {:induction false} QuietKeepsServing(sentinel: string, s: RunState, hs: seq<Happening>)
    requires s.end.Serving? && s.watching
    requires Quiet(hs)
    ensures Run(sentinel, s, hs).end.Serving?
    ensures Run(sentinel, s, hs).watching
    decreases |hs|
  {
    if |hs| > 0 {
      QuietKeepsServing(sentinel, Advance(sentinel, s, hs[0]), hs[1..]);
    }
  }

  lemma RaceStep(sentinel: string, s: RunState, h: Happening)
    requires s.end.Serving? && EndsRace(h)
    ensures Advance(sentinel, s, h).end == Returned(RaceResult(h))
  {
  }

  /** Nothing in `hs` ends the run or fails the watch task; the watch may close quietly. */
  predicate Undecided(hs: seq<Happening>)
  {
    forall i | 0 <= i < |hs| :: !EndsRace(hs[i]) && !hs[i].WatchFailed?
  }

  /** Through an undecided stretch the broker keeps serving, whether or not the watch closed. */
  lemma {:induction false} UndecidedKeepsServing(sentinel: string, s: RunState, hs: seq<Happening>)
    requires s.end.Serving?
    requires Undecided(hs)
    ensures Run(sentinel, s, hs).end.Serving?
    decreases |hs|
  {
    if |hs| > 0 {
      RunFirst(sentinel, s, hs);
      assert Undecided(hs[1..]) by {
        forall i | 0 <= i < |hs| - 1
          ensures !EndsRace(hs[1..][i]) && !hs[1..][i].WatchFailed?
        {
          assert hs[1..][i] == hs[i + 1];
        }
      }
      UndecidedKeepsServing(sentinel, Advance(sentinel, s, hs[0]), hs[1..]);
    }
  }

  /**
   * The run ends with the first of {one SIGTERM, the end of the server stream}: a
   * SIGTERM or a closed stream returns `Ok`, a failure of either returns the run error.
   */
  lemma FirstOfRaceDecides(sentinel: string, hs: seq<Happening>, k: nat)
    requires k < |hs| && EndsRace(hs[k])
    requires Undecided(hs[..k])
    ensures Run(sentinel, Initial, hs).end == Returned(RaceResult(hs[k]))
  {
    var before, rest := hs[..k], hs[k + 1..];
    SplitAt(hs, k);
    RunAppend(sentinel, Initial, before, [hs[k]] + rest);
    UndecidedKeepsServing(sentinel, Initial, before);
    var mid := Run(sentinel, Initial, before);
    var decided := Advance(sentinel, mid, hs[k]);
    RaceStep(sentinel, mid, hs[k]);
    DropHeadOfAppend([hs[k]], rest);
    RunFirst(sentinel, mid, [hs[k]] + rest);
    DecidedIsFinal(sentinel, decided, rest);
  }

  /** A failure of the watch task, while it is still watching, exits the process with status 1. */
  lemma WatchFailureExits(sentinel: string, hs: seq<Happening>, k: nat)
    requires k < |hs| && hs[k].WatchFailed?
    requires Quiet(hs[..k])
    ensures Run(sentinel, Initial, hs).end == Exited(1)
  {
    var before, rest := hs[..k], hs[k + 1..];
    SplitAt(hs, k);
    RunAppend(sentinel, Initial, before, [hs[k]] + rest);
    QuietKeepsServing(sentinel, Initial, before);
    var mid := Run(sentinel, Initial, before);
    var decided := Advance(sentinel, mid, hs[k]);
    assert decided.end == Exited(1);
    DropHeadOfAppend([hs[k]], rest);
    RunFirst(sentinel, mid, [hs[k]] + rest);
    DecidedIsFinal(sentinel, decided, rest);
  }

  /** The ends a run can reach: exit only with status 1, return an error only as the run error. */
  predicate ReachableEnd(e: End)
  {
    match e
    case Serving => true
    case Returned(r) => r.Ok? || r.error == RunError
    case Exited(code) => code == 1
    case Panicked => false
  }

  lemma {:induction false} RunEndsAreReachable(sentinel: string, s: RunState, hs: seq<Happening>)
    requires ReachableEnd(s.end)
    ensures ReachableEnd(Run(sentinel, s, hs).end)
    decreases |hs|
  {
    if |hs| > 0 {
      RunEndsAreReachable(sentinel, Advance(sentinel, s, hs[0]), hs[1..]);
    }
  }

  /** The inotify events the watch task takes, in order. */
  function WatchArrivals(hs: seq<Happening>): (arrivals: seq<Arrival>)
    ensures |arrivals| <= |hs|
    ensures forall a | a in arrivals :: exists i | 0 <= i < |hs| :: hs[i].FsEvent? && hs[i].a == a
    ensures forall i | 0 <= i < |hs| && hs[i].FsEvent? :: hs[i].a in arrivals
  {
    if |hs| == 0 then []
    else (if hs[0].FsEvent? then [hs[0].a] else []) + WatchArrivals(hs[1..])
  }

  /** The signals of a sequence of broadcasts. */
  function Signals(es: seq<Emission>): (msgs: seq<SignalMessage>)
    ensures |msgs| == |es|
    ensures forall i | 0 <= i < |es| :: msgs[i] == es[i].signal
  {
    seq(|es|, i requires 0 <= i < |es| => es[i].signal)
  }

  /** The signal for each snapshot. */
  function SignalsFor(inds: seq<UpdateStatusIndication>): (msgs: seq<SignalMessage>)
    ensures |msgs| == |inds|
    ensures forall i | 0 <= i < |inds| :: msgs[i] == StatusChanged(inds[i])
  {
    seq(|inds|, i requires 0 <= i < |inds| => StatusChanged(inds[i]))
  }

  lemma SignalsAppend(a: seq<Emission>, b: seq<Emission>)
    ensures Signals(a + b) == Signals(a) + Signals(b)
  {
    var l, r := Signals(a + b), Signals(a) + Signals(b);
    forall i | 0 <= i < |l|
      ensures l[i] == r[i]
    {
      if i < |a| {
        assert (a + b)[i] == a[i];
      } else {
        assert (a + b)[i] == b[i - |a|];
      }
    }
  }

  lemma SignalsForAppend(a: seq<UpdateStatusIndication>, b: seq<UpdateStatusIndication>)
    ensures SignalsFor(a + b) == SignalsFor(a) + SignalsFor(b)
  {
    var l, r := SignalsFor(a + b), SignalsFor(a) + SignalsFor(b);
    forall i | 0 <= i < |l|
      ensures l[i] == r[i]
    {
      if i < |a| {
        assert (a + b)[i] == a[i];
      } else {
        assert (a + b)[i] == b[i - |a|];
      }
    }
  }

  /** The inotify events one happening hands to the watch task. */
  function ArrivalsOf(h: Happening): seq<Arrival>
  {
    if h.FsEvent? then [h.a] else []
  }

  /** One quiet happening broadcasts the signals for the snapshots its event yields, if any. */
  lemma EmissionsOfOneStep(sentinel: string, s: RunState, h: Happening)
    requires s.end.Serving? && s.watching
    requires !EndsRace(h) && !h.WatchFailed? && !h.WatchClosed?
    ensures Advance(sentinel, s, h).end.Serving? && Advance(sentinel, s, h).watching
    ensures Signals(Advance(sentinel, s, h).emissions)
            == Signals(s.emissions) + SignalsFor(Notify(sentinel, ArrivalsOf(h)))
  {
    var next := Advance(sentinel, s, h);
    if h.FsEvent? {
      var n := Notify(sentinel, [h.a]);
      var bs := Broadcasts(n, h.sendOk);
      assert next.emissions == s.emissions + bs;
      SignalsAppend(s.emissions, bs);
      assert Signals(bs) == SignalsFor(n);
    } else {
      assert Notify(sentinel, ArrivalsOf(h)) == [];
      assert next.emissions == s.emissions;
    }
  }

  /**
   * While the broker serves, the signals broadcast are exactly those for the snapshots
   * the notifier pipeline yields from the inotify events taken so far, in that order.
   */
  lemma {:induction false} EmissionsFollowNotify(sentinel: string, s: RunState, hs: seq<Happening>)
    requires s.end.Serving? && s.watching
    requires Quiet(hs)
    ensures Signals(Run(sentinel, s, hs).emissions)
            == Signals(s.emissions) + SignalsFor(Notify(sentinel, WatchArrivals(hs)))
    decreases |hs|
  {
    if |hs| == 0 {
      assert Signals(s.emissions) + [] == Signals(s.emissions);
    } else {
      var h, rest := hs[0], hs[1..];
      var next := Advance(sentinel, s, h);
      RunFirst(sentinel, s, hs);
      assert Quiet(rest) by {
        forall i | 0 <= i < |rest|
          ensures !EndsRace(rest[i]) && !rest[i].WatchFailed? && !rest[i].WatchClosed?
        {
          assert rest[i] == hs[i + 1];
        }
      }
      assert !EndsRace(hs[0]) && !hs[0].WatchFailed? && !hs[0].WatchClosed?;
      EmissionsOfOneStep(sentinel, s, h);
      EmissionsFollowNotify(sentinel, next, rest);
      assert WatchArrivals(hs) == ArrivalsOf(h) + WatchArrivals(rest);
      NotifyAppend(sentinel, ArrivalsOf(h), WatchArrivals(rest));
      var n1, n2 := Notify(sentinel, ArrivalsOf(h)), Notify(sentinel, WatchArrivals(rest));
      SignalsForAppend(n1, n2);
      assert Signals(Run(sentinel, s, hs).emissions) == Signals(s.emissions) + SignalsFor(n1) + SignalsFor(n2);
      AppendAssociative(Signals(s.emissions), SignalsFor(n1), SignalsFor(n2));
      assert Notify(sentinel, WatchArrivals(hs)) == n1 + n2;
    }
  }

  /** The same happening with its broadcast, if any, succeeding. */
  function Sent(h: Happening): Happening
  {
    if h.FsEvent? then FsEvent(h.a, true) else h
  }

  /** The same trace with every broadcast succeeding. */
  function AllSent(hs: seq<Happening>): (r: seq<Happening>)
    ensures |r| == |hs|
    ensures forall i | 0 <= i < |hs| :: r[i] == Sent(hs[i])
  {
    seq(|hs|, i requires 0 <= i < |hs| => Sent(hs[i]))
  }

  lemma AllSentTail(hs: seq<Happening>)
    requires |hs| > 0
    ensures AllSent(hs)[0] == Sent(hs[0])
    ensures AllSent(hs)[1..] == AllSent(hs[1..])
  {
  }

  /** Two run states that differ at most in the outcomes of their broadcasts. */
  predicate AgreeUpToSends(r: RunState, r': RunState)
  {
    r.end == r'.end && r.replies == r'.replies && r.watching == r'.watching
    && Signals(r.emissions) == Signals(r'.emissions)
  }

  lemma SendOutcomeIgnoredInStep(sentinel: string, s: RunState, s': RunState, h: Happening)
    requires AgreeUpToSends(s, s')
    ensures AgreeUpToSends(Advance(sentinel, s, h), Advance(sentinel, s', Sent(h)))
  {
    if s.end.Serving? && h.FsEvent? && s.watching {
      var bs := Broadcasts(Notify(sentinel, [h.a]), h.sendOk);
      var bs' := Broadcasts(Notify(sentinel, [h.a]), true);
      assert Signals(bs) == Signals(bs');
      SignalsAppend(s.emissions, bs);
      SignalsAppend(s'.emissions, bs');
    }
  }

  /**
   * A failed broadcast is logged and swallowed: whether sends succeed changes neither the
   * replies, nor the signals attempted, nor how the run ends.
   */
  lemma SendFailuresAreSwallowed(sentinel: string, s: RunState, hs: seq<Happening>)
    ensures var r, r' := Run(sentinel, s, hs), Run(sentinel, s, AllSent(hs));
            r.end == r'.end && r.replies == r'.replies && r.watching == r'.watching
            && Signals(r.emissions) == Signals(r'.emissions)
  {
    SendFailuresAreSwallowedFrom(sentinel, s, s, hs);
  }

  /** Two states that agree on everything but send outcomes stay in agreement. */
  lemma {:induction false} SendFailuresAreSwallowedFrom(sentinel: string, s: RunState, s': RunState, hs: seq<Happening>)
    requires AgreeUpToSends(s, s')
    ensures AgreeUpToSends(Run(sentinel, s, hs), Run(sentinel, s', AllSent(hs)))
    decreases |hs|
  {
    if |hs| > 0 {
      var sent := AllSent(hs);
      AllSentTail(hs);
      RunFirst(sentinel, s, hs);
      RunFirst(sentinel, s', sent);
      SendOutcomeIgnoredInStep(sentinel, s, s', hs[0]);
      SendFailuresAreSwallowedFrom(sentinel, Advance(sentinel, s, hs[0]), Advance(sentinel, s', sent[0]), hs[1..]);
    }
  }

  /** The replies to a sequence of bus messages: one per handled message, in order. */
  function Replies(ms: seq<Inbound>): (rs: seq<Handling>)
    ensures |rs| <= |ms|
    ensures forall r | r in rs :: !r.Unhandled?
    ensures forall r | r in rs :: exists i | 0 <= i < |ms| :: Handle(ms[i]) == r
    ensures forall i | 0 <= i < |ms| && !Handle(ms[i]).Unhandled? :: Handle(ms[i]) in rs
  {
    if |ms| == 0 then []
    else (if Handle(ms[0]).Unhandled? then [] else [Handle(ms[0])]) + Replies(ms[1..])
  }

  function CallsOf(ms: seq<Inbound>): (hs: seq<Happening>)
    ensures |hs| == |ms|
    ensures forall i | 0 <= i < |ms| :: hs[i] == Call(ms[i])
  {
    seq(|ms|, i requires 0 <= i < |ms| => Call(ms[i]))
  }

  lemma CallsOfTail(ms: seq<Inbound>)
    requires |ms| > 0
    ensures CallsOf(ms)[0] == Call(ms[0])
    ensures CallsOf(ms)[1..] == CallsOf(ms[1..])
  {
  }

  /**
   * Bus messages never end the server loop and never cause a broadcast: the broker keeps
   * serving and answers each handled message in order.
   */
  lemma {:induction false} CallsOnlyReply(sentinel: string, s: RunState, ms: seq<Inbound>)
    requires s.end.Serving?
    ensures var r := Run(sentinel, s, CallsOf(ms));
            r.end == s.end && r.watching == s.watching && r.emissions == s.emissions
            && r.replies == s.replies + Replies(ms)
    decreases |ms|
  {
    if |ms| == 0 {
      AppendEmpty(s.replies);
    } else {
      CallsOfTail(ms);
      RunFirst(sentinel, s, CallsOf(ms));
      var next := Advance(sentinel, s, Call(ms[0]));
      CallsOnlyReply(sentinel, next, ms[1..]);
      var head := if Handle(ms[0]).Unhandled? then [] else [Handle(ms[0])];
      assert next.replies == s.replies + head;
      AppendAssociative(s.replies, head, Replies(ms[1..]));
    }
  }

  /** A whole execution of `engine`: the start-up steps that ran and the run phase that followed. */
  datatype EngineRun = EngineRun(startup: Startup, run: RunState)

  /**
   * `engine`: run the start-up steps; on an error return it and on a panic stop, with
   * nothing served; otherwise run the event loop over the trace `hs`, watching the
   * sentinel's file name.
   */
  function Engine(path: Path, p: Platform, hs: seq<Happening>): (o: EngineRun)
    ensures o.startup == RunSteps(StartupOrder, p, path)
    ensures !o.startup.result.Done? ==> o.run.replies == [] && o.run.emissions == []
    ensures o.startup.result.Abort? ==> o.run.end == Returned(Err(o.startup.result.error))
    ensures o.startup.result.Panic? ==> o.run.end == Panicked
    ensures o.startup.result.Done? ==> FileName(path).Some? && o.run == Run(FileName(path).value, Initial, hs)
  {
    var startup := RunSteps(StartupOrder, p, path);
    match startup.result
    case Abort(e) => EngineRun(startup, RunState(false, [], [], Returned(Err(e))))
    case Panic => EngineRun(startup, RunState(false, [], [], Panicked))
    case Done =>
      assert BuildNotifier in StartupOrder;
      var w := NewWatch(path, p.inotifyInit, p.addWatch);
      EngineRun(startup, Run(w.value.sentinel, Initial, hs))
  }

  /**
   * A start-up step that fails makes `engine` return its error: every earlier step ran
   * and succeeded, no later step ran, and nothing was served or broadcast.
   */
  lemma StartupFailureStopsEverything(path: Path, p: Platform, hs: seq<Happening>, k: nat)
    requires k < |StartupOrder|
    requires forall i | 0 <= i < k :: RunStep(StartupOrder[i], p, path).Done?
    requires RunStep(StartupOrder[k], p, path).Abort?
    ensures Engine(path, p, hs).startup.executed == StartupOrder[..k + 1]
    ensures Engine(path, p, hs).run.end == Returned(Err(RunStep(StartupOrder[k], p, path).error))
    ensures Engine(path, p, hs).run.replies == [] && Engine(path, p, hs).run.emissions == []
  {
    var s := RunSteps(StartupOrder, p, path);
    PrefixOfStartupOrder(s.executed, k);
    assert s.executed == StartupOrder[..|s.executed|];
    assert |s.executed| == k + 1 by {
      StoppedAtFirstFailure(s, p, path, k);
    }
  }

  lemma PrefixOfStartupOrder(executed: seq<StartupStep>, k: nat)
    requires executed <= StartupOrder
    ensures executed == StartupOrder[..|executed|]
  {
  }

  /** The run of the start-up steps stops exactly at the first step that does not succeed. */
  lemma StoppedAtFirstFailure(s: Startup, p: Platform, path: Path, k: nat)
    requires s == RunSteps(StartupOrder, p, path)
    requires k < |StartupOrder|
    requires forall i | 0 <= i < k :: RunStep(StartupOrder[i], p, path).Done?
    requires !RunStep(StartupOrder[k], p, path).Done?
    ensures |s.executed| == k + 1
  {
    var n := |s.executed|;
    assert s.executed == StartupOrder[..n];
  }

  /** `main`'s view: the exit status of the process, none while it still serves. */
  function ExitCode(e: End): (code: Option<int>)
    ensures code.None? <==> e.Serving?
    ensures e.Returned? ==> (code == Some(0) <==> e.result.Ok?)
    ensures e.Returned? && e.result.Err? ==> code == Some(1)
  {
    match e
    case Serving => None
    case Returned(r) => if r.Ok? then Some(0) else Some(1)
    case Exited(c) => Some(c)
    case Panicked => Some(101)
  }

  /**
   * A SIGTERM that arrives before anything else ends the run, after a successful start-up,
   * makes the process exit with status 0.
   */
  lemma CleanShutdownOnSigTerm(path: Path, p: Platform, hs: seq<Happening>, k: nat)
    requires RunSteps(StartupOrder, p, path).result.Done?
    requires k < |hs| && hs[k].SigTerm?
    requires Undecided(hs[..k])
    ensures ExitCode(Engine(path, p, hs).run.end) == Some(0)
  {
    var o := Engine(path, p, hs);
    FirstOfRaceDecides(FileName(path).value, hs, k);
  }

  /** Every execution that stops exits with 0, 1, or (on a start-up panic) Rust's panic status 101. */
  lemma ExitCodes(path: Path, p: Platform, hs: seq<Happening>)
    ensures ExitCode(Engine(path, p, hs).run.end) in {None, Some(0), Some(1), Some(101)}
  {
    var o := Engine(path, p, hs);
    if o.startup.result.Done? {
      RunEndsAreReachable(FileName(path).value, Initial, hs);
    }
  }
}
