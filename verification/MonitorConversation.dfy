/** What a monitor's goroutine does next, told from the events of the run alone. */
module MonitorConversation {
  import opened Common
  import opened HealthMonitor
  import opened MonitorProtocol
  import opened MonitorTheorems

  /** The last event of monitor `i`: its start or a step of its own goroutine. */
  function LastOwn(t: seq<Event>, i: nat): Option<Event> {
    if t == [] then None
    else if IsOf(Last(t), i) || Last(t) == StartMonitor(i) then Some(Last(t))
    else LastOwn(Front(t), i)
  }

  function LastStreamStep(stream: Option<Stream>, e: Event, i: nat): Option<Stream> {
    if e.GotStream? && e.i == i then Some(e.stream) else stream
  }

  /** The stream monitor `i` connected to last. */
  function LastStream(t: seq<Event>, i: nat): Option<Stream> {
    if t == [] then None else LastStreamStep(LastStream(Front(t), i), Last(t), i)
  }

  // ------------------------------------------------ places explained by events

  /** Where the loop goes from the channel. */
  predicate Returns(kind: Kind, p: Place, stream: Option<Stream>, failed: bool) {
    if kind.Check? then p == Sleeping(Checking)
    else if failed then p == Sleeping(Connecting) && stream != Some(OtherStream)
    else p.AtSelect? && Typed(p.stream) && stream == Some(p.stream)
  }

  /** The place a goroutine must be at after `own`, its last event. */
  ghost predicate Explained(g: Goroutine, own: Option<Event>, stream: Option<Stream>, produced: seq<CheckResult>) {
    match own
    case None => g.place.NotStarted?
    case Some(StartMonitor(_)) => g.place == if g.kind.Watch? then Connecting else Checking
    case Some(GotStream(_, got)) => g.kind.Watch? && g.place == AtSelect(got) && stream == Some(got)
    case Some(BeginReceive(_)) =>
      g.kind.Watch? && g.place.Receiving? && Typed(g.place.stream) && stream == Some(g.place.stream)
    case Some(FailReceive(_)) =>
      g.kind.Watch? && g.place.ReceiveFailed? && Typed(g.place.stream) && stream == Some(g.place.stream)
    case Some(Produce(_, r)) =>
      g.place.Sending? && produced != [] && Last(produced) == r && Returns(g.kind, g.place.next, stream, r.failed)
    case Some(HandOver(_)) => produced != [] && Returns(g.kind, g.place, stream, Last(produced).failed)
    case Some(HandOverOutside(_)) => produced != [] && Returns(g.kind, g.place, stream, Last(produced).failed)
    case Some(Wake(_)) =>
      g.place == if g.kind.Check? then Checking
                 else if stream == Some(OtherStream) then AtSelect(OtherStream)
                 else Connecting
    case Some(Ignore(_)) =>
      g.kind.Watch? && g.place == Sleeping(AtSelect(OtherStream)) && stream == Some(OtherStream)
    case Some(Exit(_)) => g.place.Exiting?
    case Some(WgDone(_)) => g.place.Done?
    case _ => false
  }

  lemma ExplainedStep(c: Config, s: System, g: Goroutine, e: Event, i: nat, own: Option<Event>,
                      stream: Option<Stream>, produced: seq<CheckResult>)
    requires MonitorEnabled(c, s, g, e) && IsOf(e, i) && Explained(g, own, stream, produced)
    ensures Explained(MonitorApply(c, g, e), Some(e), LastStreamStep(stream, e, i), ProducedStep(produced, e, i))
  {
    hide Count;
  }

  /** The events and places of monitor `i` agree. */
  ghost predicate Told(c: Config, t: seq<Event>, i: nat)
    requires Run(c, t)
  {
    i < |StateAfter(c, t).monitors| ==>
      Explained(StateAfter(c, t).monitors[i], LastOwn(t, i), LastStream(t, i), Produced(t, i))
  }

  lemma NotOwnKeeps(c: Config, s: System, e: Event, i: nat)
    requires Enabled(c, s, e) && !IsOf(e, i) && e != StartMonitor(i) && i < |s.monitors|
    ensures i < |Apply(c, s, e).monitors| && Apply(c, s, e).monitors[i] == s.monitors[i]
  {
    hide MonitorApply, MonitorEnabled, Absorb;
  }

  lemma OwnStepIs(c: Config, s: System, e: Event, i: nat)
    requires Enabled(c, s, e) && IsOf(e, i)
    ensures i < |s.monitors| && MonitorEnabled(c, s, s.monitors[i], e)
    ensures |Apply(c, s, e).monitors| == |s.monitors|
    ensures Apply(c, s, e).monitors[i] == MonitorApply(c, s.monitors[i], e)
  {
    hide MonitorApply, MonitorEnabled;
  }

  lemma StartIs(c: Config, s: System, i: nat)
    requires Enabled(c, s, StartMonitor(i))
    ensures i < |s.monitors| && s.monitors[i].place.NotStarted?
    ensures i < |Apply(c, s, StartMonitor(i)).monitors|
    ensures Apply(c, s, StartMonitor(i)).monitors[i].kind == s.monitors[i].kind
    ensures Apply(c, s, StartMonitor(i)).monitors[i].place == if s.monitors[i].kind.Watch? then Connecting else Checking
  {
  }

  lemma NumberKept(c: Config, s: System, e: Event)
    requires Enabled(c, s, e)
    ensures |Apply(c, s, e).monitors| == |s.monitors|
  {
    hide MonitorApply, MonitorEnabled, Absorb;
  }

  lemma NothingTold(c: Config, i: nat)
    ensures i < |Initial(c).monitors| ==> Explained(Initial(c).monitors[i], None, None, [])
  {
  }

  lemma {:induction false} EventsTellPlaces(c: Config, t: seq<Event>, i: nat)
    requires Run(c, t)
    ensures Told(c, t, i)
  {
    hide Enabled, Apply, Explained, MonitorApply, MonitorEnabled;
    if t == [] {
      NothingTold(c, i);
    } else {
      var t0, e := Front(t), Last(t);
      var s := StateAfter(c, t0);
      EventsTellPlaces(c, t0, i);
      NumberKept(c, s, e);
      if i < |s.monitors| {
        if IsOf(e, i) {
          OwnStepIs(c, s, e, i);
          ExplainedStep(c, s, s.monitors[i], e, i, LastOwn(t0, i), LastStream(t0, i), Produced(t0, i));
        } else if e == StartMonitor(i) {
          StartIs(c, s, i);
          StartExplains(Apply(c, s, e).monitors[i], i, LastStream(t, i), Produced(t, i));
        } else {
          NotOwnKeeps(c, s, e, i);
        }
      }
    }
  }

  lemma StartExplains(g: Goroutine, i: nat, stream: Option<Stream>, produced: seq<CheckResult>)
    requires g.place == if g.kind.Watch? then Connecting else Checking
    ensures Explained(g, Some(StartMonitor(i)), stream, produced)
  {
  }

  // ------------------------------------------------ the next event

  lemma {:induction false} CancelledByCancel(c: Config, t: seq<Event>)
    requires Run(c, t)
    ensures StateAfter(c, t).cancelled <==> Cancel in t
  {
    hide Enabled, Apply;
    if t != [] {
      CancelledByCancel(c, Front(t));
      CancelledOnlyByCancel(c, StateAfter(c, Front(t)), Last(t));
      assert t == Front(t) + [Last(t)];
    }
  }

  lemma EnabledIsOwn(c: Config, s: System, e: Event, i: nat)
    requires IsOf(e, i)
    ensures Enabled(c, s, e) <==> i < |s.monitors| && MonitorEnabled(c, s, s.monitors[i], e)
  {
    hide MonitorEnabled;
  }

  /** Which step of its own a monitor can take next, told by the last one and the stream and result
      that came with earlier ones: a started watch loop connects; a stream it knows is received
      from, nil is a failed result, anything else is ignored; a failed receive is a failed result
      or, once cancelled, the exit; a result in hand is handed over, which a cancelled check loop
      may skip; after a failed result and the sleep the loop connects again, after any other it
      receives from the same stream; and the exit is followed by the wait-group decrement only. */
  lemma NextOwnEvent(c: Config, t: seq<Event>, i: nat, e: Event)
    requires Run(c, t) && i < |c.kinds| && IsOf(e, i)
    ensures var possible := Enabled(c, StateAfter(c, t), e);
            var stream := LastStream(t, i);
            match LastOwn(t, i)
            case None => !possible
            case Some(StartMonitor(_)) =>
              if c.kinds[i].Watch? then possible <==> e.GotStream?
              else possible <==> e.Produce? && e.result.monitor == i && e.result.data != StatusData(None)
            case Some(GotStream(_, got)) =>
              if Cancel in t then possible <==> e.Exit?
              else (match got
                    case AgentStream => possible <==> e.BeginReceive?
                    case AppStream => possible <==> e.BeginReceive?
                    case NilStream => possible <==> e == Produce(i, CheckResult(i, true, NoData))
                    case OtherStream => possible <==> e.Ignore?)
            case Some(BeginReceive(_)) =>
              && stream.Some?
              && (possible <==>
                  || e.FailReceive?
                  || (e.Produce? && e.result.monitor == i && !e.result.failed
                      && if stream.value == AgentStream then e.result.data == NoData
                         else e.result.data.StatusData? && e.result.data.status.Some?))
            case Some(FailReceive(_)) =>
              && stream.Some?
              && if Cancel in t then possible <==> e.Exit?
                 else if stream.value == AgentStream then possible <==> e == Produce(i, CheckResult(i, true, OtherData))
                 else possible <==> e == Produce(i, CheckResult(i, true, NoData))
            case Some(Produce(_, _)) =>
              possible <==>
              || (e.HandOver? && StateAfter(c, t).receiver.Selecting?)
              || (e.HandOverOutside? && StateAfter(c, t).listening)
              || (e.Exit? && c.kinds[i].Check? && Cancel in t)
            case Some(Wake(_)) =>
              if c.kinds[i].Check? then
                possible <==> e.Produce? && e.result.monitor == i && e.result.data != StatusData(None)
              else if stream == Some(OtherStream) then
                possible <==> if Cancel in t then e.Exit? else e.Ignore?
              else
                possible <==> e.GotStream?
            case Some(Ignore(_)) => possible <==> e.Wake?
            case Some(Exit(_)) => possible <==> e.WgDone?
            case Some(WgDone(_)) => !possible
            case Some(_) =>
              && Produced(t, i) != []
              && if c.kinds[i].Check? || Last(Produced(t, i)).failed then possible <==> e.Wake?
                 else possible <==> if Cancel in t then e.Exit? else e.BeginReceive?
  {
    hide Run, StateAfter, LastOwn, LastStream, Produced, Enabled, Sound;
    RunIsSound(c, t);
    KindsKept(c, StateAfter(c, t), i);
    EventsTellPlaces(c, t, i);
    CancelledByCancel(c, t);
    EnabledIsOwn(c, StateAfter(c, t), e, i);
  }

  // ------------------------------------------------ what a failed receive leads to

  lemma {:induction false} LastOwnStays(c: Config, t: seq<Event>, own: Event, u: seq<Event>, i: nat)
    requires Run(c, t + [own] + u) && IsOf(own, i)
    requires forall x :: x in u ==> !IsOf(x, i)
    ensures LastOwn(t + [own] + u, i) == Some(own)
    decreases |u|
  {
    hide Run, StateAfter, Enabled, Apply, LastStream, Produced;
    var all := t + [own] + u;
    if u == [] {
      assert Last(all) == own;
    } else {
      assert Front(all) == t + [own] + Front(u) && Last(all) == Last(u);
      RunFront(c, all);
      LastOwnStays(c, t, own, Front(u), i);
      if Last(u) == StartMonitor(i) {
        EventsTellPlaces(c, Front(all), i);
        StartIs(c, StateAfter(c, Front(all)), i);
      }
    }
  }

  lemma RunFront(c: Config, t: seq<Event>)
    requires Run(c, t) && t != []
    ensures Run(c, Front(t)) && Enabled(c, StateAfter(c, Front(t)), Last(t))
    ensures StateAfter(c, t) == Apply(c, StateAfter(c, Front(t)), Last(t))
  {
  }

  lemma RunFirst(c: Config, t: seq<Event>, e: Event)
    requires Run(c, t + [e])
    ensures Run(c, t) && Enabled(c, StateAfter(c, t), e)
  {
    FrontAppend(t, e);
  }

  /** The next step of a monitor after a failed receive: a failed result or, once cancelled, the
      exit.  After the start of a receive, a result that comes next is not a failed one. */
  lemma FailureIsProduced(c: Config, t: seq<Event>, own: Event, u: seq<Event>, e: Event, i: nat)
    requires Run(c, t + [own] + u + [e]) && i < |c.kinds| && IsOf(own, i) && IsOf(e, i)
    requires forall x :: x in u ==> !IsOf(x, i)
    ensures own.FailReceive? ==>
              if Cancel in t + u then e == Exit(i) else e.Produce? && e.result.failed && e.result.monitor == i
    ensures own.BeginReceive? && e.Produce? ==> !e.result.failed && e.result.monitor == i
    ensures own.BeginReceive? ==> e.Produce? || e == FailReceive(i)
  {
    var all := t + [own] + u;
    RunFirst(c, all, e);
    LastOwnStays(c, t, own, u, i);
    NextOwnEvent(c, all, i, e);
    assert Cancel in all <==> Cancel in t + u;
  }

  /** The stream is given up: the loop cannot receive before it connects again. */
  predicate GivenUp(g: Goroutine) {
    match g.place
    case ReceiveFailed(_) => true
    case Sending(r, next) => r.failed && next == Sleeping(Connecting)
    case Sleeping(next) => next == Connecting
    case Connecting => true
    case Exiting => true
    case Done => true
    case _ => false
  }

  lemma GivenUpStep(c: Config, s: System, g: Goroutine, e: Event)
    requires MonitorEnabled(c, s, g, e) && GivenUp(g) && !e.GotStream?
    ensures GivenUp(MonitorApply(c, g, e)) && !e.BeginReceive? && (e.Produce? ==> e.result.failed)
  {
    hide Count;
  }

  lemma FailGivesUp(c: Config, s: System, g: Goroutine, i: nat)
    requires MonitorEnabled(c, s, g, FailReceive(i))
    ensures GivenUp(MonitorApply(c, g, FailReceive(i)))
  {
  }

  lemma {:induction false} StaysGivenUp(c: Config, t: seq<Event>, i: nat, u: seq<Event>)
    requires Run(c, t + [FailReceive(i)] + u)
    requires forall x :: x in u ==> !(x.GotStream? && x.i == i)
    ensures i < |StateAfter(c, t + [FailReceive(i)] + u).monitors|
    ensures GivenUp(StateAfter(c, t + [FailReceive(i)] + u).monitors[i])
    decreases |u|
  {
    hide Run, StateAfter, Enabled, Apply, GivenUp, MonitorApply, MonitorEnabled;
    var all := t + [FailReceive(i)] + u;
    RunFront(c, all);
    var s := StateAfter(c, Front(all));
    if u == [] {
      assert Last(all) == FailReceive(i);
      OwnStepIs(c, s, FailReceive(i), i);
      FailGivesUp(c, s, s.monitors[i], i);
    } else {
      var e := Last(u);
      assert Front(all) == t + [FailReceive(i)] + Front(u) && Last(all) == e;
      StaysGivenUp(c, t, i, Front(u));
      if IsOf(e, i) {
        OwnStepIs(c, s, e, i);
        GivenUpStep(c, s, s.monitors[i], e);
      } else if e == StartMonitor(i) {
        NotStartedKeepsStream(s.monitors[i]);
        StartIs(c, s, i);
      } else {
        NotOwnKeeps(c, s, e, i);
      }
    }
  }

  lemma NotStartedKeepsStream(g: Goroutine)
    ensures g.place.NotStarted? ==> !GivenUp(g)
  {
  }

  /** After a failed receive, and before the next one begins or a result that is not a failure
      is produced, the monitor has connected again. */
  lemma FailureReconnects(c: Config, t: seq<Event>, i: nat, u: seq<Event>, e: Event)
    requires Run(c, t + [FailReceive(i)] + u + [e])
    requires e == BeginReceive(i) || (e.Produce? && e.i == i && !e.result.failed)
    ensures exists k :: 0 <= k < |u| && u[k].GotStream? && u[k].i == i
  {
    hide Run, StateAfter, Enabled, Apply, GivenUp, MonitorApply, MonitorEnabled;
    var all := t + [FailReceive(i)] + u;
    RunFirst(c, all, e);
    if forall k :: 0 <= k < |u| ==> !(u[k].GotStream? && u[k].i == i) {
      StaysGivenUp(c, t, i, u);
      OwnStepIs(c, StateAfter(c, all), e, i);
      GivenUpStep(c, StateAfter(c, all), StateAfter(c, all).monitors[i], e);
    }
  }

  // ------------------------------------------------ the flags

  /** Has the monitor's goroutine been started, has it left its loop, has it ended? */
  ghost predicate LifeTold(g: Goroutine, started: bool, left: bool, ended: bool) {
    && (g.place.NotStarted? <==> !started)
    && (g.isMonitoring <==> started && !left)
    && (g.place.Exiting? || g.place.Done? <==> left)
    && (g.place.Done? <==> ended)
    && (left ==> g.tally.state == Unknown)
  }

  lemma LifeStep(c: Config, s: System, g: Goroutine, e: Event, i: nat, started: bool, left: bool, ended: bool)
    requires MonitorEnabled(c, s, g, e) && IsOf(e, i) && GoroutineSound(g, s.cancelled)
    requires LifeTold(g, started, left, ended)
    ensures LifeTold(MonitorApply(c, g, e), started, left || e == Exit(i), ended || e == WgDone(i))
  {
    hide Count;
  }

  lemma LifeStart(c: Config, s: System, i: nat, left: bool, ended: bool)
    requires Enabled(c, s, StartMonitor(i)) && i < |s.monitors| && LifeTold(s.monitors[i], false, left, ended)
    ensures i < |Apply(c, s, StartMonitor(i)).monitors|
    ensures LifeTold(Apply(c, s, StartMonitor(i)).monitors[i], true, left, ended)
  {
  }

  lemma LifeUntold(c: Config, i: nat)
    ensures i < |Initial(c).monitors| ==> LifeTold(Initial(c).monitors[i], false, false, false)
  {
  }

  lemma InFront(t: seq<Event>, x: Event)
    requires t != []
    ensures x in t <==> x in Front(t) || x == Last(t)
  {
    assert t == Front(t) + [Last(t)];
  }

  lemma {:induction false} LifeIsToldByEvents(c: Config, t: seq<Event>, i: nat)
    requires Run(c, t) && i < |c.kinds|
    ensures |StateAfter(c, t).monitors| == |c.kinds|
    ensures LifeTold(StateAfter(c, t).monitors[i], StartMonitor(i) in t, Exit(i) in t, WgDone(i) in t)
  {
    hide Enabled, Apply, LifeTold, Sound, MonitorApply, MonitorEnabled;
    if t == [] {
      LifeUntold(c, i);
    } else {
      var t0, e := Front(t), Last(t);
      var s := StateAfter(c, t0);
      LifeIsToldByEvents(c, t0, i);
      NumberKept(c, s, e);
      InFront(t, StartMonitor(i));
      InFront(t, Exit(i));
      InFront(t, WgDone(i));
      if IsOf(e, i) {
        OwnStepIs(c, s, e, i);
        RunIsSound(c, t0);
        GoroutineIsSound(c, s, i);
        LifeStep(c, s, s.monitors[i], e, i, StartMonitor(i) in t0, Exit(i) in t0, WgDone(i) in t0);
      } else if e == StartMonitor(i) {
        StartIs(c, s, i);
        NotStartedIsUntold(s.monitors[i], StartMonitor(i) in t0, Exit(i) in t0, WgDone(i) in t0);
        LifeStart(c, s, i, Exit(i) in t0, WgDone(i) in t0);
      } else {
        NotOwnKeeps(c, s, e, i);
      }
    }
  }

  lemma GoroutineIsSound(c: Config, s: System, i: nat)
    requires Sound(c, s) && i < |s.monitors|
    ensures GoroutineSound(s.monitors[i], s.cancelled)
  {
  }

  lemma NotStartedIsUntold(g: Goroutine, started: bool, left: bool, ended: bool)
    requires g.place.NotStarted? && LifeTold(g, started, left, ended)
    ensures !started
  {
  }

  /** The receiver's goroutine and, on a handler of its own, the flag. */
  ghost predicate ReceiverTold(c: Config, s: System, started: bool, left: bool, ended: bool) {
    && (s.receiver.Idle? <==> !started)
    && (s.receiver.Leaving? || s.receiver.Gone? <==> left)
    && (s.receiver.Gone? <==> ended)
    && (!c.outside ==> (s.isReceiving <==> started && !left))
  }

  lemma ReceiverStep(c: Config, s: System, e: Event, started: bool, left: bool, ended: bool)
    requires Enabled(c, s, e) && ReceiverTold(c, s, started, left, ended)
    ensures ReceiverTold(c, Apply(c, s, e), started || e == StartReceiver, left || e == ReceiverExit,
                         ended || e == ReceiverWgDone)
  {
    hide Absorb, MonitorApply;
  }

  lemma {:induction false} ReceiverIsToldByEvents(c: Config, t: seq<Event>)
    requires Run(c, t)
    ensures ReceiverTold(c, StateAfter(c, t), StartReceiver in t, ReceiverExit in t, ReceiverWgDone in t)
  {
    hide Enabled, Apply, ReceiverTold;
    if t == [] {
      NoReceiverYet(c);
    } else {
      ReceiverIsToldByEvents(c, Front(t));
      InFront(t, StartReceiver);
      InFront(t, ReceiverExit);
      InFront(t, ReceiverWgDone);
      ReceiverStep(c, StateAfter(c, Front(t)), Last(t), StartReceiver in Front(t), ReceiverExit in Front(t),
                   ReceiverWgDone in Front(t));
    }
  }

  lemma NoReceiverYet(c: Config)
    ensures ReceiverTold(c, Initial(c), false, false, false)
  {
  }

  ghost predicate StopTold(s: System, cancelled: bool, returned: bool) {
    (s.stopper.NotStopping? <==> !cancelled) && (s.stopper.Returned? <==> returned)
  }

  lemma StopStep(c: Config, s: System, e: Event, cancelled: bool, returned: bool)
    requires Enabled(c, s, e) && Sound(c, s) && StopTold(s, cancelled, returned)
    ensures StopTold(Apply(c, s, e), cancelled || e == Cancel, returned || e == StopReturns)
  {
    hide Absorb, MonitorApply, LiveGoroutines, GoroutineSound;
  }

  lemma {:induction false} StopIsToldByEvents(c: Config, t: seq<Event>)
    requires Run(c, t)
    ensures StopTold(StateAfter(c, t), Cancel in t, StopReturns in t)
  {
    hide Enabled, Apply, Sound;
    if t != [] {
      hide StopTold;
      StopIsToldByEvents(c, Front(t));
      RunIsSound(c, Front(t));
      InFront(t, Cancel);
      InFront(t, StopReturns);
      StopStep(c, StateAfter(c, Front(t)), Last(t), Cancel in Front(t), StopReturns in Front(t));
    }
  }

  /** A monitor is monitoring from its start to its exit, its goroutine has ended with the decrement
      of the wait group, and its state is unknown once it has left.  On a handler of its own the
      pod is receiving from the receiver's start to the receiver's exit.  The context is cancelled
      by `Stop`, which has returned once its wait is over. */
  lemma FlagsAreToldByEvents(c: Config, t: seq<Event>)
    requires Run(c, t)
    ensures var s := StateAfter(c, t);
            && |s.monitors| == |c.kinds|
            && (forall i :: 0 <= i < |c.kinds| ==>
                  && (s.monitors[i].isMonitoring <==> StartMonitor(i) in t && Exit(i) !in t)
                  && (s.monitors[i].place.NotStarted? <==> StartMonitor(i) !in t)
                  && (s.monitors[i].place.Done? <==> WgDone(i) in t)
                  && (Exit(i) in t ==> s.monitors[i].tally.state == Unknown))
            && (!c.outside ==> (s.isReceiving <==> StartReceiver in t && ReceiverExit !in t))
            && (s.receiver.Gone? <==> ReceiverWgDone in t)
            && (s.cancelled <==> Cancel in t)
            && (s.stopper.Returned? <==> StopReturns in t)
  {
    hide Run, StateAfter, Sound;
    StopIsToldByEvents(c, t);
    RunIsSound(c, t);
    SameNumber(c, StateAfter(c, t));
    CancelledByCancel(c, t);
    ReceiverIsToldByEvents(c, t);
    forall i: nat | i < |c.kinds|
      ensures LifeTold(StateAfter(c, t).monitors[i], StartMonitor(i) in t, Exit(i) in t, WgDone(i) in t)
    {
      LifeIsToldByEvents(c, t, i);
    }
  }
}
