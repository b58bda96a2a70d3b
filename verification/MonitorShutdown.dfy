/** How long `Stop` takes, and when it never returns. */
module MonitorShutdown {
  import opened Common
  import opened Pods
  import opened HealthMonitor
  import opened MonitorProtocol
  import opened MonitorTheorems

  ghost predicate AllWatch(c: Config) {
    forall i :: 0 <= i < |c.kinds| ==> c.kinds[i].Watch?
  }

  /** Steps a watch loop may still take once the context is cancelled, with one unit in hand
      for the receiver at each hand-over. */
  function PlaceRank(p: Place): nat {
    match p
    case NotStarted => 0
    case Done => 0
    case Exiting => 1
    case AtSelect(_) => 2
    case ReceiveFailed(_) => 2
    case Connecting => 3
    case Sleeping(next) => if next.Connecting? then 4 else 3
    case Sending(_, _) => 6
    case Receiving(_) => 7
    case Checking => 0
  }

  function Rank(g: Goroutine): nat {
    PlaceRank(g.place)
  }

  function ReceiverRank(r: Receiver): nat {
    match r
    case Idle => 0
    case Gone => 0
    case Leaving => 1
    case Selecting => 2
    case Handling(_) => 3
  }

  function Remaining(s: System): nat {
    ReceiverRank(s.receiver) + Sum(Rank, s.monitors)
  }

  /** A step of one of this pod's goroutines other than taking a result of another pod. */
  predicate OwnStep(e: Event) {
    MonitorEvent(e) || e.Handle? || e.ReceiverExit? || e.ReceiverWgDone?
  }

  lemma WatchRankDrops(c: Config, s: System, g: Goroutine, e: Event)
    requires MonitorEnabled(c, s, g, e) && GoroutineSound(g, true) && s.cancelled && g.kind.Watch?
    ensures Rank(MonitorApply(c, g, e)) + (if e.HandOver? then 2 else 1) <= Rank(g)
  {
  }

  lemma MonitorStepShrinks(c: Config, s: System, e: Event)
    requires Enabled(c, s, e) && Sound(c, s) && AllWatch(c) && s.cancelled && MonitorEvent(e)
    ensures Remaining(Apply(c, s, e)) < Remaining(s)
  {
    var g := s.monitors[e.i];
    assert g.kind == c.kinds[e.i];
    WatchRankDrops(c, s, g, e);
    SumUpdate(Rank, s.monitors, e.i, MonitorApply(c, g, e));
  }

  /** Once cancelled, every step of this pod's goroutines shrinks what remains; a result taken
      from another pod adds one; nothing else changes it. */
  lemma StepShrinks(c: Config, s: System, e: Event)
    requires Enabled(c, s, e) && Sound(c, s) && AllWatch(c) && s.cancelled
    ensures OwnStep(e) ==> Remaining(Apply(c, s, e)) < Remaining(s)
    ensures e.TakeOutside? ==> Remaining(Apply(c, s, e)) == Remaining(s) + 1
    ensures !OwnStep(e) && !e.TakeOutside? ==> Remaining(Apply(c, s, e)) == Remaining(s)
    ensures Apply(c, s, e).cancelled
  {
    if MonitorEvent(e) {
      MonitorStepShrinks(c, s, e);
    }
  }

  function OwnSteps(u: seq<Event>): nat {
    if u == [] then 0 else OwnSteps(Front(u)) + if OwnStep(Last(u)) then 1 else 0
  }

  function OutsideResults(u: seq<Event>): nat {
    if u == [] then 0 else OutsideResults(Front(u)) + if Last(u).TakeOutside? then 1 else 0
  }

  /** After cancellation the goroutines of a pod whose monitors all watch take at most
      `Remaining` steps, plus one for every result of another pod their receiver still takes.
      A fair receiver takes only finitely many of those, so it all ends. */
  lemma {:induction false} ShutdownIsBounded(c: Config, t: seq<Event>, u: seq<Event>)
    requires AllWatch(c) && Run(c, t) && Run(c, t + u) && StateAfter(c, t).cancelled
    ensures StateAfter(c, t + u).cancelled
    ensures OwnSteps(u) + Remaining(StateAfter(c, t + u)) <= Remaining(StateAfter(c, t)) + OutsideResults(u)
    decreases |u|
  {
    hide Enabled, Apply, Remaining, OwnStep, AllWatch;
    if u == [] {
      assert t + u == t;
    } else {
      assert Front(t + u) == t + Front(u) && Last(t + u) == Last(u);
      ShutdownIsBounded(c, t, Front(u));
      RunIsSound(c, t + Front(u));
      StepShrinks(c, StateAfter(c, t + Front(u)), Last(u));
    }
  }

  /** Some goroutine of this pod has a step to take. */
  ghost predicate CanProgress(c: Config, s: System) {
    exists e :: OwnStep(e) && Enabled(c, s, e)
  }

  /** The deadlock: nobody listens on the channel at the moment and every monitor that has not
      ended is waiting at its send. */
  ghost predicate Deadlocked(c: Config, s: System) {
    && s.waitGroup > 0 && !s.listening && s.receiver.Gone?
    && forall i :: 0 <= i < |s.monitors| ==> s.monitors[i].place.Done? || s.monitors[i].place.Sending?
  }

  /** A step for each place a cancelled watch loop can be in. */
  lemma StepOfMonitor(c: Config, s: System, k: nat) returns (e: Event)
    requires Sound(c, s) && AllWatch(c) && s.cancelled && k < |s.monitors|
    requires !s.monitors[k].place.Done? && !s.monitors[k].place.Sending?
    ensures IsOf(e, k) && Enabled(c, s, e)
  {
    var g := s.monitors[k];
    assert g.kind == c.kinds[k] && GoroutineSound(g, s.cancelled) && !g.place.NotStarted?;
    e := match g.place
      case Connecting => GotStream(k, NilStream)
      case AtSelect(_) => Exit(k)
      case Receiving(_) => FailReceive(k)
      case ReceiveFailed(_) => Exit(k)
      case Sleeping(_) => Wake(k)
      case _ => WgDone(k);
  }

  lemma MonitorHasStep(c: Config, s: System, i: nat)
    requires Sound(c, s) && AllWatch(c) && s.cancelled && i < |s.monitors|
    requires !s.monitors[i].place.Done?
    requires s.monitors[i].place.Sending? ==> s.listening || s.receiver.Selecting?
    ensures CanProgress(c, s)
  {
    if s.monitors[i].place.Sending? {
      var e := if s.listening then HandOverOutside(i) else HandOver(i);
      assert OwnStep(e) && Enabled(c, s, e);
    } else {
      var e := StepOfMonitor(c, s, i);
      assert OwnStep(e) && Enabled(c, s, e);
    }
  }

  lemma ReceiverHasStep(c: Config, s: System)
    requires s.cancelled && !s.receiver.Idle? && !s.receiver.Gone?
    ensures CanProgress(c, s)
  {
    var e := match s.receiver
      case Selecting => ReceiverExit
      case Handling(_) => Handle
      case _ => ReceiverWgDone;
    assert OwnStep(e) && Enabled(c, s, e);
  }

  lemma QuietWhenNobodyLives(c: Config, s: System)
    requires Sound(c, s) && s.waitGroup == 0
    ensures s.cancelled ==> !CanProgress(c, s)
  {
    NobodyLive(s);
  }

  lemma StuckStep(c: Config, s: System, e: Event)
    requires Sound(c, s) && AllWatch(c) && Deadlocked(c, s) && OwnStep(e)
    ensures !Enabled(c, s, e)
  {
    assert MonitorEvent(e) && e.i < |s.monitors| ==> s.monitors[e.i].kind == c.kinds[e.i];
  }

  lemma DeadlockHasNoStep(c: Config, s: System)
    requires Sound(c, s) && AllWatch(c) && Deadlocked(c, s)
    ensures !CanProgress(c, s)
  {
    hide Sound, AllWatch, Deadlocked, OwnStep, Enabled;
    forall e | OwnStep(e) ensures !Enabled(c, s, e) {
      StuckStep(c, s, e);
    }
  }

  lemma NobodyLeftCounts(c: Config, s: System)
    requires Sound(c, s) && s.cancelled && s.receiver.Gone?
    requires forall i :: 0 <= i < |s.monitors| ==> s.monitors[i].place.Done?
    ensures s.waitGroup == 0
  {
    SumZero(Live, s.monitors);
  }

  /** Not ended, and not waiting at its send with nobody but the pod's own receiver to send to. */
  predicate MayMove(s: System, g: Goroutine) {
    !g.place.Done? && (s.listening || !g.place.Sending?)
  }

  /** After cancellation the goroutines are at a standstill only when they have all ended or in
      the deadlock; in particular, as long as another receiver is on the channel, they are not
      at a standstill before they have all ended. */
  lemma StandstillIsEndOrDeadlock(c: Config, t: seq<Event>)
    requires AllWatch(c) && Run(c, t) && StateAfter(c, t).cancelled
    ensures !CanProgress(c, StateAfter(c, t)) <==>
            StateAfter(c, t).waitGroup == 0 || Deadlocked(c, StateAfter(c, t))
    ensures StateAfter(c, t).listening && StateAfter(c, t).waitGroup > 0 ==> CanProgress(c, StateAfter(c, t))
  {
    hide Run, StateAfter, CanProgress, AllWatch;
    RunIsSound(c, t);
    var s := StateAfter(c, t);
    if s.waitGroup == 0 {
      QuietWhenNobodyLives(c, s);
    } else if Deadlocked(c, s) {
      DeadlockHasNoStep(c, s);
    } else if !s.receiver.Gone? {
      ReceiverHasStep(c, s);
    } else if i :| 0 <= i < |s.monitors| && MayMove(s, s.monitors[i]) {
      MonitorHasStep(c, s, i);
    } else {
      NobodyLeftCounts(c, s);
    }
  }

  // ------------------------------------------------ when stopping can hang

  ghost predicate LeadsToDeadlock(c: Config, t: seq<Event>, u: seq<Event>) {
    Run(c, t + u) && Deadlocked(c, StateAfter(c, t + u))
  }

  /** Some monitor is inside `Recv` or at its send. */
  predicate AtRisk(s: System) {
    exists i :: 0 <= i < |s.monitors| && (s.monitors[i].place.Receiving? || s.monitors[i].place.Sending?)
  }

  /** The deadlock lasts until another pod starts to listen; if the handler is not shared, for
      ever. */
  lemma DeadlockLasts(c: Config, s: System, e: Event)
    requires Sound(c, s) && AllWatch(c) && s.cancelled && Deadlocked(c, s) && Enabled(c, s, e)
    ensures c.outside && AftermathOf(e) && (e != ListenOutside(true) ==> Deadlocked(c, Apply(c, s, e)))
  {
    if MonitorEvent(e) {
      StuckStep(c, s, e);
    }
    hide AllWatch, MonitorEnabled, Absorb, GoroutineSound;
  }

  lemma DeadlockedSender(c: Config, s: System) returns (i: nat)
    requires Sound(c, s) && s.cancelled && Deadlocked(c, s)
    ensures i < |s.monitors| && s.monitors[i].place.Sending?
  {
    if forall k :: 0 <= k < |s.monitors| ==> s.monitors[k].place.Done? {
      NobodyLeftCounts(c, s);
      assert false;
    }
    i :| 0 <= i < |s.monitors| && !s.monitors[i].place.Done?;
  }

  lemma MaySendStep(c: Config, s: System, e: Event, i: nat)
    requires Enabled(c, s, e) && Sound(c, s) && s.cancelled && i < |s.monitors| && s.monitors[i].kind.Watch?
    ensures i < |Apply(c, s, e).monitors|
    ensures MayStillSend(Apply(c, s, e).monitors[i].place) <= MayStillSend(s.monitors[i].place)
  {
    if IsOf(e, i) {
      LateMonitorStep(c, s, s.monitors[i], e);
      hide MonitorApply, MonitorEnabled, Sound;
      assert Apply(c, s, e).monitors[i] == MonitorApply(c, s.monitors[i], e);
    } else {
      OtherPlacesKept(c, s, e, i);
    }
  }

  /** A monitor that may send at the end of a continuation could already have at its start. */
  lemma {:induction false} MaySendOnlyShrinks(c: Config, t: seq<Event>, u: seq<Event>, i: nat)
    requires Run(c, t) && Run(c, t + u) && StateAfter(c, t).cancelled && i < |c.kinds| && c.kinds[i].Watch?
    ensures i < |StateAfter(c, t).monitors| && i < |StateAfter(c, t + u).monitors|
    ensures MayStillSend(StateAfter(c, t + u).monitors[i].place) <= MayStillSend(StateAfter(c, t).monitors[i].place)
    decreases |u|
  {
    RunIsSound(c, t);
    KindsKept(c, StateAfter(c, t), i);
    hide Enabled, Apply, Sound, MayStillSend;
    if u == [] {
      assert t + u == t;
    } else {
      assert Front(t + u) == t + Front(u) && Last(t + u) == Last(u);
      MaySendOnlyShrinks(c, t, Front(u), i);
      StaysCancelled(c, t, Front(u));
      RunIsSound(c, t + Front(u));
      KindsKept(c, StateAfter(c, t + Front(u)), i);
      MaySendStep(c, StateAfter(c, t + Front(u)), Last(u), i);
    }
  }

  lemma DeadlockMeansAtRisk(c: Config, t: seq<Event>, u: seq<Event>)
    requires AllWatch(c) && Run(c, t) && StateAfter(c, t).cancelled && LeadsToDeadlock(c, t, u)
    ensures AtRisk(StateAfter(c, t))
  {
    RunIsSound(c, t + u);
    StaysCancelled(c, t, u);
    hide Run, StateAfter, Sound;
    var i := DeadlockedSender(c, StateAfter(c, t + u));
    SameNumber(c, StateAfter(c, t + u));
    MaySendOnlyShrinks(c, t, u, i);
    assert StateAfter(c, t).monitors[i].place.Receiving? || StateAfter(c, t).monitors[i].place.Sending?;
  }

  lemma {:induction false} StaysCancelled(c: Config, t: seq<Event>, u: seq<Event>)
    requires Run(c, t) && Run(c, t + u) && StateAfter(c, t).cancelled
    ensures StateAfter(c, t + u).cancelled
    decreases |u|
  {
    hide Enabled, Apply;
    if u == [] {
      assert t + u == t;
    } else {
      assert Front(t + u) == t + Front(u) && Last(t + u) == Last(u);
      StaysCancelled(c, t, Front(u));
      CancelledOnlyByCancel(c, StateAfter(c, t + Front(u)), Last(u));
    }
  }

  lemma SenderIsLive(c: Config, s: System, i: nat)
    requires Sound(c, s) && i < |s.monitors| && s.monitors[i].place.Sending?
    ensures s.waitGroup > 0
  {
    if s.waitGroup == 0 {
      NobodyLive(s);
    }
  }

  /** The other receivers' leaving, the receiver's way out, or a step of a monitor that is neither
      done nor at its send. */
  lemma NextStepAround(c: Config, s: System, i: nat) returns (e: Event)
    requires Sound(c, s) && AllWatch(c) && s.cancelled
    requires i < |s.monitors| && s.monitors[i].place.Sending? && !Deadlocked(c, s)
    ensures Enabled(c, s, e) && !IsOf(e, i)
    ensures if s.listening then e == ListenOutside(false) else OwnStep(e) && !Apply(c, s, e).listening
  {
    if s.listening {
      e := ListenOutside(false);
    } else if !s.receiver.Gone? {
      e := match s.receiver
        case Selecting => ReceiverExit
        case Handling(_) => Handle
        case _ => ReceiverWgDone;
    } else {
      SenderIsLive(c, s, i);
      var k :| 0 <= k < |s.monitors| && !s.monitors[k].place.Done? && !s.monitors[k].place.Sending?;
      e := StepOfMonitor(c, s, k);
    }
  }

  lemma DriveOneStep(c: Config, t: seq<Event>, s: System, i: nat) returns (e: Event)
    requires AllWatch(c) && Run(c, t) && StateAfter(c, t) == s && s.cancelled
    requires i < |s.monitors| && s.monitors[i].place.Sending? && !Deadlocked(c, s)
    ensures Run(c, t + [e]) && StateAfter(c, t + [e]).cancelled
    ensures i < |StateAfter(c, t + [e]).monitors| && StateAfter(c, t + [e]).monitors[i].place.Sending?
    ensures !StateAfter(c, t + [e]).listening
    ensures if s.listening then Remaining(StateAfter(c, t + [e])) == Remaining(s)
            else Remaining(StateAfter(c, t + [e])) < Remaining(s)
  {
    RunIsSound(c, t);
    hide Run, StateAfter, Sound, Deadlocked, AllWatch, Remaining, Enabled, MonitorApply, Absorb;
    e := NextStepAround(c, s, i);
    StepShrinks(c, s, e);
    OtherPlacesKept(c, s, e, i);
    RunExtend(c, t, e);
  }

  /** With a monitor at its send, the others and the receivers can all end without it. */
  lemma {:induction false} DriveToDeadlock(c: Config, t: seq<Event>, i: nat) returns (u: seq<Event>)
    requires AllWatch(c) && Run(c, t) && StateAfter(c, t).cancelled
    requires i < |StateAfter(c, t).monitors| && StateAfter(c, t).monitors[i].place.Sending?
    ensures LeadsToDeadlock(c, t, u)
    decreases Remaining(StateAfter(c, t)), if StateAfter(c, t).listening then 1 else 0
  {
    hide Run, StateAfter, Deadlocked, AllWatch, Remaining;
    if Deadlocked(c, StateAfter(c, t)) {
      u := [];
      assert t + [] == t;
    } else {
      var e := DriveOneStep(c, t, StateAfter(c, t), i);
      u := DriveToDeadlock(c, t + [e], i);
      hide LeadsToDeadlock;
      LeadsOn(c, t, e, u);
      u := [e] + u;
    }
  }

  /** A monitor inside `Recv` may still receive something and go to its send. */
  lemma ReceiveOneMore(c: Config, t: seq<Event>, i: nat) returns (e: Event)
    requires Run(c, t) && i < |StateAfter(c, t).monitors| && StateAfter(c, t).monitors[i].place.Receiving?
    ensures Run(c, t + [e]) && StateAfter(c, t + [e]).cancelled == StateAfter(c, t).cancelled
    ensures i < |StateAfter(c, t + [e]).monitors| && StateAfter(c, t + [e]).monitors[i].place.Sending?
  {
    var s := StateAfter(c, t);
    RunIsSound(c, t);
    assert GoroutineSound(s.monitors[i], s.cancelled);
    var data := if s.monitors[i].place.stream.AgentStream? then NoData else StatusData(Some(c.status));
    e := Produce(i, CheckResult(i, false, data));
    hide Sound, Run, StateAfter;
    assert Enabled(c, s, e);
    RunExtend(c, t, e);
  }

  /** Cancelling the monitors of a pod that only watch can hang, that is, some continuation ends in
      the deadlock, if and only if at that moment one of them is inside `Recv` or at its send.
      Sharing the handler does not help: the other receivers may leave before the send. */
  lemma StopCanHangIffAtRisk(c: Config, t: seq<Event>)
    requires AllWatch(c) && Run(c, t) && StateAfter(c, t).cancelled
    ensures (exists u :: LeadsToDeadlock(c, t, u)) <==> AtRisk(StateAfter(c, t))
  {
    hide Run, StateAfter, LeadsToDeadlock, AllWatch;
    if u :| LeadsToDeadlock(c, t, u) {
      DeadlockMeansAtRisk(c, t, u);
    }
    var s := StateAfter(c, t);
    if AtRisk(s) {
      var i: nat :| i < |s.monitors| && (s.monitors[i].place.Receiving? || s.monitors[i].place.Sending?);
      if s.monitors[i].place.Sending? {
        var u := DriveToDeadlock(c, t, i);
      } else {
        var e := ReceiveOneMore(c, t, i);
        var u := DriveToDeadlock(c, t + [e], i);
        LeadsOn(c, t, e, u);
      }
    }
  }

  /** If another pod's receiver is on the channel and stays, there is no deadlock on the way: as
      long as goroutines are left, one of them has a step. */
  lemma {:induction false} StayingReceiverPreventsHang(c: Config, t: seq<Event>, u: seq<Event>)
    requires AllWatch(c) && Run(c, t) && Run(c, t + u) && StateAfter(c, t).cancelled && StateAfter(c, t).listening
    requires ListenOutside(false) !in u
    ensures StateAfter(c, t + u).listening
    ensures StateAfter(c, t + u).waitGroup > 0 ==> CanProgress(c, StateAfter(c, t + u))
  {
    hide AllWatch, CanProgress, Run, StateAfter;
    StaysListening(c, t, u);
    StaysCancelled(c, t, u);
    StandstillIsEndOrDeadlock(c, t + u);
  }

  lemma ListeningStep(c: Config, s: System, e: Event)
    requires Enabled(c, s, e) && s.listening && e != ListenOutside(false)
    ensures Apply(c, s, e).listening
  {
  }

  lemma {:induction false} StaysListening(c: Config, t: seq<Event>, u: seq<Event>)
    requires Run(c, t) && Run(c, t + u) && StateAfter(c, t).listening && ListenOutside(false) !in u
    ensures StateAfter(c, t + u).listening
    decreases |u|
  {
    hide Enabled, Apply;
    if u == [] {
      assert t + u == t;
    } else {
      assert Front(t + u) == t + Front(u) && Last(t + u) == Last(u) && u == Front(u) + [Last(u)];
      StaysListening(c, t, Front(u));
      ListeningStep(c, StateAfter(c, t + Front(u)), Last(u));
    }
  }

  lemma LeadsOn(c: Config, t: seq<Event>, e: Event, u: seq<Event>)
    requires LeadsToDeadlock(c, t + [e], u)
    ensures LeadsToDeadlock(c, t, [e] + u)
  {
    assert t + [e] + u == t + ([e] + u);
  }

  lemma Advance(c: Config, t: seq<Event>, e: Event, s: System) returns (t': seq<Event>, s': System)
    requires Run(c, t) && StateAfter(c, t) == s && Enabled(c, s, e)
    ensures t' == t + [e] && Run(c, t') && s' == Apply(c, s, e) && StateAfter(c, t') == s'
  {
    RunExtend(c, t, e);
    t', s' := t + [e], Apply(c, s, e);
  }

  const Lonely: Config := Config(false, 1, [Watch], PodStatus("", "", "", [], "", []))

  /** The deadlock is real: a pod with a handler of its own, as after a restart of the provider,
      whose stream cannot be connected, and whose receiver sees the cancellation first. */
  lemma StopCanHang() returns (t: seq<Event>)
    ensures Run(Lonely, t) && StateAfter(Lonely, t).cancelled && Deadlocked(Lonely, StateAfter(Lonely, t))
  {
    var s: System;
    t, s := LonelyStarted();
    hide Run, StateAfter;
    t, s := Advance(Lonely, t, GotStream(0, NilStream), s);
    t, s := Advance(Lonely, t, Produce(0, CheckResult(0, true, NoData)), s);
    t, s := Advance(Lonely, t, Cancel, s);
    t, s := Advance(Lonely, t, ReceiverExit, s);
    t, s := Advance(Lonely, t, ReceiverWgDone, s);
  }

  lemma LonelyStarted() returns (t: seq<Event>, s: System)
    ensures Run(Lonely, t) && StateAfter(Lonely, t) == s
    ensures s.started == 1 == |s.monitors| && s.receiver.Selecting? && !s.cancelled && s.waitGroup == 2 && !s.listening
    ensures s.monitors[0].kind.Watch? && s.monitors[0].place.Connecting?
  {
    assert Run(Lonely, []);
    t, s := Advance(Lonely, [], StartReceiver, Initial(Lonely));
    hide Run, StateAfter;
    t, s := Advance(Lonely, t, StartMonitor(0), s);
  }

  const Shared: Config := Lonely.(outside := true)

  /** Two pods with the provider's default handler, deleted together: when this one is cancelled the
      other still listens, and yet its stop can hang. */
  lemma SharedStopCanHang() returns (t: seq<Event>, u: seq<Event>)
    ensures Run(Shared, t) && StateAfter(Shared, t).cancelled && StateAfter(Shared, t).listening
    ensures LeadsToDeadlock(Shared, t, u)
  {
    var s: System;
    t, s := SharedReceiving();
    hide Run, StateAfter;
    t, s := Advance(Shared, t, Cancel, s);
    var e := ReceiveOneMore(Shared, t, 0);
    hide LeadsToDeadlock;
    u := DriveToDeadlock(Shared, t + [e], 0);
    LeadsOn(Shared, t, e, u);
    u := [e] + u;
  }

  /** Where the handler is shared, a report can still reach the pod, and its notifier, after `Stop`
      has returned. */
  lemma StopCanBeFollowedByReport() returns (t: seq<Event>)
    ensures Run(Shared, t) && StateAfter(Shared, t).stopper.Returned? && |StateAfter(Shared, t).notified| == 0
    ensures Run(Shared, t + [HandleOutside(0)]) && |StateAfter(Shared, t + [HandleOutside(0)]).notified| == 1
  {
    var s: System;
    var report := CheckResult(0, false, StatusData(Some(Shared.status)));
    t, s := SharedCancelled(report);
    hide Run, StateAfter;
    t, s := Advance(Shared, t, WgDone(0), s);
    t, s := Advance(Shared, t, ReceiverExit, s);
    t, s := Advance(Shared, t, ReceiverWgDone, s);
    t, s := Advance(Shared, t, StopReturns, s);
    var t', s' := Advance(Shared, t, HandleOutside(0), s);
  }

  lemma SharedCancelled(report: CheckResult) returns (t: seq<Event>, s: System)
    requires report.monitor == 0 && !report.failed && CarriesStatus(report.data)
    ensures Run(Shared, t) && StateAfter(Shared, t) == s
    ensures |s.monitors| == 1 && s.receiver.Selecting? && s.cancelled && s.waitGroup == 2 && s.stopper.Awaiting?
    ensures s.elsewhere == [report] && s.notified == [] && s.monitors[0].place.Exiting?
  {
    t, s := SharedSending(report);
    hide Run, StateAfter;
    t, s := Advance(Shared, t, HandOverOutside(0), s);
    t, s := Advance(Shared, t, Cancel, s);
    t, s := Advance(Shared, t, Exit(0), s);
  }

  lemma SharedSending(report: CheckResult) returns (t: seq<Event>, s: System)
    requires report.monitor == 0 && !report.failed && CarriesStatus(report.data)
    ensures Run(Shared, t) && StateAfter(Shared, t) == s
    ensures s.started == 1 == |s.monitors| && s.receiver.Selecting? && !s.cancelled && s.waitGroup == 2
    ensures s.listening && s.elsewhere == [] && s.notified == [] && s.stopper.NotStopping?
    ensures s.monitors[0].kind.Watch? && s.monitors[0].place == Sending(report, AtSelect(AppStream))
  {
    t, s := SharedReceiving();
    hide Run, StateAfter;
    t, s := Advance(Shared, t, Produce(0, report), s);
  }

  lemma SharedReceiving() returns (t: seq<Event>, s: System)
    ensures Run(Shared, t) && StateAfter(Shared, t) == s
    ensures s.started == 1 == |s.monitors| && s.receiver.Selecting? && !s.cancelled && s.waitGroup == 2
    ensures s.listening && s.elsewhere == [] && s.notified == [] && s.stopper.NotStopping?
    ensures s.monitors[0].kind.Watch? && s.monitors[0].place == Receiving(AppStream)
  {
    t, s := SharedStarted();
    hide Run, StateAfter;
    t, s := Advance(Shared, t, GotStream(0, AppStream), s);
    t, s := Advance(Shared, t, BeginReceive(0), s);
  }

  lemma SharedStarted() returns (t: seq<Event>, s: System)
    ensures Run(Shared, t) && StateAfter(Shared, t) == s
    ensures s.started == 1 == |s.monitors| && s.receiver.Selecting? && !s.cancelled && s.waitGroup == 2
    ensures s.listening && s.elsewhere == [] && s.notified == [] && s.stopper.NotStopping?
    ensures s.monitors[0].kind.Watch? && s.monitors[0].place.Connecting?
  {
    assert Run(Shared, []);
    t, s := Advance(Shared, [], ListenOutside(true), Initial(Shared));
    hide Run, StateAfter;
    t, s := Advance(Shared, t, StartReceiver, s);
    t, s := Advance(Shared, t, StartMonitor(0), s);
  }
}
