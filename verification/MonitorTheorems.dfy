/** What starting and stopping a pod's monitors guarantees, over every interleaving of its
    goroutines. */
module MonitorTheorems {
  import opened Common
  import opened HealthMonitor
  import opened MonitorProtocol

  // ------------------------------------------------------------- sums

  function Sum<T>(f: T -> nat, s: seq<T>): nat {
    if s == [] then 0 else Sum(f, Front(s)) + f(Last(s))
  }

  lemma {:induction false} SumUpdate<T>(f: T -> nat, s: seq<T>, i: nat, x: T)
    requires i < |s|
    ensures Sum(f, s[i := x]) + f(s[i]) == Sum(f, s) + f(x)
    decreases |s|
  {
    var u := s[i := x];
    if i == |s| - 1 {
      assert Front(u) == Front(s);
    } else {
      assert Front(u) == Front(s)[i := x];
      SumUpdate(f, Front(s), i, x);
    }
  }

  lemma {:induction false} SumZero<T>(f: T -> nat, s: seq<T>)
    ensures Sum(f, s) == 0 <==> forall i :: 0 <= i < |s| ==> f(s[i]) == 0
    decreases |s|
  {
    if s != [] {
      SumZero(f, Front(s));
      assert forall i :: 0 <= i < |s| - 1 ==> Front(s)[i] == s[i];
    }
  }

  // ------------------------------------------------------------- soundness

  function Live(g: Goroutine): nat {
    if g.place.NotStarted? || g.place.Done? then 0 else 1
  }

  function LiveReceiver(r: Receiver): nat {
    if r.Idle? || r.Gone? then 0 else 1
  }

  /** The number of goroutines begun by `Start` that have not ended. */
  function LiveGoroutines(s: System): nat {
    LiveReceiver(s.receiver) + Sum(Live, s.monitors)
  }

  /** The places a loop can return to. */
  predicate LoopHead(kind: Kind, p: Place) {
    match kind
    case Watch => p.Connecting? || (p.AtSelect? && p.stream != NilStream)
    case Check => p.Checking?
  }

  predicate ResumesAt(kind: Kind, p: Place) {
    if p.Sleeping? then LoopHead(kind, p.next) else kind.Watch? && p.AtSelect? && Typed(p.stream)
  }

  predicate PlaceSound(kind: Kind, p: Place) {
    match p
    case NotStarted => true
    case Connecting => kind.Watch?
    case AtSelect(_) => kind.Watch?
    case Receiving(stream) => kind.Watch? && Typed(stream)
    case ReceiveFailed(stream) => kind.Watch? && Typed(stream)
    case Sending(_, next) => ResumesAt(kind, next)
    case Sleeping(next) => LoopHead(kind, next)
    case Checking => kind.Check?
    case Exiting => true
    case Done => true
  }

  predicate GoroutineSound(g: Goroutine, cancelled: bool) {
    && PlaceSound(g.kind, g.place)
    && (g.place.NotStarted? ==> g.tally == Fresh)
    && (g.place.Exiting? || g.place.Done? ==> cancelled && g.tally.state == Unknown)
    && g.isMonitoring == !(g.place.NotStarted? || g.place.Exiting? || g.place.Done?)
  }

  ghost predicate Sound(c: Config, s: System) {
    && |s.monitors| == |c.kinds|
    && s.started <= |s.monitors|
    && s.waitGroup == LiveGoroutines(s)
    && (!c.outside ==> s.elsewhere == [] && !s.listening)
    && (s.receiver.Idle? ==> s.started == 0)
    && (s.cancelled ==> s.started == |s.monitors| && !s.receiver.Idle?)
    && (s.receiver.Leaving? || s.receiver.Gone? ==> s.cancelled && (!c.outside ==> !s.isReceiving))
    && (s.stopper.NotStopping? <==> !s.cancelled)
    && (s.stopper.Returned? ==> s.waitGroup == 0)
    && (forall i :: 0 <= i < |s.monitors| ==>
          && s.monitors[i].kind == c.kinds[i]
          && GoroutineSound(s.monitors[i], s.cancelled)
          && (s.monitors[i].place.NotStarted? <==> i >= s.started))
  }

  lemma MonitorStepSound(c: Config, s: System, g: Goroutine, e: Event)
    requires MonitorEnabled(c, s, g, e) && GoroutineSound(g, s.cancelled)
    ensures GoroutineSound(MonitorApply(c, g, e), s.cancelled)
    ensures MonitorApply(c, g, e).kind == g.kind
    ensures Live(g) == 1 && Live(MonitorApply(c, g, e)) == (if e.WgDone? then 0 else 1)
    ensures !MonitorApply(c, g, e).place.NotStarted?
  {
  }

  lemma NobodyLive(s: System)
    requires LiveGoroutines(s) == 0
    ensures s.receiver.Idle? || s.receiver.Gone?
    ensures forall i :: 0 <= i < |s.monitors| ==> s.monitors[i].place.NotStarted? || s.monitors[i].place.Done?
  {
    SumZero(Live, s.monitors);
    forall i | 0 <= i < |s.monitors| ensures s.monitors[i].place.NotStarted? || s.monitors[i].place.Done? {
      assert Live(s.monitors[i]) == 0;
    }
  }

  /** What a monitor's own step does to the rest of the system. */
  lemma MonitorFrame(c: Config, s: System, e: Event, i: nat)
    requires Enabled(c, s, e) && IsOf(e, i)
    ensures i < |s.monitors| && MonitorEnabled(c, s, s.monitors[i], e)
    ensures var t := Apply(c, s, e);
            && t == s.(monitors := s.monitors[i := MonitorApply(c, s.monitors[i], e)], receiver := t.receiver,
                       elsewhere := t.elsewhere, waitGroup := if e.WgDone? then s.waitGroup - 1 else s.waitGroup)
            && (t.receiver == s.receiver || (s.receiver.Selecting? && t.receiver.Handling?))
            && (t.elsewhere == s.elsewhere || s.listening)
  {
    hide MonitorApply;
  }

  lemma MonitorEventSound(c: Config, s: System, e: Event, i: nat)
    requires Enabled(c, s, e) && Sound(c, s) && IsOf(e, i)
    ensures Sound(c, Apply(c, s, e))
  {
    MonitorFrame(c, s, e, i);
    var g := s.monitors[i];
    MonitorStepSound(c, s, g, e);
    SumUpdate(Live, s.monitors, i, MonitorApply(c, g, e));
    if s.stopper.Returned? {
      NobodyLive(s);
    }
    hide Apply, Enabled, MonitorApply, MonitorEnabled, GoroutineSound;
  }

  lemma StartMonitorSound(c: Config, s: System, e: Event)
    requires Enabled(c, s, e) && Sound(c, s) && e.StartMonitor?
    ensures Sound(c, Apply(c, s, e))
  {
    SumUpdate(Live, s.monitors, e.i, Apply(c, s, e).monitors[e.i]);
    assert Live(s.monitors[e.i]) == 0;
  }

  lemma CancelSound(c: Config, s: System)
    requires Enabled(c, s, Cancel) && Sound(c, s)
    ensures Sound(c, Apply(c, s, Cancel))
  {
    hide PlaceSound;
  }

  lemma ControlEventSound(c: Config, s: System, e: Event)
    requires Enabled(c, s, e) && Sound(c, s) && !MonitorEvent(e) && !e.StartMonitor? && !e.Cancel?
    ensures Sound(c, Apply(c, s, e))
  {
    hide Absorb, GoroutineSound;
    if s.stopper.Returned? {
      NobodyLive(s);
    }
  }

  lemma StepSound(c: Config, s: System, e: Event)
    requires Enabled(c, s, e) && Sound(c, s)
    ensures Sound(c, Apply(c, s, e))
  {
    hide Sound, Apply, Enabled;
    if MonitorEvent(e) {
      MonitorEventSound(c, s, e, e.i);
    } else if e.StartMonitor? {
      StartMonitorSound(c, s, e);
    } else if e.Cancel? {
      CancelSound(c, s);
    } else {
      ControlEventSound(c, s, e);
    }
  }

  lemma InitialSound(c: Config)
    ensures Sound(c, Initial(c))
  {
    SumZero(Live, Initial(c).monitors);
  }

  lemma {:induction false} RunIsSound(c: Config, t: seq<Event>)
    requires Run(c, t)
    ensures Sound(c, StateAfter(c, t))
  {
    hide Sound, Enabled, Apply;
    if t == [] {
      InitialSound(c);
    } else {
      RunIsSound(c, Front(t));
      StepSound(c, StateAfter(c, Front(t)), Last(t));
    }
  }

  // ------------------------------------------------------------- stopping

  /** The wait group counts exactly the goroutines that `Start` began and that still live. */
  lemma WaitGroupCountsLiveGoroutines(c: Config, t: seq<Event>)
    requires Run(c, t)
    ensures StateAfter(c, t).waitGroup == LiveGoroutines(StateAfter(c, t))
  {
    hide Run, StateAfter, LiveGoroutines;
    RunIsSound(c, t);
  }

  /** What may still happen to this pod once all its own goroutines have ended: other pods'
      receivers finish with the results they have in hand, and come and go. */
  predicate AftermathOf(e: Event) {
    e.HandleOutside? || e.FlagOutside? || e.ListenOutside?
  }

  /** When `Stop` has returned, every monitor's state is unknown, none is monitoring, and no
      goroutine of this pod has a step left: nothing more is ever sent.  The handler does not
      receive either, unless other pods share it; and only what their receivers already have in
      hand can still reach the pod. */
  lemma StopIsQuiescent(c: Config, t: seq<Event>)
    requires Run(c, t) && StateAfter(c, t).stopper.Returned?
    ensures |StateAfter(c, t).monitors| == |c.kinds| && (!c.outside ==> !StateAfter(c, t).isReceiving)
    ensures forall i :: 0 <= i < |c.kinds| ==>
              StateAfter(c, t).monitors[i].place.Done? && !StateAfter(c, t).monitors[i].isMonitoring
              && StateAfter(c, t).monitors[i].tally.state == Unknown
    ensures forall e :: Enabled(c, StateAfter(c, t), e) ==> AftermathOf(e)
    ensures StateAfter(c, t).elsewhere == [] && !c.outside ==> forall e :: !Enabled(c, StateAfter(c, t), e)
  {
    hide Run, StateAfter;
    RunIsSound(c, t);
    NobodyLive(StateAfter(c, t));
  }

  // ------------------------------------------------ results after cancellation

  predicate HandsOver(e: Event, i: nat) {
    e == HandOver(i) || e == HandOverOutside(i)
  }

  function LateStep(n: nat, s: System, e: Event, i: nat): nat {
    if s.cancelled && HandsOver(e, i) then n + 1 else n
  }

  /** How many results monitor `i` has handed over since the cancellation. */
  ghost function LateResults(c: Config, t: seq<Event>, i: nat): nat
    requires Run(c, t)
  {
    if t == [] then 0 else LateStep(LateResults(c, Front(t), i), StateAfter(c, Front(t)), Last(t), i)
  }

  /** Could this watch loop still hand over a result although the context is cancelled? */
  function MayStillSend(p: Place): nat {
    if p.Receiving? || p.Sending? then 1 else 0
  }

  ghost predicate LateSound(s: System, i: nat, n: nat) {
    i < |s.monitors| && s.monitors[i].kind.Watch? ==>
      if s.cancelled then n + MayStillSend(s.monitors[i].place) <= 1 else n == 0
  }

  /** Under a cancelled context the right to send is used up by sending and never regained. */
  lemma LateMonitorStep(c: Config, s: System, g: Goroutine, e: Event)
    requires MonitorEnabled(c, s, g, e) && GoroutineSound(g, s.cancelled) && g.kind.Watch? && s.cancelled
    ensures MayStillSend(MonitorApply(c, g, e).place) + (if e.HandOver? || e.HandOverOutside? then 1 else 0)
            <= MayStillSend(g.place)
  {
  }

  lemma OtherPlacesKept(c: Config, s: System, e: Event, i: nat)
    requires Enabled(c, s, e) && Sound(c, s) && s.cancelled && !IsOf(e, i) && i < |s.monitors|
    ensures i < |Apply(c, s, e).monitors| && Apply(c, s, e).monitors[i] == s.monitors[i]
    ensures Apply(c, s, e).cancelled
  {
  }

  lemma CancelledOnlyByCancel(c: Config, s: System, e: Event)
    requires Enabled(c, s, e)
    ensures Apply(c, s, e).cancelled <==> s.cancelled || e.Cancel?
    ensures e.Cancel? ==> Apply(c, s, e).monitors == s.monitors
  {
  }

  lemma LateSoundStep(c: Config, s: System, e: Event, i: nat, n: nat)
    requires Enabled(c, s, e) && Sound(c, s) && i < |s.monitors| && s.monitors[i].kind.Watch? && LateSound(s, i, n)
    ensures LateSound(Apply(c, s, e), i, LateStep(n, s, e, i))
  {
    CancelledOnlyByCancel(c, s, e);
    if s.cancelled {
      if IsOf(e, i) {
        var g := s.monitors[i];
        LateMonitorStep(c, s, g, e);
        hide MonitorApply, MonitorEnabled, Sound;
        assert Apply(c, s, e).monitors[i] == MonitorApply(c, g, e);
      } else {
        OtherPlacesKept(c, s, e, i);
      }
    }
  }

  /** After cancellation a watch monitor hands over at most one more result. */
  lemma {:induction false} AtMostOneLateResult(c: Config, t: seq<Event>, i: nat)
    requires Run(c, t) && i < |c.kinds| && c.kinds[i].Watch?
    ensures LateSound(StateAfter(c, t), i, LateResults(c, t, i))
    ensures LateResults(c, t, i) <= 1
  {
    RunIsSound(c, t);
    KindsKept(c, StateAfter(c, t), i);
    hide Sound, Enabled, Apply, LateStep;
    if t == [] {
      assert !StateAfter(c, t).cancelled;
    } else {
      var t0 := Front(t);
      AtMostOneLateResult(c, t0, i);
      RunIsSound(c, t0);
      KindsKept(c, StateAfter(c, t0), i);
      LateSoundStep(c, StateAfter(c, t0), Last(t), i, LateResults(c, t0, i));
    }
  }

  lemma KindsKept(c: Config, s: System, i: nat)
    requires Sound(c, s) && i < |c.kinds|
    ensures i < |s.monitors| && s.monitors[i].kind == c.kinds[i]
  {
  }

  lemma SameNumber(c: Config, s: System)
    requires Sound(c, s)
    ensures |s.monitors| == |c.kinds|
  {
  }
}
