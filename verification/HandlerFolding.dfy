/** What the check handler makes of the results of a pod's monitors. */
module HandlerFolding {
  import opened Common
  import opened Pods
  import opened HealthMonitor
  import opened MonitorProtocol
  import opened MonitorTheorems

  function InHand(s: System, i: nat): seq<CheckResult> {
    if s.receiver.Handling? && s.receiver.result.monitor == i then [s.receiver.result] else []
  }

  function AtSender(s: System, i: nat): seq<CheckResult> {
    if i < |s.monitors| && s.monitors[i].place.Sending? then [s.monitors[i].place.result] else []
  }

  function Flags(results: seq<CheckResult>): seq<bool> {
    seq(|results|, k requires 0 <= k < |results| => results[k].failed)
  }

  predicate Ended(p: Place) {
    p.Exiting? || p.Done?
  }

  /** The account of one monitor: nothing it produced is lost or reordered on the way, and
      until it ends, its counter and state come from what it produced. */
  ghost predicate Accounted(c: Config, s: System, i: nat, produced: seq<CheckResult>, handled: seq<CheckResult>) {
    i < |s.monitors| ==>
      && (s.monitors[i].place.Sending? ==> s.monitors[i].place.result.monitor == i)
      && s.monitors[i].tally.failures == CountAll(Flags(produced), c.threshold).failures
      && (!Ended(s.monitors[i].place) ==>
            && s.monitors[i].tally == CountAll(Flags(produced), c.threshold)
            && (!c.outside ==> produced == Of(handled, i) + InHand(s, i) + AtSender(s, i)))
      && (Ended(s.monitors[i].place) && s.monitors[i].kind.Watch? && !c.outside ==>
            produced == Of(handled, i) + InHand(s, i))
  }

  lemma OfExtend(handled: seq<CheckResult>, r: CheckResult, i: nat)
    ensures Of(handled + [r], i) == if r.monitor == i then Of(handled, i) + [r] else Of(handled, i)
  {
    FrontAppend(handled, r);
  }

  lemma FlagsExtend(results: seq<CheckResult>, r: CheckResult, c: Config)
    ensures CountAll(Flags(results + [r]), c.threshold) ==
        Count(CountAll(Flags(results), c.threshold), r.failed, c.threshold)
  {
    assert Flags(results + [r]) == Flags(results) + [r.failed];
    FrontAppend(Flags(results), r.failed);
  }

  lemma TallyOwnStep(c: Config, s: System, e: Event, i: nat, produced: seq<CheckResult>)
    requires Enabled(c, s, e) && Sound(c, s) && IsOf(e, i)
    requires s.monitors[i].tally.failures == CountAll(Flags(produced), c.threshold).failures
    requires !Ended(s.monitors[i].place) ==> s.monitors[i].tally == CountAll(Flags(produced), c.threshold)
    requires s.monitors[i].place.Sending? ==> s.monitors[i].place.result.monitor == i
    ensures var g := Apply(c, s, e).monitors[i];
            && (g.place.Sending? ==> g.place.result.monitor == i)
            && g.tally.failures == CountAll(Flags(ProducedStep(produced, e, i)), c.threshold).failures
            && (!Ended(g.place) ==> g.tally == CountAll(Flags(ProducedStep(produced, e, i)), c.threshold))
  {
    assert GoroutineSound(s.monitors[i], s.cancelled);
    hide CountAll, Sound, Flags, Count;
    if e.Produce? {
      FlagsExtend(produced, e.result, c);
    }
  }

  /** Where a monitor's own step moves its results. */
  lemma OwnStepMoves(c: Config, s: System, e: Event, i: nat)
    requires Enabled(c, s, e) && Sound(c, s) && IsOf(e, i) && !c.outside
    requires s.monitors[i].place.Sending? ==> s.monitors[i].place.result.monitor == i
    ensures var t := Apply(c, s, e);
            && t.monitors[i].kind == s.monitors[i].kind
            && (Ended(s.monitors[i].place) ==> Ended(t.monitors[i].place))
            && if e.Produce? then AtSender(s, i) == [] && AtSender(t, i) == [e.result] && InHand(t, i) == InHand(s, i)
               else if e.HandOver? then InHand(s, i) == [] && InHand(t, i) == AtSender(s, i) && AtSender(t, i) == []
               else && InHand(t, i) == InHand(s, i)
                    && (AtSender(t, i) == AtSender(s, i) || (Ended(t.monitors[i].place) && s.monitors[i].kind.Check?))
  {
    var g := s.monitors[i];
    assert GoroutineSound(g, s.cancelled);
    PlaceMoves(c, s, g, e);
    hide Sound, Count, GoroutineSound, MonitorEnabled, MonitorApply, Ended;
    assert Apply(c, s, e).monitors[i] == MonitorApply(c, g, e);
  }

  lemma PlaceMoves(c: Config, s: System, g: Goroutine, e: Event)
    requires MonitorEnabled(c, s, g, e) && GoroutineSound(g, s.cancelled)
    ensures var g' := MonitorApply(c, g, e);
            && g'.kind == g.kind && (Ended(g.place) ==> Ended(g'.place))
            && (e.Produce? ==> !g.place.Sending? && g'.place.Sending? && g'.place.result == e.result)
            && (e.HandOver? ==> g.place.Sending? && !g'.place.Sending? && s.receiver.Selecting?)
            && (e.HandOverOutside? ==> g.place.Sending? && !g'.place.Sending? && s.listening)
            && (!e.Produce? && !e.HandOver? && !e.HandOverOutside? ==>
                  if g.place.Sending? then g'.place == g.place || (Ended(g'.place) && g.kind.Check?)
                  else !g'.place.Sending?)
  {
    hide Count;
  }

  lemma OrderOwnStep(c: Config, s: System, e: Event, i: nat, produced: seq<CheckResult>, handled: seq<CheckResult>)
    requires Enabled(c, s, e) && Sound(c, s) && IsOf(e, i) && !c.outside && Accounted(c, s, i, produced, handled)
    ensures var t := Apply(c, s, e);
            var p := ProducedStep(produced, e, i);
            && (!Ended(t.monitors[i].place) ==> p == Of(handled, i) + InHand(t, i) + AtSender(t, i))
            && (Ended(t.monitors[i].place) && t.monitors[i].kind.Watch? ==> p == Of(handled, i) + InHand(t, i))
  {
    OwnStepMoves(c, s, e, i);
    EndedSendsNothing(Apply(c, s, e), i);
    hide CountAll, Of, Flags, Sound, Apply, Enabled, InHand, AtSender, Ended;
  }

  lemma EndedSendsNothing(s: System, i: nat)
    ensures i < |s.monitors| && Ended(s.monitors[i].place) ==> AtSender(s, i) == []
  {
  }

  lemma AccountedOwnStep(c: Config, s: System, e: Event, i: nat, produced: seq<CheckResult>, handled: seq<CheckResult>)
    requires Enabled(c, s, e) && Sound(c, s) && IsOf(e, i) && Accounted(c, s, i, produced, handled)
    ensures Accounted(c, Apply(c, s, e), i, ProducedStep(produced, e, i), handled)
  {
    TallyOwnStep(c, s, e, i, produced);
    if !c.outside {
      OrderOwnStep(c, s, e, i, produced, handled);
    }
    hide Apply, CountAll, Of, Flags, Sound, InHand, AtSender;
  }

  lemma HandleMoves(c: Config, s: System, i: nat, handled: seq<CheckResult>)
    requires Enabled(c, s, Handle) && s.receiver.result.monitor < |s.monitors|
    ensures var t := Apply(c, s, Handle);
            && t.monitors == s.monitors && InHand(t, i) == [] && AtSender(t, i) == AtSender(s, i)
            && HandledStep(handled, s, Handle) == handled + [s.receiver.result]
            && Of(handled + [s.receiver.result], i) == Of(handled, i) + InHand(s, i)
  {
    hide Of, Absorb;
    OfExtend(handled, s.receiver.result, i);
  }

  lemma HandleOfOther(c: Config, s: System, i: nat, handled: seq<CheckResult>)
    requires Enabled(c, s, Handle) && s.receiver.result.monitor >= |s.monitors|
    ensures var t := Apply(c, s, Handle);
            && t.monitors == s.monitors && InHand(t, i) == [] && AtSender(t, i) == AtSender(s, i)
            && HandledStep(handled, s, Handle) == handled && (i < |s.monitors| ==> InHand(s, i) == [])
  {
  }

  lemma AccountedHandle(c: Config, s: System, i: nat, produced: seq<CheckResult>, handled: seq<CheckResult>)
    requires Enabled(c, s, Handle) && Accounted(c, s, i, produced, handled)
    ensures Accounted(c, Apply(c, s, Handle), i, produced, HandledStep(handled, s, Handle))
  {
    if s.receiver.result.monitor < |s.monitors| {
      HandleMoves(c, s, i, handled);
    } else {
      HandleOfOther(c, s, i, handled);
    }
    hide CountAll, Of, Flags, Apply, InHand, AtSender, HandledStep;
    var u := Of(handled, i) + InHand(s, i);
    assert u + [] == u && u + [] + AtSender(s, i) == u + AtSender(s, i);
  }

  /** The steps of others leave a monitor's results where they are. */
  ghost predicate Unmoved(s: System, t: System, i: nat)
    requires i < |s.monitors| == |t.monitors|
  {
    && t.monitors[i].kind == s.monitors[i].kind && t.monitors[i].tally == s.monitors[i].tally
    && (Ended(t.monitors[i].place) <==> Ended(s.monitors[i].place))
    && InHand(t, i) == InHand(s, i) && AtSender(t, i) == AtSender(s, i)
  }

  lemma OtherMonitorMoves(c: Config, s: System, e: Event, i: nat)
    requires Enabled(c, s, e) && MonitorEvent(e) && e.i != i && i < |s.monitors|
    requires s.monitors[e.i].place.Sending? ==> s.monitors[e.i].place.result.monitor == e.i
    ensures |Apply(c, s, e).monitors| == |s.monitors| && Unmoved(s, Apply(c, s, e), i)
  {
    HandOverMeetsSelecting(c, s, s.monitors[e.i], e);
    hide MonitorApply, Ended, MonitorEnabled, Absorbing;
  }

  lemma HandOverMeetsSelecting(c: Config, s: System, g: Goroutine, e: Event)
    requires MonitorEnabled(c, s, g, e)
    ensures e.HandOver? ==> g.place.Sending? && s.receiver.Selecting?
  {
  }

  lemma ControlMoves(c: Config, s: System, e: Event, i: nat)
    requires Enabled(c, s, e) && !MonitorEvent(e) && !e.Handle? && !e.HandleOutside? && i < |s.monitors|
    ensures |Apply(c, s, e).monitors| == |s.monitors| && Unmoved(s, Apply(c, s, e), i)
  {
  }

  lemma AccountedOtherStep(c: Config, s: System, e: Event, i: nat, produced: seq<CheckResult>,
                           handled: seq<CheckResult>)
    requires Enabled(c, s, e) && Sound(c, s) && !IsOf(e, i) && !e.Handle? && !e.HandleOutside?
    requires forall k :: 0 <= k < |s.monitors| && s.monitors[k].place.Sending? ==>
        s.monitors[k].place.result.monitor == k
    requires Accounted(c, s, i, produced, handled)
    ensures Accounted(c, Apply(c, s, e), i, produced, handled)
  {
    if i < |s.monitors| {
      if MonitorEvent(e) {
        OtherMonitorMoves(c, s, e, i);
      } else {
        ControlMoves(c, s, e, i);
      }
      SenderIsOwn(s, i);
      SenderIsOwn(Apply(c, s, e), i);
    } else {
      SameCount(c, s, e);
    }
    hide CountAll, Of, Flags, Sound, Apply, Enabled, InHand, AtSender, Ended;
  }

  lemma SameCount(c: Config, s: System, e: Event)
    requires Enabled(c, s, e)
    ensures |Apply(c, s, e).monitors| == |s.monitors|
  {
  }

  lemma SenderIsOwn(s: System, i: nat)
    ensures i < |s.monitors| ==>
        AtSender(s, i) == if s.monitors[i].place.Sending? then [s.monitors[i].place.result] else []
  {
  }

  /** With other receivers the order is not accounted for. */
  lemma AccountedHandleOutside(c: Config, s: System, e: Event, i: nat, produced: seq<CheckResult>,
                               handled: seq<CheckResult>)
    requires Enabled(c, s, e) && Sound(c, s) && e.HandleOutside? && Accounted(c, s, i, produced, handled)
    ensures Accounted(c, Apply(c, s, e), i, produced, HandledStep(handled, s, e))
  {
    hide CountAll, Of, Flags, Absorb;
    assert c.outside;
  }

  ghost predicate AllAccounted(c: Config, t: seq<Event>)
    requires Run(c, t)
  {
    forall i: nat :: Accounted(c, StateAfter(c, t), i, Produced(t, i), HandledResults(c, t))
  }

  lemma SendersAreAccounted(c: Config, t0: seq<Event>, s: System)
    requires Run(c, t0) && s == StateAfter(c, t0) && AllAccounted(c, t0)
    ensures forall k :: 0 <= k < |s.monitors| && s.monitors[k].place.Sending? ==>
              s.monitors[k].place.result.monitor == k
  {
    hide Run, StateAfter, Produced, HandledResults, Of, CountAll, Flags;
    forall k: nat | k < |s.monitors| && s.monitors[k].place.Sending? ensures s.monitors[k].place.result.monitor == k {
      assert Accounted(c, s, k, Produced(t0, k), HandledResults(c, t0));
    }
  }

  lemma AccountedStep(c: Config, t0: seq<Event>, e: Event, s: System, i: nat, produced: seq<CheckResult>,
                      handled: seq<CheckResult>)
    requires Run(c, t0) && s == StateAfter(c, t0) && AllAccounted(c, t0)
    requires Enabled(c, s, e) && Sound(c, s) && produced == Produced(t0, i) && handled == HandledResults(c, t0)
    ensures Accounted(c, Apply(c, s, e), i, ProducedStep(produced, e, i), HandledStep(handled, s, e))
  {
    hide Run, StateAfter, Produced, HandledResults, Of, CountAll, Flags, Accounted, Enabled, Apply, Sound;
    assert Accounted(c, s, i, produced, handled);
    SendersAreAccounted(c, t0, s);
    if IsOf(e, i) {
      AccountedOwnStep(c, s, e, i, produced, handled);
    } else if e.Handle? {
      AccountedHandle(c, s, i, produced, handled);
    } else if e.HandleOutside? {
      AccountedHandleOutside(c, s, e, i, produced, handled);
    } else {
      AccountedOtherStep(c, s, e, i, produced, handled);
    }
  }

  lemma {:induction false} EveryResultIsAccounted(c: Config, t: seq<Event>)
    requires Run(c, t)
    ensures AllAccounted(c, t)
  {
    hide Enabled, Apply, Sound, Accounted, ProducedStep, HandledStep;
    if t == [] {
      forall i: nat ensures Accounted(c, StateAfter(c, t), i, Produced(t, i), HandledResults(c, t)) {
        NothingYet(c, i);
      }
    } else {
      var t0 := Front(t);
      EveryResultIsAccounted(c, t0);
      RunIsSound(c, t0);
      forall i: nat ensures Accounted(c, StateAfter(c, t), i, Produced(t, i), HandledResults(c, t)) {
        AccountedStep(c, t0, Last(t), StateAfter(c, t0), i, Produced(t0, i), HandledResults(c, t0));
      }
    }
  }

  lemma NothingYet(c: Config, i: nat)
    ensures Accounted(c, Initial(c), i, [], [])
  {
    assert Flags([]) == [];
  }

  /** With one receiver on the channel, and as long as the monitor runs, what has been handled
      of its results is what it produced, in the order it produced them, except for at most one
      result in the receiver's hand and at most one still at the sender. */
  lemma ResultsAreHandledInOrder(c: Config, t: seq<Event>, i: nat)
    requires Run(c, t) && !c.outside && i < |c.kinds| && |StateAfter(c, t).monitors| == |c.kinds|
    requires c.kinds[i].Watch? || !Ended(StateAfter(c, t).monitors[i].place)
    ensures Of(HandledResults(c, t), i) <= Produced(t, i)
    ensures |Produced(t, i)| <= |Of(HandledResults(c, t), i)| + 2
    ensures Produced(t, i) ==
            Of(HandledResults(c, t), i) + InHand(StateAfter(c, t), i) + AtSender(StateAfter(c, t), i)
  {
    hide Run, StateAfter, Produced, HandledResults, Of, CountAll, Flags;
    EveryResultIsAccounted(c, t);
    RunIsSound(c, t);
    KindsKept(c, StateAfter(c, t), i);
    assert Accounted(c, StateAfter(c, t), i, Produced(t, i), HandledResults(c, t));
    assert Of(HandledResults(c, t), i) + InHand(StateAfter(c, t), i) + [] ==
        Of(HandledResults(c, t), i) + InHand(StateAfter(c, t), i);
  }

  // ------------------------------------------------ any number of receivers

  /** How often a result occurs. */
  function Times(results: seq<CheckResult>, r: CheckResult): nat {
    if results == [] then 0 else Times(Front(results), r) + if Last(results) == r then 1 else 0
  }

  lemma TimesExtend(results: seq<CheckResult>, x: CheckResult, r: CheckResult)
    ensures Times(results + [x], r) == Times(results, r) + if x == r then 1 else 0
  {
    FrontAppend(results, x);
  }

  lemma {:induction false} TimesRemove(results: seq<CheckResult>, k: nat, r: CheckResult)
    requires k < |results|
    ensures Times(results, r) == Times(results[..k] + results[k + 1..], r) + if results[k] == r then 1 else 0
    decreases |results|
  {
    var rest := results[..k] + results[k + 1..];
    if k == |results| - 1 {
      assert rest == Front(results);
    } else {
      var front := Front(results);
      TimesRemove(front, k, r);
      assert Front(rest) == front[..k] + front[k + 1..] && Last(rest) == Last(results);
    }
  }

  function HandTimes(receiver: Receiver, r: CheckResult): nat {
    if receiver.Handling? && receiver.result == r then 1 else 0
  }

  function SenderTimes(g: Goroutine, r: CheckResult): nat {
    if g.place.Sending? && g.place.result == r then 1 else 0
  }

  /** A result its monitor produced `p` times and that was handled `h` times: the other times it is
      in the hand of the pod's receiver, in that of another pod's, or at its sender. */
  predicate Placed(s: System, r: CheckResult, p: nat, h: nat) {
    r.monitor < |s.monitors| && (s.monitors[r.monitor].kind.Watch? || !Ended(s.monitors[r.monitor].place)) ==>
      p == h + HandTimes(s.receiver, r) + Times(s.elsewhere, r) + SenderTimes(s.monitors[r.monitor], r)
  }

  function ProducedNow(e: Event, r: CheckResult): nat {
    if e.Produce? && e.result == r then 1 else 0
  }

  function HandledNow(s: System, e: Event, r: CheckResult): nat {
    if e.Handle? then HandTimes(s.receiver, r)
    else if e.HandleOutside? && e.k < |s.elsewhere| && s.elsewhere[e.k] == r then 1
    else 0
  }

  lemma PlacedOwnStep(c: Config, s: System, e: Event, r: CheckResult, p: nat, h: nat)
    requires Enabled(c, s, e) && Sound(c, s) && IsOf(e, r.monitor) && Placed(s, r, p, h)
    ensures Placed(Apply(c, s, e), r, p + ProducedNow(e, r), h)
  {
    hide Times, Count;
    var g := s.monitors[r.monitor];
    assert GoroutineSound(g, s.cancelled);
    PlaceMoves(c, s, g, e);
    hide Sound, GoroutineSound, MonitorApply, MonitorEnabled, Ended;
    if e.HandOverOutside? {
      TimesExtend(s.elsewhere, g.place.result, r);
    }
    assert s.elsewhere + [] == s.elsewhere;
  }

  lemma PlacedHandle(c: Config, s: System, e: Event, r: CheckResult, p: nat, h: nat)
    requires Enabled(c, s, e) && (e.Handle? || e.HandleOutside?) && Placed(s, r, p, h)
    ensures Placed(Apply(c, s, e), r, p, h + HandledNow(s, e, r))
  {
    hide Times, Absorb;
    if e.HandleOutside? {
      TimesRemove(s.elsewhere, e.k, r);
    }
  }

  lemma PlacedOtherMonitor(c: Config, s: System, e: Event, r: CheckResult, p: nat, h: nat)
    requires Enabled(c, s, e) && MonitorEvent(e) && e.i != r.monitor && Placed(s, r, p, h)
    requires e.i < |s.monitors| && s.monitors[e.i].place.Sending? ==> s.monitors[e.i].place.result.monitor == e.i
    ensures Placed(Apply(c, s, e), r, p + ProducedNow(e, r), h)
  {
    hide Times, Count;
    if e.HandOverOutside? {
      TimesExtend(s.elsewhere, s.monitors[e.i].place.result, r);
    }
    assert s.elsewhere + [] == s.elsewhere;
  }

  lemma PlacedControl(c: Config, s: System, e: Event, r: CheckResult, p: nat, h: nat)
    requires Enabled(c, s, e) && !MonitorEvent(e) && !e.Handle? && !e.HandleOutside? && Placed(s, r, p, h)
    ensures Placed(Apply(c, s, e), r, p, h)
  {
    hide Times;
  }

  lemma PlacedStep(c: Config, s: System, e: Event, r: CheckResult, p: nat, h: nat)
    requires Enabled(c, s, e) && Sound(c, s) && Placed(s, r, p, h)
    requires forall k :: 0 <= k < |s.monitors| && s.monitors[k].place.Sending? ==>
        s.monitors[k].place.result.monitor == k
    ensures Placed(Apply(c, s, e), r, p + ProducedNow(e, r), h + HandledNow(s, e, r))
  {
    hide Sound, Apply, Enabled, Placed;
    if IsOf(e, r.monitor) {
      PlacedOwnStep(c, s, e, r, p, h);
    } else if MonitorEvent(e) {
      PlacedOtherMonitor(c, s, e, r, p, h);
    } else if e.Handle? || e.HandleOutside? {
      PlacedHandle(c, s, e, r, p, h);
    } else {
      PlacedControl(c, s, e, r, p, h);
    }
  }

  lemma NothingPlacedYet(c: Config, r: CheckResult)
    ensures Placed(Initial(c), r, 0, 0)
  {
  }

  lemma SendersSendTheirOwn(c: Config, t: seq<Event>)
    requires Run(c, t)
    ensures forall k :: 0 <= k < |StateAfter(c, t).monitors| && StateAfter(c, t).monitors[k].place.Sending? ==>
              StateAfter(c, t).monitors[k].place.result.monitor == k
  {
    hide Run, StateAfter, Produced, HandledResults;
    EveryResultIsAccounted(c, t);
    forall k: nat | k < |StateAfter(c, t).monitors| && StateAfter(c, t).monitors[k].place.Sending?
      ensures StateAfter(c, t).monitors[k].place.result.monitor == k
    {
      assert Accounted(c, StateAfter(c, t), k, Produced(t, k), HandledResults(c, t));
    }
  }

  lemma CountProduced(produced: seq<CheckResult>, e: Event, r: CheckResult, c: Config, s: System)
    requires Enabled(c, s, e)
    ensures Times(ProducedStep(produced, e, r.monitor), r) == Times(produced, r) + ProducedNow(e, r)
  {
    if e.Produce? {
      TimesExtend(produced, e.result, r);
    }
  }

  lemma CountHandled(handled: seq<CheckResult>, e: Event, r: CheckResult, s: System)
    requires r.monitor < |s.monitors|
    ensures Times(HandledStep(handled, s, e), r) == Times(handled, r) + HandledNow(s, e, r)
  {
    if e.Handle? && s.receiver.Handling? {
      TimesExtend(handled, s.receiver.result, r);
    } else if e.HandleOutside? && e.k < |s.elsewhere| {
      TimesExtend(handled, s.elsewhere[e.k], r);
    }
  }

  /** However many receivers share the channel, nothing a watch monitor (or a running check
      monitor) produces is lost or handled twice: each result has been handled as often as it was
      produced, but for those in the hand of the pod's own receiver or of another's, or still at
      their sender. */
  lemma {:induction false} EveryResultIsHandledOnce(c: Config, t: seq<Event>, r: CheckResult)
    requires Run(c, t) && r.monitor < |c.kinds|
    ensures |StateAfter(c, t).monitors| == |c.kinds|
    ensures Placed(StateAfter(c, t), r, Times(Produced(t, r.monitor), r), Times(HandledResults(c, t), r))
  {
    RunIsSound(c, t);
    KindsKept(c, StateAfter(c, t), r.monitor);
    SameNumber(c, StateAfter(c, t));
    hide Enabled, Apply, Sound, Placed, Times, ProducedStep, HandledStep, ProducedNow, HandledNow;
    if t == [] {
      NothingPlacedYet(c, r);
      assert Times([], r) == 0 by { NoTimes(r); }
    } else {
      var t0, e := Front(t), Last(t);
      EveryResultIsHandledOnce(c, t0, r);
      RunIsSound(c, t0);
      SendersSendTheirOwn(c, t0);
      PlacedStep(c, StateAfter(c, t0), e, r, Times(Produced(t0, r.monitor), r), Times(HandledResults(c, t0), r));
      CountProduced(Produced(t0, r.monitor), e, r, c, StateAfter(c, t0));
      CountHandled(HandledResults(c, t0), e, r, StateAfter(c, t0));
    }
  }

  lemma NoTimes(r: CheckResult)
    ensures Times([], r) == 0
  {
  }

  /** A monitor's failure count is that of its result history, even after its end, and until then
      so is its state. */
  lemma TallyFollowsResults(c: Config, t: seq<Event>, i: nat)
    requires Run(c, t) && i < |StateAfter(c, t).monitors|
    ensures var tally := StateAfter(c, t).monitors[i].tally;
            var h := Flags(Produced(t, i));
            && IsTrailingRun(h, tally.failures)
            && (!Ended(StateAfter(c, t).monitors[i].place) ==>
                  && (tally.state == Unhealthy <==> tally.failures >= Effective(c.threshold))
                  && (tally.state == Healthy <==> tally.failures < Effective(c.threshold) && false in h))
  {
    hide Run, StateAfter, Produced, HandledResults, Of, CountAll, Flags, IsTrailingRun;
    EveryResultIsAccounted(c, t);
    assert Accounted(c, StateAfter(c, t), i, Produced(t, i), HandledResults(c, t));
    TallyIsFunctionOfHistory(Flags(Produced(t, i)), c.threshold);
  }

  lemma FoldExtend(status: PodStatus, handled: seq<CheckResult>, r: CheckResult)
    ensures AbsorbAll(status, handled + [r]) == Absorb(AbsorbAll(status, handled), r.data)
    ensures Notifications(status, handled + [r]) ==
        Notifications(status, handled) +
        if CarriesStatus(r.data) then [Absorb(AbsorbAll(status, handled), r.data)] else []
  {
    FrontAppend(handled, r);
  }

  lemma StatusStep(c: Config, s: System, e: Event, handled: seq<CheckResult>)
    requires Enabled(c, s, e)
    requires s.status == AbsorbAll(c.status, handled) && s.notified == Notifications(c.status, handled)
    ensures Apply(c, s, e).status == AbsorbAll(c.status, HandledStep(handled, s, e))
    ensures Apply(c, s, e).notified == Notifications(c.status, HandledStep(handled, s, e))
  {
    hide Absorb, MonitorEnabled, MonitorApply, AbsorbAll, Notifications, CarriesStatus;
    if e.Handle? {
      FoldExtend(c.status, handled, s.receiver.result);
    } else if e.HandleOutside? {
      FoldExtend(c.status, handled, s.elsewhere[e.k]);
    }
  }

  /** However many receivers share the channel, the pod's status and the notifications are folds
      over all the results of the pod handled so far, in the order of their handling. */
  lemma {:induction false} StatusIsFoldOfHandled(c: Config, t: seq<Event>)
    requires Run(c, t)
    ensures StateAfter(c, t).status == AbsorbAll(c.status, HandledResults(c, t))
    ensures StateAfter(c, t).notified == Notifications(c.status, HandledResults(c, t))
  {
    hide Enabled, Apply, HandledStep;
    if t != [] {
      StatusIsFoldOfHandled(c, Front(t));
      StatusStep(c, StateAfter(c, Front(t)), Last(t), HandledResults(c, Front(t)));
    }
  }

  /** The statuses reported by a sequence of results, in order. */
  function Reports(results: seq<CheckResult>): seq<PodStatus> {
    if results == [] then []
    else
      match Last(results).data
      case StatusData(Some(reported)) => Reports(Front(results)) + [reported]
      case _ => Reports(Front(results))
  }

  /** The notifier is called once for each report, in order, with the reported status under the
      pod's own addresses. */
  lemma {:induction false} NotifiedOncePerReport(status: PodStatus, results: seq<CheckResult>)
    ensures var notified := Notifications(status, results);
            var reports := Reports(results);
            && |notified| == |reports|
            && forall k :: 0 <= k < |reports| ==>
                 notified[k] == reports[k].(podIP := status.podIP, podIPs := status.podIPs, hostIP := status.hostIP)
  {
    if results != [] {
      NotifiedOncePerReport(status, Front(results));
      LastReportWins(status, results);
      if CarriesStatus(Last(results).data) {
        assert IsLastReport(results, |results| - 1);
      }
    }
  }

  /** Under every interleaving and with any number of receivers: the pod keeps the addresses it had
      when monitoring started, its status is otherwise the last one reported among the handled
      results, and a set notifier has been called exactly once, in order, for each of those that
      carried a status, with that status. */
  lemma PodShowsLastReport(c: Config, t: seq<Event>)
    requires Run(c, t)
    ensures var s := StateAfter(c, t);
            var handled := HandledResults(c, t);
            && s.status.podIP == c.status.podIP && s.status.podIPs == c.status.podIPs
            && s.status.hostIP == c.status.hostIP
            && (forall k :: 0 <= k < |handled| && IsLastReport(handled, k) ==>
                  match handled[k].data
                  case StatusData(Some(reported)) =>
                    && s.status.phase == reported.phase && s.status.reason == reported.reason
                    && s.status.containers == reported.containers
                  case _ => false)
            && ((forall k :: 0 <= k < |handled| ==> !CarriesStatus(handled[k].data)) ==> s.status == c.status)
            && |s.notified| == |Reports(handled)|
            && forall k :: 0 <= k < |s.notified| ==>
                 s.notified[k] ==
                 Reports(handled)[k].(podIP := c.status.podIP, podIPs := c.status.podIPs, hostIP := c.status.hostIP)
  {
    hide Run, StateAfter, HandledResults, AbsorbAll, Notifications, Reports;
    StatusIsFoldOfHandled(c, t);
    LastReportWins(c.status, HandledResults(c, t));
    NotifiedOncePerReport(c.status, HandledResults(c, t));
  }
}
