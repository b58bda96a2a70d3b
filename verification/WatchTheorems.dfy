/** What the `Watch` and `Check` callers of the health service may rely on, over every
    interleaving of setters, shutdowns and watch calls. */
module WatchTheorems {
  import opened Common
  import opened WatchProtocol

  lemma CallKnown(t: seq<Event>, w: WatchId)
    requires Run(t)
    ensures MutexSound(StateAfter(t)) && RegistryExact(StateAfter(t)) && ShutdownSound(StateAfter(t))
    ensures if w in StateAfter(t).watchers
            then CallSound(StateAfter(t), w, WatchedService(t, w), Sent(t, w), History(t, w))
            else WatchedService(t, w) == None && Sent(t, w) == []
  {
    hide Enabled, Apply, CallSound, RegistryExact, MutexSound, ShutdownSound, WatchedService, Sent, History, Run,
      StateAfter;
    RunIsSound(t);
  }

  /** Whenever the mutex is free, every registered call has, or is about to find in its slot,
      the status its service has now. */
  lemma ViewAgreesWithStatusMap(t: seq<Event>, service: Service, w: WatchId)
    requires Run(t) && StateAfter(t).mutex.Free?
    requires w in Registered(StateAfter(t).updates, service)
    ensures w in StateAfter(t).watchers
    ensures StateAfter(t).watchers[w].View() == Some(Current(StateAfter(t).statusMap, service))
    ensures service in StateAfter(t).statusMap ==>
              StateAfter(t).watchers[w].View() == Some(StateAfter(t).statusMap[service])
    ensures service !in StateAfter(t).statusMap ==> StateAfter(t).watchers[w].View() == Some(SERVICE_UNKNOWN)
  {
    RunIsSound(t);
    CallKnown(t, w);
  }

  /** The messages of a stream are some of the statuses its service went through since the
      call registered, in order, never the same one twice in a row. */
  lemma StreamIsOrderedAndChanging(t: seq<Event>, w: WatchId) returns (at: seq<nat>)
    requires Run(t)
    ensures Subsequence(Sent(t, w), History(t, w)) && NoConsecutiveRepeat(Sent(t, w))
    ensures |at| == |Sent(t, w)|
    ensures forall i :: 0 <= i < |at| ==> at[i] < |History(t, w)| && History(t, w)[at[i]] == Sent(t, w)[i]
    ensures forall i, j :: 0 <= i < j < |at| ==> at[i] < at[j]
    ensures forall i :: 0 < i < |Sent(t, w)| ==> Sent(t, w)[i] != Sent(t, w)[i - 1]
  {
    hide Run, StateAfter, WatchedService, Sent, History, RegistryExact, MutexSound, ShutdownSound, WatcherSound,
      Subsequence, NoConsecutiveRepeat;
    CallKnown(t, w);
    var s := StateAfter(t);
    if w in s.watchers {
      DeliveredIsOrdered(s.watchers[w], Sent(t, w), History(t, w), Current(s.statusMap, s.watchers[w].service),
                         Owed(s, w), Drained(s, w));
    } else {
      NothingIsOrdered(History(t, w));
    }
    at := Positions(Sent(t, w), History(t, w));
    NeighboursDiffer(Sent(t, w));
  }

  lemma NeighboursDiffer(messages: seq<Status>)
    requires NoConsecutiveRepeat(messages)
    ensures forall i :: 0 < i < |messages| ==> messages[i] != messages[i - 1]
  {
  }

  lemma NothingIsOrdered(h: seq<Status>)
    ensures Subsequence([], h) && NoConsecutiveRepeat<Status>([])
  {
  }

  lemma DeliveredIsOrdered(x: Watcher, sent: seq<Status>, h: seq<Status>, status: Status, owed: bool, drained: bool)
    requires WatcherSound(x, sent, h, status, owed, drained)
    ensures Subsequence(sent, h) && NoConsecutiveRepeat(sent)
  {
    var known := if owed then Front(h) else h;
    if x.phase.Sending? {
      SubsequenceDropLast(sent, x.phase.message, known);
      forall i | 0 < i < |sent| ensures sent[i - 1] != sent[i] {
        assert Messages(x, sent)[i - 1] != Messages(x, sent)[i];
      }
    }
    assert h == Front(h) + [Last(h)];
    SubsequenceExtend(sent, Front(h), Last(h));
  }

  /** Nothing left in the slot, nothing being sent, and no setter about to refill the slot. */
  predicate Quiet(s: Server, w: WatchId) {
    !Owed(s, w) && w in s.watchers && s.watchers[w].phase.Selecting? && s.watchers[w].slot.None?
  }

  /** A quiet call has told its client the current status. */
  lemma QuietMeansUpToDate(t: seq<Event>, w: WatchId)
    requires Run(t) && Quiet(StateAfter(t), w)
    ensures Sent(t, w) != []
    ensures Last(Sent(t, w)) == Current(StateAfter(t).statusMap, StateAfter(t).watchers[w].service)
    ensures var service := StateAfter(t).watchers[w].service;
            var known := StateAfter(t).statusMap;
            Last(Sent(t, w)) == if service in known then known[service] else SERVICE_UNKNOWN
  {
    hide Run, StateAfter, WatchedService, Sent, History, RegistryExact, MutexSound, ShutdownSound, Subsequence,
      NoConsecutiveRepeat;
    CallKnown(t, w);
  }

  /** Steps of its own that a connected call still has to take before it is quiet. */
  function Backlog(x: Watcher): nat {
    (if x.slot.Some? then 2 else 0) + (if x.phase.Sending? then 1 else 0)
  }

  /** The call is at its select or sending, and no setter owes it a refill. */
  predicate Connected(s: Server, w: WatchId) {
    w in s.watchers && !Owed(s, w) && (s.watchers[w].phase.Selecting? || s.watchers[w].phase.Sending?)
  }

  predicate OwnEvent(e: Event, w: WatchId) {
    (e.Take? || e.Send?) && e.w == w
  }

  function OwnEvents(u: seq<Event>, w: WatchId): nat {
    if u == [] then 0 else OwnEvents(Front(u), w) + if OwnEvent(Last(u), w) then 1 else 0
  }

  /** Neither a change of the service's status, nor a failed send of the call, nor the end of its
      context.  Setters of other services may come and go. */
  predicate Undisturbed(e: Event, w: WatchId, service: Service) {
    && !(e.Assign? && e.service == service)
    && !(e.Send? && e.w == w && !e.ok)
    && e != ContextDone(w)
  }

  lemma UndisturbedStep(s: Server, e: Event, w: WatchId)
    requires RegistryExact(s) && MutexSound(s) && Enabled(s, e) && Connected(s, w)
    requires Undisturbed(e, w, s.watchers[w].service)
    ensures Connected(Apply(s, e), w) && Apply(s, e).watchers[w].service == s.watchers[w].service
    ensures Backlog(Apply(s, e).watchers[w]) + (if OwnEvent(e, w) then 1 else 0) <= Backlog(s.watchers[w])
  {
    if e.Assign? {
      assert w !in Registered(s.updates, e.service);
    }
  }

  lemma BusyCallHasAStep(s: Server, w: WatchId)
    requires Connected(s, w)
    ensures Backlog(s.watchers[w]) == 0 <==> Quiet(s, w)
    ensures !Quiet(s, w) ==> exists e :: OwnEvent(e, w) && Undisturbed(e, w, s.watchers[w].service) && Enabled(s, e)
  {
    var x := s.watchers[w];
    if x.phase.Sending? {
      var e := Send(w, x.phase.message, true);
      assert OwnEvent(e, w) && Undisturbed(e, w, x.service) && Enabled(s, e);
    } else if x.slot.Some? {
      assert OwnEvent(Take(w), w) && Undisturbed(Take(w), w, x.service) && Enabled(s, Take(w));
    }
  }

  lemma {:induction false} BacklogIsWorkedOff(t: seq<Event>, u: seq<Event>, w: WatchId)
    requires Run(t) && Run(t + u) && Connected(StateAfter(t), w)
    requires forall e :: e in u ==> Undisturbed(e, w, StateAfter(t).watchers[w].service)
    ensures Connected(StateAfter(t + u), w)
    ensures StateAfter(t + u).watchers[w].service == StateAfter(t).watchers[w].service
    ensures OwnEvents(u, w) + Backlog(StateAfter(t + u).watchers[w]) <= Backlog(StateAfter(t).watchers[w])
    decreases |u|
  {
    hide Enabled, Apply, Undisturbed, Backlog, OwnEvent, RegistryExact, MutexSound, ShutdownSound, Connected;
    ConnectedIsKnown(StateAfter(t), w);
    if u == [] {
      assert t + u == t;
    } else {
      assert Front(t + u) == t + Front(u) && Last(t + u) == Last(u);
      assert u == Front(u) + [Last(u)];
      BacklogIsWorkedOff(t, Front(u), w);
      CallKnown(t + Front(u), w);
      ConnectedIsKnown(StateAfter(t + Front(u)), w);
      UndisturbedStep(StateAfter(t + Front(u)), Last(u), w);
      ConnectedIsKnown(StateAfter(t + u), w);
    }
  }

  lemma ConnectedIsKnown(s: Server, w: WatchId)
    requires Connected(s, w)
    ensures w in s.watchers
  {
  }

  /** If the status stops changing, sends succeed and the context lasts, a connected call becomes
      quiet, whatever all the others do: over any continuation it takes at most as many steps as
      its backlog counts, and as long as it is not quiet it has such a step to take.  When it is
      quiet its client knows the current status. */
  lemma CallBecomesQuiet(t: seq<Event>, u: seq<Event>, w: WatchId)
    requires Run(t) && Run(t + u) && Connected(StateAfter(t), w)
    requires forall e :: e in u ==> Undisturbed(e, w, StateAfter(t).watchers[w].service)
    ensures Connected(StateAfter(t + u), w)
    ensures StateAfter(t + u).watchers[w].service == StateAfter(t).watchers[w].service
    ensures OwnEvents(u, w) + Backlog(StateAfter(t + u).watchers[w]) <= Backlog(StateAfter(t).watchers[w]) <= 3
    ensures !Quiet(StateAfter(t + u), w) ==>
              exists e :: OwnEvent(e, w) && Undisturbed(e, w, StateAfter(t).watchers[w].service) &&
                  Enabled(StateAfter(t + u), e)
    ensures OwnEvents(u, w) == Backlog(StateAfter(t).watchers[w]) ==> Quiet(StateAfter(t + u), w)
    ensures Quiet(StateAfter(t + u), w) ==>
              Sent(t + u, w) != [] && Last(Sent(t + u, w)) ==
                  Current(StateAfter(t + u).statusMap, StateAfter(t).watchers[w].service)
  {
    hide Run, StateAfter, Enabled, Undisturbed, Sent;
    BacklogIsWorkedOff(t, u, w);
    BusyCallHasAStep(StateAfter(t + u), w);
    if Quiet(StateAfter(t + u), w) {
      QuietMeansUpToDate(t + u, w);
    }
  }

  // ------------------------------------------------------- locking

  /** The holder's next step. */
  ghost predicate HolderReady(s: Server, e: Event) {
    HolderEvent(e) && Enabled(s, e)
  }

  lemma ConsumersCannotBlockHolder(s: Server, e: Event, f: Event)
    requires ConsumerEvent(e) && Enabled(s, e) && HolderReady(s, f)
    ensures HolderReady(Apply(s, e), f)
  {
  }

  lemma PutIsReady(s: Server, w: WatchId)
    requires MutexSound(s) && s.mutex.Held? && s.mutex.drained == Some(w)
    ensures HolderReady(s, Put(w))
  {
  }

  lemma HolderHasAStep(s: Server) returns (e: Event)
    requires MutexSound(s) && s.mutex.Held?
    ensures HolderReady(s, e)
  {
    if s.mutex.drained.Some? {
      PutIsReady(s, s.mutex.drained.value);
      e := Put(s.mutex.drained.value);
    } else if s.mutex.pending != {} {
      var w :| w in s.mutex.pending;
      e := Drain(w);
    } else if s.mutex.services != {} {
      var service :| service in s.mutex.services;
      e := Assign(service, s.mutex.status);
    } else {
      e := Unlock;
    }
  }

  /** The setter never waits on a channel: when it has drained a slot, the slot is still empty
      for the value it puts; more generally it always has a step to take, and no step of the
      watch calls can take that step away. */
  lemma HolderNeverBlocks(t: seq<Event>)
    requires Run(t) && StateAfter(t).mutex.Held?
    ensures StateAfter(t).mutex.drained.Some? ==> HolderReady(StateAfter(t), Put(StateAfter(t).mutex.drained.value))
    ensures exists e :: HolderReady(StateAfter(t), e)
    ensures forall e, f :: ConsumerEvent(e) && Enabled(StateAfter(t), e) && HolderReady(StateAfter(t), f) ==>
              HolderReady(Apply(StateAfter(t), e), f)
  {
    hide Run, StateAfter, RegistryExact, MutexSound, ShutdownSound, HolderReady, Enabled, Apply;
    CallKnown(t, 0);
    var s := StateAfter(t);
    if s.mutex.drained.Some? {
      PutIsReady(s, s.mutex.drained.value);
    }
    var ready := HolderHasAStep(s);
    forall e, f | ConsumerEvent(e) && Enabled(s, e) && HolderReady(s, f) ensures HolderReady(Apply(s, e), f) {
      ConsumersCannotBlockHolder(s, e, f);
    }
  }

  function HolderWork(m: Mutex): (nat, nat, nat) {
    match m
    case Free => (0, 0, 0)
    case Held(_, services, pending, drained) => (1 + |services|, |pending|, if drained.Some? then 0 else 1)
  }

  ghost predicate Less(a: (nat, nat, nat), b: (nat, nat, nat)) {
    a.0 < b.0 || (a.0 == b.0 && (a.1 < b.1 || (a.1 == b.1 && a.2 < b.2)))
  }

  /** The mutex is always released: each step of the holder shrinks its remaining work in a
      well-founded order and nobody else's step touches it. */
  lemma HolderFinishes(s: Server, e: Event)
    requires MutexSound(s) && s.mutex.Held? && Enabled(s, e)
    ensures HolderEvent(e) ==> Less(HolderWork(Apply(s, e).mutex), HolderWork(s.mutex))
    ensures !HolderEvent(e) ==> Apply(s, e).mutex == s.mutex
  {
    var m := s.mutex;
    match e {
      case Assign(service, _) =>
        assert m.services == (m.services - {service}) + {service};
      case Put(w) =>
        assert m.pending == (m.pending - {w}) + {w};
      case _ =>
    }
  }

  ghost predicate IsGone(s: Server, w: WatchId) {
    w in s.watchers && s.watchers[w].phase.Gone?
  }

  lemma GoneStep(s: Server, e: Event, w: WatchId)
    requires Enabled(s, e)
    ensures IsGone(Apply(s, e), w) <==> IsGone(s, w) || e == Deregister(w)
  {
  }

  lemma {:induction false} GoneMeansDeregistered(t: seq<Event>, w: WatchId)
    requires Run(t)
    ensures IsGone(StateAfter(t), w) <==> Deregister(w) in t
  {
    hide Enabled, Apply, IsGone;
    if t == [] {
      assert !IsGone(Initial, w) by { NotGoneInitially(w); }
    } else {
      GoneMeansDeregistered(Front(t), w);
      GoneStep(StateAfter(Front(t)), Last(t), w);
      assert t == Front(t) + [Last(t)];
    }
  }

  lemma NotGoneInitially(w: WatchId)
    ensures !IsGone(Initial, w)
  {
  }

  /** The registry of a service is exactly the set of `Watch` calls on it that have registered
      and whose deferred clean-up has not run. */
  lemma RegistryIsRegisteredCalls(t: seq<Event>, service: Service, w: WatchId)
    requires Run(t)
    ensures w in Registered(StateAfter(t).updates, service) <==>
            WatchedService(t, w) == Some(service) && Deregister(w) !in t
  {
    hide Run, StateAfter, WatchedService, Sent, History, MutexSound, ShutdownSound, WatcherSound;
    CallKnown(t, w);
    GoneMeansDeregistered(t, w);
  }

  // ------------------------------------------------------- leaving

  /** The call's context has ended, or a send on its stream has failed. */
  predicate EndsCall(e: Event, w: WatchId) {
    e == ContextDone(w) || (e.Send? && e.w == w && !e.ok)
  }

  predicate CallEnded(t: seq<Event>, w: WatchId) {
    t != [] && (CallEnded(Front(t), w) || EndsCall(Last(t), w))
  }

  /** A turn of the call's loop. */
  predicate LoopEvent(e: Event, w: WatchId) {
    (e.Take? || e.Send? || e.ContextDone?) && e.w == w
  }

  /** The call is in its loop unless it has ended. */
  ghost predicate InLoopUnless(s: Server, w: WatchId, ended: bool) {
    if w in s.watchers then (s.watchers[w].phase.Selecting? || s.watchers[w].phase.Sending?) <==> !ended else !ended
  }

  lemma InLoopStep(s: Server, e: Event, w: WatchId, ended: bool)
    requires Enabled(s, e) && InLoopUnless(s, w, ended)
    ensures InLoopUnless(Apply(s, e), w, ended || EndsCall(e, w))
  {
  }

  lemma {:induction false} CallIsInLoopUntilItEnds(t: seq<Event>, w: WatchId)
    requires Run(t)
    ensures InLoopUnless(StateAfter(t), w, CallEnded(t, w))
  {
    hide Enabled, Apply, InLoopUnless, EndsCall;
    if t == [] {
      assert InLoopUnless(Initial, w, false) by { NobodyInLoop(w); }
    } else {
      CallIsInLoopUntilItEnds(Front(t), w);
      InLoopStep(StateAfter(Front(t)), Last(t), w, CallEnded(Front(t), w));
    }
  }

  lemma NobodyInLoop(w: WatchId)
    ensures InLoopUnless(Initial, w, false)
  {
  }

  lemma OnlyTheLoopTurns(s: Server, w: WatchId, e: Event)
    requires w in s.watchers
    ensures LoopEvent(e, w) && Enabled(s, e) ==> s.watchers[w].phase.Selecting? || s.watchers[w].phase.Sending?
    ensures Enabled(s, Deregister(w)) <==> s.mutex.Free? && s.watchers[w].phase.Leaving?
    ensures Enabled(s, ContextDone(w)) <==> s.watchers[w].phase.Selecting?
    ensures s.watchers[w].phase.Sending? ==>
              forall ok :: Enabled(s, Send(w, s.watchers[w].phase.message, ok))
  {
  }

  /** A registered call stays in its loop, and can always notice the end of its context or finish
      its send, until its context has ended or a send has failed.  From then on, in every
      continuation, it takes nothing and sends nothing; and until its deferred clean-up has run,
      that clean-up is possible whenever the mutex is free. */
  lemma EndedCallsOnlyLeave(t: seq<Event>, w: WatchId)
    requires Run(t) && WatchedService(t, w).Some?
    ensures CallEnded(t, w) ==> forall e :: LoopEvent(e, w) ==> !Enabled(StateAfter(t), e)
    ensures CallEnded(t, w) && Deregister(w) !in t ==>
              (Enabled(StateAfter(t), Deregister(w)) <==> StateAfter(t).mutex.Free?)
    ensures !CallEnded(t, w) || Deregister(w) in t ==> !Enabled(StateAfter(t), Deregister(w))
    ensures !CallEnded(t, w) ==>
              || Enabled(StateAfter(t), ContextDone(w))
              || exists m :: Enabled(StateAfter(t), Send(w, m, true)) && Enabled(StateAfter(t), Send(w, m, false))
  {
    hide Run, StateAfter, WatchedService, Enabled, CallEnded, RegistryExact, MutexSound, ShutdownSound, WatcherSound;
    CallKnown(t, w);
    CallIsInLoopUntilItEnds(t, w);
    GoneMeansDeregistered(t, w);
    var s := StateAfter(t);
    var phase := s.watchers[w].phase;
    forall e ensures LoopEvent(e, w) && Enabled(s, e) ==> phase.Selecting? || phase.Sending? {
      OnlyTheLoopTurns(s, w, e);
    }
    OnlyTheLoopTurns(s, w, Deregister(w));
    if s.watchers[w].phase.Sending? {
      var m := s.watchers[w].phase.message;
      assert Enabled(s, Send(w, m, true)) && Enabled(s, Send(w, m, false));
    }
  }

  // ------------------------------------------------------- shutdown

  lemma RunPrefix(t: seq<Event>, u: seq<Event>)
    requires Run(t + u)
    ensures Run(t)
    decreases |u|
  {
    if u == [] {
      assert t + u == t;
    } else {
      assert Front(t + u) == t + Front(u);
      RunPrefix(t, Front(u));
    }
  }

  /** The flag is set and the status map is still the one the shutdown left. */
  ghost predicate ShutWith(s: Server, known: map<Service, Status>) {
    && s.shutdown && s.statusMap == known
    && (s.mutex.Held? ==> s.mutex.status == NOT_SERVING && s.mutex.services <= s.statusMap.Keys)
    && forall service :: service in known ==> known[service] == NOT_SERVING
  }

  lemma ShutStep(s: Server, e: Event, known: map<Service, Status>)
    requires ShutWith(s, known) && Enabled(s, e) && e != BeginResume
    ensures ShutWith(Apply(s, e), known)
  {
  }

  lemma {:induction false} StaysShut(t: seq<Event>, u: seq<Event>)
    requires Run(t) && Run(t + u) && ShutWith(StateAfter(t), StateAfter(t).statusMap)
    requires BeginResume !in u
    ensures ShutWith(StateAfter(t + u), StateAfter(t).statusMap)
    decreases |u|
  {
    hide Enabled, Apply, ShutWith;
    if u == [] {
      assert t + u == t;
    } else {
      assert Front(t + u) == t + Front(u) && Last(t + u) == Last(u);
      assert u == Front(u) + [Last(u)];
      StaysShut(t, Front(u));
      ShutStep(StateAfter(t + Front(u)), Last(u), StateAfter(t).statusMap);
    }
  }

  /** After a shutdown, as long as nobody resumes, `Check` reports NOT_SERVING for every service
      known at the shutdown and not-found for every other, whatever is set in between. */
  lemma ShutdownIsSticky(t: seq<Event>, u: seq<Event>)
    requires Run(t) && Run(t + u) && StateAfter(t).shutdown && StateAfter(t).mutex.Free?
    requires BeginResume !in u
    ensures StateAfter(t + u).shutdown
    ensures StateAfter(t + u).statusMap == StateAfter(t).statusMap
    ensures forall service :: service in StateAfter(t).statusMap ==> StateAfter(t).statusMap[service] == NOT_SERVING
  {
    hide Run, StateAfter, RegistryExact, MutexSound;
    CallKnown(t, 0);
    StaysShut(t, u);
  }

  /** The setter of a resume or a shutdown is under way. */
  ghost predicate BulkSetting(s: Server, status: Status, known: set<Service>) {
    && s.mutex.Held? && s.mutex.status == status
    && s.shutdown == (status == NOT_SERVING)
    && s.mutex.services <= s.statusMap.Keys == known
    && forall service :: service in s.statusMap && service !in s.mutex.services ==> s.statusMap[service] == status
  }

  lemma BulkSettingStep(s: Server, status: Status, known: set<Service>, e: Event)
    requires BulkSetting(s, status, known) && Enabled(s, e) && !e.Unlock?
    ensures BulkSetting(Apply(s, e), status, known)
  {
  }

  /** While the setter of a resume (or a shutdown) still holds the mutex, the services it has
      been through carry its status and the set of known services is unchanged. */
  lemma {:induction false} BulkSetProgress(t: seq<Event>, b: Event, u: seq<Event>, status: Status)
    requires (b.BeginResume? && status == SERVING) || (b.BeginShutdown? && status == NOT_SERVING)
    requires Run(t) && Run(t + [b] + u) && Unlock !in u && StateAfter(t).mutex.Free?
    ensures BulkSetting(StateAfter(t + [b] + u), status, StateAfter(t).statusMap.Keys)
    decreases |u|
  {
    hide Enabled, Apply, BulkSetting;
    if u == [] {
      assert t + [b] + u == t + [b];
      FrontAppend(t, b);
      BulkSettingBegins(StateAfter(t), b, status);
    } else {
      assert Front(t + [b] + u) == t + [b] + Front(u) && Last(t + [b] + u) == Last(u);
      assert u == Front(u) + [Last(u)];
      BulkSetProgress(t, b, Front(u), status);
      BulkSettingStep(StateAfter(t + [b] + Front(u)), status, StateAfter(t).statusMap.Keys, Last(u));
    }
  }

  lemma BulkSettingBegins(s: Server, b: Event, status: Status)
    requires (b.BeginResume? && status == SERVING) || (b.BeginShutdown? && status == NOT_SERVING)
    requires Enabled(s, b)
    ensures BulkSetting(Apply(s, b), status, s.statusMap.Keys)
  {
  }

  /** A resume makes every known service SERVING, a shutdown makes every one NOT_SERVING, and
      neither adds or forgets a service. */
  lemma BulkSetReachesAll(t: seq<Event>, b: Event, u: seq<Event>)
    requires b.BeginResume? || b.BeginShutdown?
    requires Run(t) && StateAfter(t).mutex.Free? && Run(t + [b] + u + [Unlock]) && Unlock !in u
    ensures var s := StateAfter(t + [b] + u + [Unlock]);
            && s.mutex.Free? && s.shutdown == b.BeginShutdown?
            && s.statusMap.Keys == StateAfter(t).statusMap.Keys
            && forall service :: service in s.statusMap ==>
                 s.statusMap[service] == (if b.BeginResume? then SERVING else NOT_SERVING)
  {
    FrontAppend(t + [b] + u, Unlock);
    BulkSetProgress(t, b, u, if b.BeginResume? then SERVING else NOT_SERVING);
  }

  lemma KnownStep(s: Server, e: Event)
    requires Enabled(s, e)
    ensures s.statusMap.Keys <= Apply(s, e).statusMap.Keys
  {
  }

  /** A service, once known, stays known. */
  lemma {:induction false} KnownServicesOnlyGrow(t: seq<Event>, u: seq<Event>)
    requires Run(t) && Run(t + u)
    ensures StateAfter(t).statusMap.Keys <= StateAfter(t + u).statusMap.Keys
    decreases |u|
  {
    hide Enabled, Apply;
    if u == [] {
      assert t + u == t;
    } else {
      assert Front(t + u) == t + Front(u) && Last(t + u) == Last(u);
      KnownServicesOnlyGrow(t, Front(u));
      KnownStep(StateAfter(t + Front(u)), Last(u));
    }
  }

  // ------------------------------------------------------- lost changes

  /** How often the status changed, counting the first one. */
  function Changes(h: seq<Status>): nat {
    if |h| <= 1 then |h|
    else Changes(Front(h)) + if Last(h) != Last(Front(h)) then 1 else 0
  }

  /** The changes a client will never hear of because the setter empties this slot: the one in
      the slot, if it is news to the client and not the status being written; and the change
      back, if the status being written is the one the client was told last. */
  function LostByDrain(x: Watcher, status: Status): nat {
    if x.slot.None? || x.slot == x.lastSent || x.slot == Some(status) then 0
    else if x.lastSent == Some(status) then 2
    else 1
  }

  ghost function MissedStep(missed: nat, s: Server, e: Event, w: WatchId): nat
    requires Enabled(s, e)
  {
    if e == Drain(w) then missed + LostByDrain(s.watchers[w], s.mutex.status) else missed
  }

  ghost function Missed(t: seq<Event>, w: WatchId): nat
    requires Run(t)
  {
    if t == [] then 0 else MissedStep(Missed(Front(t), w), StateAfter(Front(t)), Last(t), w)
  }

  /** Changes written but not yet handed to `stream.Send`. */
  function InSlot(x: Watcher, status: Status, drained: bool): nat {
    if drained then if x.lastSent != Some(status) then 1 else 0
    else if x.slot.Some? && x.slot != x.lastSent then 1
    else 0
  }

  ghost predicate WatcherAccounted(x: Watcher, sent: seq<Status>, h: seq<Status>, status: Status, owed: bool,
                                   drained: bool, missed: nat) {
    h != [] && (x.phase.Selecting? || x.phase.Sending? ==>
      Changes(if owed && !drained then Front(h) else h) == |Messages(x, sent)| + missed + InSlot(x, status, drained))
  }

  ghost predicate Accounted(s: Server, w: WatchId, sent: seq<Status>, h: seq<Status>, missed: nat) {
    if w in s.watchers then
      WatcherAccounted(s.watchers[w], sent, h, Current(s.statusMap, s.watchers[w].service),
                       Owed(s, w), Drained(s, w), missed)
    else missed == 0
  }

  lemma DrainAccounted(x: Watcher, sent: seq<Status>, h: seq<Status>, status: Status, missed: nat)
    requires WatcherSound(x, sent, h, status, true, false) && !x.phase.Gone?
    requires WatcherAccounted(x, sent, h, status, true, false, missed)
    ensures WatcherAccounted(x.(slot := None), sent, h, status, true, true, missed + LostByDrain(x, status))
  {
    hide Subsequence, NoConsecutiveRepeat;
    assert Changes(h) == Changes(Front(h)) + if Last(h) != Last(Front(h)) then 1 else 0;
  }

  lemma AccountedDrain(s: Server, w: WatchId, service: Option<Service>, sent: seq<Status>, h: seq<Status>, missed: nat)
    requires Enabled(s, Drain(w)) && MutexSound(s)
    requires CallSound(s, w, service, sent, h) && Accounted(s, w, sent, h, missed)
    ensures Accounted(Apply(s, Drain(w)), w, sent, h, missed + LostByDrain(s.watchers[w], s.mutex.status))
  {
    hide WatcherSound, WatcherAccounted, LostByDrain;
    DrainAccounted(s.watchers[w], sent, h, s.mutex.status, missed);
  }

  lemma AccountedAssign(s: Server, e: Event, w: WatchId, service: Option<Service>, sent: seq<Status>, h: seq<Status>,
                        missed: nat)
    requires Enabled(s, e) && e.Assign? && RegistryExact(s) && MutexSound(s) && w in s.watchers
    requires CallSound(s, w, service, sent, h) && Accounted(s, w, sent, h, missed)
    ensures Accounted(Apply(s, e), w, sent, HistoryStep(h, service, e, w), missed)
  {
    hide Subsequence, NoConsecutiveRepeat;
    var x := s.watchers[w];
    assert w in Registered(s.updates, e.service) <==> x.service == e.service && !x.phase.Gone?;
    FrontAppend(h, e.status);
  }

  lemma AccountedStep(s: Server, e: Event, w: WatchId, service: Option<Service>, sent: seq<Status>, h: seq<Status>,
                      missed: nat)
    requires Enabled(s, e) && RegistryExact(s) && MutexSound(s)
    requires if w in s.watchers then CallSound(s, w, service, sent, h) else sent == []
    requires Accounted(s, w, sent, h, missed)
    ensures Accounted(Apply(s, e), w, SentStep(sent, e, w), HistoryStep(h, service, e, w), MissedStep(missed, s, e, w))
  {
    if e.Assign? && w in s.watchers {
      AccountedAssign(s, e, w, service, sent, h, missed);
    } else if e == Drain(w) {
      AccountedDrain(s, w, service, sent, h, missed);
    } else {
      AccountedOther(s, e, w, service, sent, h, missed);
    }
    hide *;
  }

  lemma AccountedOther(s: Server, e: Event, w: WatchId, service: Option<Service>, sent: seq<Status>, h: seq<Status>,
                       missed: nat)
    requires Enabled(s, e) && MutexSound(s) && !(e.Assign? && w in s.watchers) && e != Drain(w)
    requires if w in s.watchers then CallSound(s, w, service, sent, h) else sent == []
    requires Accounted(s, w, sent, h, missed)
    ensures Accounted(Apply(s, e), w, SentStep(sent, e, w), HistoryStep(h, service, e, w), MissedStep(missed, s, e, w))
  {
    hide Subsequence, NoConsecutiveRepeat;
    assert e.Register? && e.w == w ==> Changes([e.initial]) == 1;
  }

  lemma {:induction false} CallIsAccounted(t: seq<Event>, w: WatchId)
    requires Run(t)
    ensures Accounted(StateAfter(t), w, Sent(t, w), History(t, w), Missed(t, w))
  {
    hide Enabled, Apply, CallSound, RegistryExact, MutexSound, ShutdownSound, SentStep, HistoryStep, MissedStep,
      WatcherAccounted;
    if t != [] {
      var t0 := Front(t);
      CallIsAccounted(t0, w);
      CallKnown(t0, w);
      hide Accounted;
      AccountedStep(StateAfter(t0), Last(t), w, WatchedService(t0, w), Sent(t0, w), History(t0, w), Missed(t0, w));
    }
  }

  /** The protocol document says that a message follows whenever the status changes.  Exactly:
      every change is either delivered or missed, the missed ones are those the setter threw
      away by draining, and so a quiet client has heard of every change if and only if no drain
      ever threw one away. */
  lemma ChangesAreDeliveredOrMissed(t: seq<Event>, w: WatchId)
    requires Run(t) && Quiet(StateAfter(t), w)
    ensures Changes(History(t, w)) == |Sent(t, w)| + Missed(t, w)
    ensures |Sent(t, w)| == Changes(History(t, w)) <==> Missed(t, w) == 0
  {
    hide Run, StateAfter, Sent, History, Missed, Changes;
    CallIsAccounted(t, w);
    CallKnown(t, w);
  }

  /** One more step of a run that leads to a given state. */
  lemma Advance(t: seq<Event>, e: Event, s: Server, w: WatchId) returns (t': seq<Event>, s': Server)
    requires Run(t) && StateAfter(t) == s && Enabled(s, e)
    ensures t' == t + [e] && Run(t') && s' == Apply(s, e) && StateAfter(t') == s'
    ensures Missed(t', w) == Missed(t, w) + if e == Drain(w) then LostByDrain(s.watchers[w], s.mutex.status) else 0
  {
    RunExtend(t, e);
    FrontAppend(t, e);
    t', s' := t + [e], Apply(s, e);
  }

  /** The setter writes `status` to the service "" of a server whose only call is the quiet
      call 0, and the call does not read in between. */
  lemma SetUnread(t: seq<Event>, s: Server, status: Status) returns (t': seq<Event>, s': Server)
    requires Run(t) && StateAfter(t) == s && s.mutex.Free? && !s.shutdown
    requires "" in s.updates && s.updates[""] == {0} && 0 in s.watchers
    ensures t' == t + [BeginSet("", status), Assign("", status), Drain(0), Put(0), Unlock]
    ensures Run(t') && StateAfter(t') == s'
    ensures s' == s.(statusMap := s.statusMap["" := status],
                     watchers := s.watchers[0 := s.watchers[0].(slot := Some(status))])
    ensures Missed(t', 0) == Missed(t, 0) + LostByDrain(s.watchers[0], status)
  {
    hide Run, StateAfter, Missed;
    t', s' := Advance(t, BeginSet("", status), s, 0);
    t', s' := Advance(t', Assign("", status), s', 0);
    assert s'.mutex == Held(status, {}, {0}, None);
    t', s' := Advance(t', Drain(0), s', 0);
    t', s' := Advance(t', Put(0), s', 0);
    assert s'.mutex == Held(status, {}, {}, None);
    t', s' := Advance(t', Unlock, s', 0);
    assert s'.watchers == s.watchers[0 := s.watchers[0].(slot := Some(status))];
  }

  /** SERVING, then NOT_SERVING, then SERVING again before the client reads: two changes it
      never hears of. */
  lemma ChangeThereAndBackIsMissed() returns (t: seq<Event>)
    ensures Run(t) && Quiet(StateAfter(t), 0) && Missed(t, 0) == 2
    ensures |t| == 14 && t[3] == BeginSet("", NOT_SERVING) && t[8] == BeginSet("", SERVING)
  {
    var s: Server;
    t, s := FirstMessageSent();
    hide Run, StateAfter, Missed;
    t, s := SetUnread(t, s, NOT_SERVING);
    t, s := SetUnread(t, s, SERVING);
    t, s := Advance(t, Take(0), s, 0);
  }

  /** Call 0 registers on the service "" and its first message is delivered. */
  lemma FirstMessageSent() returns (t: seq<Event>, s: Server)
    ensures Run(t) && StateAfter(t) == s && |t| == 3 && Missed(t, 0) == 0
    ensures s.mutex.Free? && !s.shutdown && "" in s.updates && s.updates[""] == {0}
    ensures s.watchers == map[0 := Watcher("", None, Some(SERVING), Selecting)]
  {
    t, s := Advance([], Register(0, "", SERVING), Initial, 0);
    hide Run, StateAfter, Missed;
    t, s := Advance(t, Take(0), s, 0);
    t, s := Advance(t, Send(0, SERVING, true), s, 0);
  }
}
