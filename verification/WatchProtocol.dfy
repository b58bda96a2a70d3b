/** The watch machinery of the sample agent's gRPC health service, as an interleaving of
    atomic steps.  One thread at a time holds the server's mutex; the `Watch` calls take
    values out of their one-slot channels without it. */
module WatchProtocol {
  import opened Common

  type Service = string
  type WatchId = nat

  datatype Status = UNKNOWN | SERVING | NOT_SERVING | SERVICE_UNKNOWN

  /** Where a `Watch` call is: at its select, inside `stream.Send`, waiting for the mutex in
      its deferred clean-up, or returned. */
  datatype Phase = Selecting | Sending(message: Status) | Leaving | Gone

  datatype Watcher = Watcher(service: Service, slot: Option<Status>, lastSent: Option<Status>, phase: Phase)
  {
    /** The newest status this call knows of or will find in its channel. */
    function View(): Option<Status> {
      if slot.Some? then slot else lastSent
    }
  }

  /** The mutex.  While it is held by a setter: the status being written, the services still
      to be written, the watchers of the current service still to be refilled, and the one
      among them whose slot has just been drained. */
  datatype Mutex =
    | Free
    | Held(status: Status, services: set<Service>, pending: set<WatchId>, drained: Option<WatchId>)

  datatype Server = Server(
    statusMap: map<Service, Status>,
    updates: map<Service, set<WatchId>>,
    watchers: map<WatchId, Watcher>,
    shutdown: bool,
    mutex: Mutex)

  const Initial: Server := Server(map["" := SERVING], map[], map[], false, Free)

  function Current(statusMap: map<Service, Status>, service: Service): Status {
    if service in statusMap then statusMap[service] else SERVICE_UNKNOWN
  }

  function Registered(updates: map<Service, set<WatchId>>, service: Service): set<WatchId> {
    if service in updates then updates[service] else {}
  }

  datatype Event =
    | Register(w: WatchId, service: Service, initial: Status)
    | Take(w: WatchId)
    | Send(w: WatchId, message: Status, ok: bool)
    | ContextDone(w: WatchId)
    | Deregister(w: WatchId)
    | BeginSet(service: Service, status: Status)
    | BeginShutdown
    | BeginResume
    | Assign(service: Service, status: Status)
    | Drain(w: WatchId)
    | Put(w: WatchId)
    | Unlock

  predicate ConsumerEvent(e: Event) {
    e.Take? || e.Send? || e.ContextDone?
  }

  /** A step of the thread that holds the mutex. */
  predicate HolderEvent(e: Event) {
    e.Assign? || e.Drain? || e.Put? || e.Unlock?
  }

  predicate Enabled(s: Server, e: Event) {
    match e
    case Register(w, service, initial) =>
      s.mutex.Free? && w !in s.watchers && initial == Current(s.statusMap, service)
    case Take(w) => w in s.watchers && s.watchers[w].phase.Selecting? && s.watchers[w].slot.Some?
    case Send(w, message, _) => w in s.watchers && s.watchers[w].phase == Sending(message)
    case ContextDone(w) => w in s.watchers && s.watchers[w].phase.Selecting?
    case Deregister(w) => s.mutex.Free? && w in s.watchers && s.watchers[w].phase.Leaving?
    case BeginSet(_, _) => s.mutex.Free?
    case BeginShutdown => s.mutex.Free?
    case BeginResume => s.mutex.Free?
    case Assign(service, status) =>
      s.mutex.Held? && s.mutex.pending == {} && service in s.mutex.services && status == s.mutex.status
    case Drain(w) => s.mutex.Held? && s.mutex.drained.None? && w in s.mutex.pending && w in s.watchers
    // a send on a one-slot channel can only complete when the slot is empty
    case Put(w) => s.mutex.Held? && s.mutex.drained == Some(w) && w in s.watchers && s.watchers[w].slot.None?
    case Unlock => s.mutex.Held? && s.mutex.pending == {} && s.mutex.services == {}
  }

  function Apply(s: Server, e: Event): Server
    requires Enabled(s, e)
  {
    match e
    case Register(w, service, initial) =>
      s.(watchers := s.watchers[w := Watcher(service, Some(initial), None, Selecting)],
         updates := s.updates[service := Registered(s.updates, service) + {w}])
    case Take(w) =>
      var x := s.watchers[w];
      var y := if x.lastSent == x.slot then x.(slot := None)
               else x.(slot := None, lastSent := x.slot, phase := Sending(x.slot.value));
      s.(watchers := s.watchers[w := y])
    case Send(w, _, ok) =>
      s.(watchers := s.watchers[w := s.watchers[w].(phase := if ok then Selecting else Leaving)])
    case ContextDone(w) =>
      s.(watchers := s.watchers[w := s.watchers[w].(phase := Leaving)])
    case Deregister(w) =>
      var service := s.watchers[w].service;
      s.(watchers := s.watchers[w := s.watchers[w].(phase := Gone)],
         updates := s.updates[service := Registered(s.updates, service) - {w}])
    case BeginSet(service, status) =>
      if s.shutdown then s else s.(mutex := Held(status, {service}, {}, None))
    case BeginShutdown =>
      s.(shutdown := true, mutex := Held(NOT_SERVING, s.statusMap.Keys, {}, None))
    case BeginResume =>
      s.(shutdown := false, mutex := Held(SERVING, s.statusMap.Keys, {}, None))
    case Assign(service, status) =>
      s.(statusMap := s.statusMap[service := status],
         mutex := Held(status, s.mutex.services - {service}, Registered(s.updates, service), None))
    case Drain(w) =>
      s.(watchers := s.watchers[w := s.watchers[w].(slot := None)], mutex := s.mutex.(drained := Some(w)))
    case Put(w) =>
      s.(watchers := s.watchers[w := s.watchers[w].(slot := Some(s.mutex.status))],
         mutex := s.mutex.(pending := s.mutex.pending - {w}, drained := None))
    case Unlock => s.(mutex := Free)
  }

  // ---------------------------------------------------------------- runs

  ghost predicate Run(t: seq<Event>)
    decreases |t|, 0
  {
    t == [] || (Run(Front(t)) && Enabled(StateAfter(Front(t)), Last(t)))
  }

  ghost function StateAfter(t: seq<Event>): Server
    requires Run(t)
    decreases |t|, 1
  {
    if t == [] then Initial else Apply(StateAfter(Front(t)), Last(t))
  }

  lemma RunExtend(t: seq<Event>, e: Event)
    requires Run(t) && Enabled(StateAfter(t), e)
    ensures Run(t + [e]) && StateAfter(t + [e]) == Apply(StateAfter(t), e)
  {
    FrontAppend(t, e);
  }

  // ------------------------------------- what a run shows from the outside

  function SentStep(sent: seq<Status>, e: Event, w: WatchId): seq<Status> {
    if e.Send? && e.w == w && e.ok then sent + [e.message] else sent
  }

  /** The messages delivered on the stream of call `w`. */
  function Sent(t: seq<Event>, w: WatchId): seq<Status> {
    if t == [] then [] else SentStep(Sent(Front(t), w), Last(t), w)
  }

  function ServiceStep(service: Option<Service>, e: Event, w: WatchId): Option<Service> {
    if e.Register? && e.w == w then Some(e.service) else service
  }

  /** The service call `w` asked for. */
  function WatchedService(t: seq<Event>, w: WatchId): Option<Service> {
    if t == [] then None else ServiceStep(WatchedService(Front(t), w), Last(t), w)
  }

  function HistoryStep(h: seq<Status>, service: Option<Service>, e: Event, w: WatchId): seq<Status> {
    if e.Register? && e.w == w then [e.initial]
    else if e.Assign? && service == Some(e.service) then h + [e.status]
    else h
  }

  /** The statuses of the watched service from the registration of `w` on: the one it had
      then, followed by every one written since. */
  function History(t: seq<Event>, w: WatchId): seq<Status> {
    if t == [] then [] else HistoryStep(History(Front(t), w), WatchedService(Front(t), w), Last(t), w)
  }

  // ------------------------------------------------------------ invariants

  /** The registry holds exactly the calls that have registered and not yet deregistered. */
  ghost predicate RegistryExact(s: Server) {
    forall service, w :: w in Registered(s.updates, service) <==>
      w in s.watchers && s.watchers[w].service == service && !s.watchers[w].phase.Gone?
  }

  ghost predicate MutexSound(s: Server) {
    s.mutex.Held? ==>
      && (s.mutex.drained.Some? ==> s.mutex.drained.value in s.mutex.pending)
      && (forall w :: w in s.mutex.pending ==>
            w in s.watchers && !s.watchers[w].phase.Gone?
            && s.watchers[w].service in s.statusMap
            && s.statusMap[s.watchers[w].service] == s.mutex.status)
      && (s.mutex.drained.Some? ==> s.watchers[s.mutex.drained.value].slot.None?)
  }

  /** Once shut down, every known service the shutdown has reached is NOT_SERVING. */
  ghost predicate ShutdownSound(s: Server) {
    s.shutdown ==>
      && (s.mutex.Held? ==> s.mutex.status == NOT_SERVING && s.mutex.services <= s.statusMap.Keys)
      && (forall service :: service in s.statusMap && (s.mutex.Held? ==> service !in s.mutex.services) ==>
            s.statusMap[service] == NOT_SERVING)
  }

  /** The delivered messages and the one inside `stream.Send`. */
  function Messages(x: Watcher, sent: seq<Status>): seq<Status> {
    if x.phase.Sending? then sent + [x.phase.message] else sent
  }

  /** What one call knows, given the messages delivered so far, the history of its service,
      and whether the setter still owes it the newest status (`owed`) and has already emptied
      its slot for it (`drained`). */
  ghost predicate WatcherSound(x: Watcher, sent: seq<Status>, h: seq<Status>, status: Status, owed: bool,
                               drained: bool) {
    && h != [] && Last(h) == status
    && var known := if owed then Front(h) else h;
       var m := Messages(x, sent);
    && known != []
    && Subsequence(m, known)
    && NoConsecutiveRepeat(m)
    && (x.phase.Selecting? || x.phase.Sending? ==> x.lastSent == if m == [] then None else Some(Last(m)))
    && (drained ==> owed)
    && (!x.phase.Gone? && !drained ==> x.View() == Some(Last(known)))
  }

  predicate Owed(s: Server, w: WatchId) {
    s.mutex.Held? && w in s.mutex.pending
  }

  predicate Drained(s: Server, w: WatchId) {
    s.mutex.Held? && s.mutex.drained == Some(w)
  }

  /** The facts about call `w` in a state, given what has been observed of it. */
  ghost predicate CallSound(s: Server, w: WatchId, service: Option<Service>, sent: seq<Status>, h: seq<Status>)
    requires w in s.watchers
  {
    && service == Some(s.watchers[w].service)
    && WatcherSound(s.watchers[w], sent, h, Current(s.statusMap, s.watchers[w].service), Owed(s, w), Drained(s, w))
  }

  ghost predicate Sound(t: seq<Event>)
    requires Run(t)
  {
    var s := StateAfter(t);
    && RegistryExact(s) && MutexSound(s) && ShutdownSound(s)
    && (forall w :: w !in s.watchers ==> WatchedService(t, w) == None && Sent(t, w) == [])
    && (forall w :: w in s.watchers ==> CallSound(s, w, WatchedService(t, w), Sent(t, w), History(t, w)))
  }

  lemma RegistryStep(s: Server, e: Event)
    requires Enabled(s, e) && RegistryExact(s)
    ensures RegistryExact(Apply(s, e))
  {
    var s' := Apply(s, e);
    forall service, w
      ensures w in Registered(s'.updates, service) <==>
              w in s'.watchers && s'.watchers[w].service == service && !s'.watchers[w].phase.Gone?
    {
      assert w in Registered(s.updates, service) <==>
             w in s.watchers && s.watchers[w].service == service && !s.watchers[w].phase.Gone?;
    }
  }

  lemma MutexStep(s: Server, e: Event)
    requires Enabled(s, e) && RegistryExact(s) && MutexSound(s)
    ensures MutexSound(Apply(s, e))
  {
  }

  lemma ShutdownStep(s: Server, e: Event)
    requires Enabled(s, e) && ShutdownSound(s)
    ensures ShutdownSound(Apply(s, e))
  {
  }

  lemma TakeRepeatKeepsSound(x: Watcher, sent: seq<Status>, h: seq<Status>, status: Status, owed: bool)
    requires x.phase.Selecting? && x.slot.Some? && x.lastSent == x.slot
    requires WatcherSound(x, sent, h, status, owed, false)
    ensures WatcherSound(x.(slot := None), sent, h, status, owed, false)
  {
    hide Subsequence, NoConsecutiveRepeat;
  }

  lemma TakeNewKeepsSound(x: Watcher, sent: seq<Status>, h: seq<Status>, status: Status, owed: bool)
    requires x.phase.Selecting? && x.slot.Some? && x.lastSent != x.slot
    requires WatcherSound(x, sent, h, status, owed, false)
    ensures WatcherSound(x.(slot := None, lastSent := x.slot, phase := Sending(x.slot.value)),
                         sent, h, status, owed, false)
  {
    hide Subsequence;
    var known := if owed then Front(h) else h;
    assert known == Front(known) + [Last(known)];
    SubsequenceExtend(sent, Front(known), Last(known));
  }

  lemma SendKeepsSound(x: Watcher, sent: seq<Status>, h: seq<Status>, status: Status, owed: bool, drained: bool,
                       ok: bool)
    requires x.phase.Sending? && WatcherSound(x, sent, h, status, owed, drained)
    ensures WatcherSound(x.(phase := if ok then Selecting else Leaving),
                         if ok then sent + [x.phase.message] else sent, h, status, owed, drained)
  {
    var m := sent + [x.phase.message];
    if !ok {
      SubsequenceDropLast(sent, x.phase.message, if owed then Front(h) else h);
      forall i | 0 < i < |sent| ensures sent[i - 1] != sent[i] {
        assert m[i - 1] != m[i];
      }
    }
  }

  lemma PutKeepsSound(x: Watcher, sent: seq<Status>, h: seq<Status>, status: Status)
    requires WatcherSound(x, sent, h, status, true, true)
    ensures WatcherSound(x.(slot := Some(status)), sent, h, status, false, false)
  {
    assert h == Front(h) + [Last(h)];
    SubsequenceExtend(Messages(x, sent), Front(h), Last(h));
    hide Subsequence, NoConsecutiveRepeat, Messages;
  }

  lemma AssignKeepsSound(x: Watcher, sent: seq<Status>, h: seq<Status>, before: Status, status: Status)
    requires WatcherSound(x, sent, h, before, false, false)
    ensures WatcherSound(x, sent, h + [status], status, true, false)
    ensures x.phase.Gone? ==> WatcherSound(x, sent, h + [status], status, false, false)
  {
    FrontAppend(h, status);
    SubsequenceExtend(Messages(x, sent), h, status);
  }

  lemma TakeStep(s: Server, w: WatchId, service: Option<Service>, sent: seq<Status>, h: seq<Status>)
    requires Enabled(s, Take(w)) && MutexSound(s) && CallSound(s, w, service, sent, h)
    ensures CallSound(Apply(s, Take(w)), w, service, sent, h)
  {
    hide WatcherSound;
    var x := s.watchers[w];
    if x.lastSent == x.slot {
      TakeRepeatKeepsSound(x, sent, h, Current(s.statusMap, x.service), Owed(s, w));
    } else {
      TakeNewKeepsSound(x, sent, h, Current(s.statusMap, x.service), Owed(s, w));
    }
  }

  lemma SendStep(s: Server, e: Event, w: WatchId, service: Option<Service>, sent: seq<Status>, h: seq<Status>)
    requires Enabled(s, e) && e.Send? && e.w == w && CallSound(s, w, service, sent, h)
    ensures CallSound(Apply(s, e), w, service, SentStep(sent, e, w), h)
  {
    hide WatcherSound;
    var x := s.watchers[w];
    SendKeepsSound(x, sent, h, Current(s.statusMap, x.service), Owed(s, w), Drained(s, w), e.ok);
  }

  lemma PutStep(s: Server, w: WatchId, service: Option<Service>, sent: seq<Status>, h: seq<Status>)
    requires Enabled(s, Put(w)) && MutexSound(s) && CallSound(s, w, service, sent, h)
    ensures CallSound(Apply(s, Put(w)), w, service, sent, h)
  {
    hide WatcherSound;
    PutKeepsSound(s.watchers[w], sent, h, s.mutex.status);
  }

  lemma AssignStep(s: Server, e: Event, w: WatchId, service: Option<Service>, sent: seq<Status>, h: seq<Status>)
    requires Enabled(s, e) && e.Assign? && w in s.watchers
    requires RegistryExact(s) && MutexSound(s) && CallSound(s, w, service, sent, h)
    ensures CallSound(Apply(s, e), w, service, sent, HistoryStep(h, service, e, w))
  {
    hide WatcherSound;
    var x := s.watchers[w];
    assert w in Registered(s.updates, e.service) <==> x.service == e.service && !x.phase.Gone?;
    if x.service == e.service {
      AssignKeepsSound(x, sent, h, Current(s.statusMap, x.service), e.status);
    }
  }

  /** The steps of others, and those of the call that only move its program counter. */
  lemma QuietStep(s: Server, e: Event, w: WatchId, service: Option<Service>, sent: seq<Status>, h: seq<Status>)
    requires Enabled(s, e) && w in s.watchers && MutexSound(s) && CallSound(s, w, service, sent, h)
    requires !e.Assign? && ((e.Take? || e.Send? || e.Put?) ==> e.w != w)
    ensures CallSound(Apply(s, e), w, service, SentStep(sent, e, w), HistoryStep(h, service, e, w))
  {
    hide Subsequence, NoConsecutiveRepeat;
  }

  lemma CallStep(s: Server, e: Event, w: WatchId, service: Option<Service>, sent: seq<Status>, h: seq<Status>)
    requires Enabled(s, e) && RegistryExact(s) && MutexSound(s)
    requires if w in s.watchers then CallSound(s, w, service, sent, h) else sent == []
    requires w in Apply(s, e).watchers
    ensures CallSound(Apply(s, e), w, ServiceStep(service, e, w), SentStep(sent, e, w), HistoryStep(h, service, e, w))
  {
    if w !in s.watchers {
      assert e.Register? && e.w == w;
    } else {
      hide WatcherSound, RegistryExact, MutexSound;
      if e.Assign? {
        AssignStep(s, e, w, service, sent, h);
      } else if (e.Take? || e.Send? || e.Put?) && e.w == w {
        match e {
          case Take(_) => TakeStep(s, w, service, sent, h);
          case Send(_, _, _) => SendStep(s, e, w, service, sent, h);
          case Put(_) => PutStep(s, w, service, sent, h);
        }
      } else {
        QuietStep(s, e, w, service, sent, h);
      }
    }
  }

  lemma UnknownCallStep(s: Server, e: Event, w: WatchId)
    requires Enabled(s, e) && w !in Apply(s, e).watchers
    ensures w !in s.watchers && ServiceStep(None, e, w) == None && SentStep([], e, w) == [] && e != Drain(w)
  {
  }

  lemma {:induction false} RunIsSound(t: seq<Event>)
    requires Run(t)
    ensures Sound(t)
  {
    hide Enabled, Apply, CallSound, RegistryExact, MutexSound, ShutdownSound, SentStep, ServiceStep, HistoryStep;
    if t == [] {
      InitialIsSound();
    } else {
      var t0, e := Front(t), Last(t);
      RunIsSound(t0);
      var s := StateAfter(t0);
      RegistryStep(s, e);
      MutexStep(s, e);
      ShutdownStep(s, e);
      forall w | w in Apply(s, e).watchers
        ensures CallSound(StateAfter(t), w, WatchedService(t, w), Sent(t, w), History(t, w))
      {
        CallStep(s, e, w, WatchedService(t0, w), Sent(t0, w), History(t0, w));
      }
      forall w | w !in Apply(s, e).watchers ensures WatchedService(t, w) == None && Sent(t, w) == [] {
        UnknownCallStep(s, e, w);
      }
    }
  }

  lemma InitialIsSound()
    ensures RegistryExact(Initial) && MutexSound(Initial) && ShutdownSound(Initial) && Initial.watchers == map[]
  {
  }
}
