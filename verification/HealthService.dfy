/** The health service itself: an object whose methods update its maps in place.  Every method
    is proved to produce only steps of the protocol in `WatchProtocol`, with the watch calls
    interfering wherever the mutex does not exclude them. */
module HealthService {
  import opened Common
  import opened WatchProtocol
  import opened WatchTheorems

  /** `t` continues `t0` by steps of the watch calls only. */
  ghost predicate ConsumersOnly(t0: seq<Event>, t: seq<Event>) {
    t0 <= t && forall i :: |t0| <= i < |t| ==> ConsumerEvent(t[i])
  }

  class HealthServer {
    var statusMap: map<Service, Status>
    var updates: map<Service, set<WatchId>>
    var watchers: map<WatchId, Watcher>
    var shutdown: bool
    ghost var mutex: Mutex
    ghost var trace: seq<Event>

    ghost function State(): Server
      reads this
    {
      Server(statusMap, updates, watchers, shutdown, mutex)
    }

    /** The object is in the state its recorded run leads to. */
    ghost predicate Valid()
      reads this
    {
      Run(trace) && StateAfter(trace) == State()
    }

    /** Every registered call sees the status its service has. */
    ghost predicate ViewsAgree()
      reads this
    {
      forall service, w :: w in Registered(updates, service) ==>
        w in watchers && watchers[w].View() == Some(Current(statusMap, service))
    }

    ghost method Record(e: Event)
      requires Run(trace) && Enabled(StateAfter(trace), e) && State() == Apply(StateAfter(trace), e)
      modifies this`trace
      ensures Valid() && trace == old(trace) + [e]
    {
      RunExtend(trace, e);
      trace := trace + [e];
    }

    lemma AgreeWhenFree()
      requires Valid() && mutex.Free?
      ensures ViewsAgree()
    {
      forall service, w | w in Registered(updates, service)
        ensures w in watchers && watchers[w].View() == Some(Current(statusMap, service))
      {
        ViewAgreesWithStatusMap(trace, service, w);
      }
    }

    constructor ()
      ensures Valid() && mutex.Free? && trace == []
      ensures statusMap == map["" := SERVING] && updates == map[] && !shutdown
    {
      statusMap, updates, watchers, shutdown := map["" := SERVING], map[], map[], false;
      mutex, trace := Free, [];
    }

    method Check(service: Service) returns (status: Option<Status>)
      requires Valid() && mutex.Free?
      ensures status.Some? <==> service in statusMap
      ensures status.Some? ==> status.value == statusMap[service]
      ensures shutdown && status.Some? ==> status.value == NOT_SERVING
    {
      RunIsSound(trace);
      if service in statusMap {
        return Some(statusMap[service]);
      }
      return None;
    }

    /** The part of `Watch` before its loop. */
    method WatchRegister(w: WatchId, service: Service)
      requires Valid() && mutex.Free? && w !in watchers
      modifies this
      ensures Valid() && mutex.Free? && trace == old(trace) + [Register(w, service, Current(statusMap, service))]
      ensures statusMap == old(statusMap) && shutdown == old(shutdown)
      ensures Registered(updates, service) == old(Registered(updates, service)) + {w} && ViewsAgree()
      ensures w in watchers && watchers[w].service == service && watchers[w].phase.Selecting?
      ensures watchers[w].slot == Some(if service in statusMap then statusMap[service] else SERVICE_UNKNOWN)
    {
      var update: Option<Status>;
      if service in statusMap {
        update := Some(statusMap[service]);
      } else {
        update := Some(SERVICE_UNKNOWN);
      }
      if service !in updates {
        updates := updates[service := {}];
      }
      updates := updates[service := updates[service] + {w}];
      watchers := watchers[w := Watcher(service, update, None, Selecting)];
      assert updates == old(updates)[service := old(Registered(updates, service)) + {w}];
      Record(Register(w, service, update.value));
      AgreeWhenFree();
    }

    /** One turn of the loop of `Watch`, or as much of it as happens before another thread moves;
        `sendOk` is what `stream.Send` reports, `done` whether the select picks the context. */
    method WatchTurn(w: WatchId, sendOk: bool, done: bool)
      requires Valid() && w in watchers
      modifies this`watchers, this`trace
      ensures Valid() && ConsumersOnly(old(trace), trace) && watchers.Keys == old(watchers).Keys
      ensures forall v :: v in watchers && v != w ==> watchers[v] == old(watchers)[v]
      ensures old(watchers)[w].phase.Sending? && sendOk ==>
          Sent(trace, w) == Sent(old(trace), w) + [old(watchers)[w].phase.message]
      ensures !(old(watchers)[w].phase.Sending? && sendOk) ==> Sent(trace, w) == Sent(old(trace), w)
      ensures var x := old(watchers)[w];
              var y := watchers[w];
              && y.service == x.service
              && (x.phase.Selecting? && done ==> y == x.(phase := Leaving))
              && (x.phase.Selecting? && !done ==>
                    && y.slot.None?
                    && (if x.slot.None? || x.slot == x.lastSent then y.phase.Selecting? && y.lastSent == x.lastSent
                        else y.phase == Sending(x.slot.value) && y.lastSent == x.slot))
              && (x.phase.Sending? ==> if sendOk then y.phase.Selecting? else y.phase.Leaving?)
    {
      var x := watchers[w];
      ghost var t := trace;
      match x.phase {
        case Selecting =>
          if done {
            watchers := watchers[w := x.(phase := Leaving)];
            Record(ContextDone(w));
            FrontAppend(t, ContextDone(w));
          } else if x.slot.Some? {
            var servingStatus := x.slot.value;
            x := x.(slot := None);
            if x.lastSent != Some(servingStatus) {
              x := x.(lastSent := Some(servingStatus), phase := Sending(servingStatus));
            }
            watchers := watchers[w := x];
            Record(Take(w));
            FrontAppend(t, Take(w));
          }
        case Sending(message) =>
          watchers := watchers[w := x.(phase := if sendOk then Selecting else Leaving)];
          Record(Send(w, message, sendOk));
          FrontAppend(t, Send(w, message, sendOk));
        case _ =>
      }
    }

    /** The deferred clean-up of `Watch`. */
    method WatchDeregister(w: WatchId)
      requires Valid() && mutex.Free? && w in watchers && watchers[w].phase.Leaving?
      modifies this
      ensures Valid() && mutex.Free? && trace == old(trace) + [Deregister(w)]
      ensures statusMap == old(statusMap) && shutdown == old(shutdown)
      ensures forall service :: w !in Registered(updates, service)
    {
      var service := watchers[w].service;
      RunIsSound(trace);
      assert w in Registered(updates, service);
      updates := updates[service := updates[service] - {w}];
      watchers := watchers[w := watchers[w].(phase := Gone)];
      Record(Deregister(w));
      RunIsSound(trace);
      forall other ensures w !in Registered(updates, other) {
        assert w in Registered(State().updates, other) <==>
               w in watchers && watchers[w].service == other && !watchers[w].phase.Gone?;
      }
    }

    /** What the watch calls may do while another thread holds the mutex. */
    method Interfere()
      requires Valid()
      modifies this`watchers, this`trace
      ensures Valid() && ConsumersOnly(old(trace), trace) && watchers.Keys == old(watchers).Keys
    {
      var turns :| 0 <= turns;
      for i := 0 to turns
        invariant Valid() && ConsumersOnly(old(trace), trace) && watchers.Keys == old(watchers).Keys
      {
        var w: WatchId, sendOk: bool, done: bool := *, *, *;
        if w in watchers {
          WatchTurn(w, sendOk, done);
        }
      }
    }

    /** The body of the loop over a service's channels: empties the slot of one call and puts
        the new status in.  The watch calls may move before and after the drain, but never so
        that the put would block. */
    method Refill(update: WatchId, servingStatus: Status)
      requires Valid() && mutex.Held? && mutex.status == servingStatus && mutex.drained.None? && update in mutex.pending
      modifies this`watchers, this`trace, this`mutex
      ensures Valid() && old(trace) <= trace
      ensures mutex == old(mutex).(pending := old(mutex).pending - {update})
    {
      Interfere();
      RunIsSound(trace);
      watchers := watchers[update := watchers[update].(slot := None)];
      mutex := mutex.(drained := Some(update));
      Record(Drain(update));
      Interfere();
      PutCannotBlock(update);
      assert watchers[update].slot.None?;
      watchers := watchers[update := watchers[update].(slot := Some(servingStatus))];
      mutex := mutex.(pending := mutex.pending - {update}, drained := None);
      Record(Put(update));
    }

    lemma PutCannotBlock(update: WatchId)
      requires Valid() && mutex.Held? && mutex.drained == Some(update)
      ensures Enabled(State(), Put(update))
    {
      HolderNeverBlocks(trace);
    }

    method SetServingStatusLocked(service: Service, servingStatus: Status)
      requires Valid() && mutex.Held? && mutex.pending == {} && service in mutex.services
      requires servingStatus == mutex.status
      modifies this
      ensures Valid() && old(trace) <= trace
      ensures mutex == Held(servingStatus, old(mutex).services - {service}, {}, None)
      ensures statusMap == old(statusMap)[service := servingStatus]
      ensures updates == old(updates) && shutdown == old(shutdown)
    {
      statusMap := statusMap[service := servingStatus];
      mutex := Held(servingStatus, mutex.services - {service}, Registered(updates, service), None);
      Record(Assign(service, servingStatus));
      var todo := if service in updates then updates[service] else {};
      while todo != {}
        invariant Valid() && old(trace) <= trace
        invariant mutex == Held(servingStatus, old(mutex).services - {service}, todo, None)
        invariant statusMap == old(statusMap)[service := servingStatus]
        invariant updates == old(updates) && shutdown == old(shutdown)
        decreases todo
      {
        var update :| update in todo;
        Refill(update, servingStatus);
        todo := todo - {update};
      }
    }

    method SetServingStatus(service: Service, servingStatus: Status)
      requires Valid() && mutex.Free?
      modifies this
      ensures Valid() && mutex.Free? && old(trace) + [BeginSet(service, servingStatus)] <= trace
      ensures statusMap == if old(shutdown) then old(statusMap) else old(statusMap)[service := servingStatus]
      ensures updates == old(updates) && shutdown == old(shutdown) && ViewsAgree()
    {
      if shutdown {
        Record(BeginSet(service, servingStatus));
        AgreeWhenFree();
        return;
      }
      mutex := Held(servingStatus, {service}, {}, None);
      Record(BeginSet(service, servingStatus));
      SetServingStatusLocked(service, servingStatus);
      assert mutex.services == {};
      mutex := Free;
      Record(Unlock);
      AgreeWhenFree();
    }

    /** The loop shared by shutdown and resume. */
    method SetAllLocked(servingStatus: Status)
      requires Valid() && mutex == Held(servingStatus, statusMap.Keys, {}, None)
      modifies this
      ensures Valid() && mutex.Free? && old(trace) <= trace
      ensures statusMap.Keys == old(statusMap).Keys && updates == old(updates) && shutdown == old(shutdown)
      ensures forall service :: service in statusMap ==> statusMap[service] == servingStatus
    {
      var todo := statusMap.Keys;
      while todo != {}
        invariant Valid() && old(trace) <= trace && todo <= statusMap.Keys
        invariant mutex == Held(servingStatus, todo, {}, None)
        invariant statusMap.Keys == old(statusMap).Keys && updates == old(updates) && shutdown == old(shutdown)
        invariant forall service :: service in statusMap && service !in todo ==> statusMap[service] == servingStatus
        decreases todo
      {
        var service :| service in todo;
        SetServingStatusLocked(service, servingStatus);
        todo := todo - {service};
      }
      mutex := Free;
      Record(Unlock);
    }

    method Shutdown()
      requires Valid() && mutex.Free?
      modifies this
      ensures Valid() && mutex.Free? && old(trace) + [BeginShutdown] <= trace && shutdown
      ensures statusMap.Keys == old(statusMap).Keys && updates == old(updates) && ViewsAgree()
      ensures forall service :: service in statusMap ==> statusMap[service] == NOT_SERVING
    {
      shutdown := true;
      mutex := Held(NOT_SERVING, statusMap.Keys, {}, None);
      Record(BeginShutdown);
      SetAllLocked(NOT_SERVING);
      AgreeWhenFree();
    }

    method Resume()
      requires Valid() && mutex.Free?
      modifies this
      ensures Valid() && mutex.Free? && old(trace) + [BeginResume] <= trace && !shutdown
      ensures statusMap.Keys == old(statusMap).Keys && updates == old(updates) && ViewsAgree()
      ensures forall service :: service in statusMap ==> statusMap[service] == SERVING
    {
      shutdown := false;
      mutex := Held(SERVING, statusMap.Keys, {}, None);
      Record(BeginResume);
      SetAllLocked(SERVING);
      AgreeWhenFree();
    }
  }
}
