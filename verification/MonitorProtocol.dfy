/** The goroutines of one pod's health monitoring: the receiver of the check handler, one loop
    per monitor, the wait group that counts them, and the cancellation that `Stop` waits on.
    All results travel over one unbuffered channel, so handing one over is a single step of
    the sender and the receiver together. */
module MonitorProtocol {
  import opened Common
  import opened Pods
  import opened HealthMonitor

  datatype Kind = Watch | Check

  /** What `getStream` returned: a stream of the agent's or the application's health, nil, or
      a stream of some other type. */
  datatype Stream = AgentStream | AppStream | NilStream | OtherStream

  /** Where a monitor's loop is. */
  datatype Place =
    | NotStarted
    | Connecting                                 // about to call getStream
    | AtSelect(stream: Stream)                   // about to look at the context
    | Receiving(stream: Stream)                  // inside Recv
    | ReceiveFailed(stream: Stream)              // Recv returned an error
    | Sending(result: CheckResult, next: Place)  // at the channel, and where it goes from there
    | Sleeping(next: Place)
    | Checking                                   // inside the check function
    | Exiting                                    // state reset, deferred wait-group decrement pending
    | Done

  datatype Goroutine = Goroutine(kind: Kind, place: Place, tally: Tally, isMonitoring: bool)

  datatype Receiver = Idle | Selecting | Handling(result: CheckResult) | Leaving | Gone

  datatype Stopper = NotStopping | Awaiting | Returned

  /** `outside`: is the handler, and so the channel, shared with other pods?  All pods created by
      the provider share its default handler. */
  datatype Config = Config(outside: bool, threshold: int, kinds: seq<Kind>, status: PodStatus)

  datatype System = System(
    started: nat,
    monitors: seq<Goroutine>,
    receiver: Receiver,
    isReceiving: bool,
    waitGroup: int,
    cancelled: bool,
    stopper: Stopper,
    listening: bool,                             // is any other pod's receiver on the channel now?
    elsewhere: seq<CheckResult>,                 // results of this pod in the hands of other pods' receivers
    status: PodStatus,
    notified: seq<PodStatus>)

  datatype Event =
    | StartReceiver
    | StartMonitor(i: nat)
    | GotStream(i: nat, stream: Stream)
    | BeginReceive(i: nat)
    | FailReceive(i: nat)
    | Produce(i: nat, result: CheckResult)
    | Ignore(i: nat)
    | HandOver(i: nat)
    | HandOverOutside(i: nat)
    | Wake(i: nat)
    | Exit(i: nat)
    | WgDone(i: nat)
    | TakeOutside(result: CheckResult)
    | HandleOutside(k: nat)
    | FlagOutside(on: bool)
    | ListenOutside(on: bool)
    | Handle
    | ReceiverExit
    | ReceiverWgDone
    | Cancel
    | StopReturns

  function Initial(c: Config): System {
    System(0, seq(|c.kinds|, i requires 0 <= i < |c.kinds| => Goroutine(c.kinds[i], NotStarted, Fresh, false)),
           Idle, false, 0, false, NotStopping, false, [], c.status, [])
  }

  /** A step of a monitor's own goroutine. */
  predicate MonitorEvent(e: Event) {
    e.GotStream? || e.BeginReceive? || e.FailReceive? || e.Produce? || e.Ignore? || e.HandOver?
    || e.HandOverOutside? || e.Wake? || e.Exit? || e.WgDone?
  }

  predicate IsOf(e: Event, i: nat) {
    MonitorEvent(e) && e.i == i
  }

  predicate Typed(stream: Stream) {
    stream.AgentStream? || stream.AppStream?
  }

  /** The result the loop may build at this point, and where it goes after sending it. */
  predicate MayProduce(g: Goroutine, cancelled: bool, r: CheckResult) {
    match g.place
    case Receiving(AgentStream) => !r.failed && r.data == NoData
    case Receiving(AppStream) => !r.failed && CarriesStatus(r.data)
    case ReceiveFailed(AgentStream) => !cancelled && r.failed && r.data == OtherData
    case ReceiveFailed(AppStream) => !cancelled && r.failed && r.data == NoData
    case AtSelect(NilStream) => !cancelled && r.failed && r.data == NoData
    case Checking => r.data != StatusData(None)
    case _ => false
  }

  function AfterSending(g: Goroutine): Place {
    match g.place
    case Receiving(stream) => AtSelect(stream)
    case Checking => Sleeping(Checking)
    case _ => Sleeping(Connecting)
  }

  predicate Enabled(c: Config, s: System, e: Event) {
    match e
    case StartReceiver => s.receiver.Idle?
    case StartMonitor(i) => !s.receiver.Idle? && i == s.started < |s.monitors| && s.monitors[i].place.NotStarted?
    case Cancel => !s.receiver.Idle? && s.started == |s.monitors| && !s.cancelled
    case StopReturns => s.stopper.Awaiting? && s.waitGroup == 0
    case Handle => s.receiver.Handling?
    case TakeOutside(result) => c.outside && s.receiver.Selecting? && result.monitor >= |s.monitors|
    case HandleOutside(k) => k < |s.elsewhere|
    // the flag is on the shared handler: other pods' starts and stops write it too
    case FlagOutside(_) => c.outside
    // other pods' receivers come and go with their own starts and stops
    case ListenOutside(_) => c.outside
    case ReceiverExit => s.cancelled && s.receiver.Selecting?
    case ReceiverWgDone => s.receiver.Leaving?
    case _ =>
      e.i < |s.monitors| && MonitorEnabled(c, s, s.monitors[e.i], e)
  }

  predicate MonitorEnabled(c: Config, s: System, g: Goroutine, e: Event) {
    match e
    case GotStream(_, _) => g.place.Connecting?
    case BeginReceive(_) => g.place.AtSelect? && Typed(g.place.stream) && !s.cancelled
    case FailReceive(_) => g.place.Receiving?
    case Produce(i, r) => r.monitor == i && MayProduce(g, s.cancelled, r)
    case Ignore(_) => g.place == AtSelect(OtherStream) && !s.cancelled
    case HandOver(_) => g.place.Sending? && s.receiver.Selecting?
    case HandOverOutside(_) => g.place.Sending? && s.listening
    case Wake(_) => g.place.Sleeping?
    case Exit(_) =>
      s.cancelled && (g.place.AtSelect? || g.place.ReceiveFailed? || (g.kind.Check? && g.place.Sending?))
    case WgDone(_) => g.place.Exiting?
    case _ => false
  }

  /** What a monitor's own step does to its goroutine. */
  function MonitorApply(c: Config, g: Goroutine, e: Event): Goroutine {
    match e
    case GotStream(_, stream) => g.(place := AtSelect(stream))
    case BeginReceive(_) => if g.place.AtSelect? then g.(place := Receiving(g.place.stream)) else g
    case FailReceive(_) => if g.place.Receiving? then g.(place := ReceiveFailed(g.place.stream)) else g
    case Produce(_, r) =>
      g.(place := Sending(r, AfterSending(g)), tally := Count(g.tally, r.failed, c.threshold))
    case Ignore(_) => g.(place := Sleeping(AtSelect(OtherStream)))
    case HandOver(_) => if g.place.Sending? then g.(place := g.place.next) else g
    case HandOverOutside(_) => if g.place.Sending? then g.(place := g.place.next) else g
    case Wake(_) => if g.place.Sleeping? then g.(place := g.place.next) else g
    case Exit(_) => g.(place := Exiting, tally := g.tally.(state := Unknown), isMonitoring := false)
    case WgDone(_) => g.(place := Done)
    case _ => g
  }

  function Apply(c: Config, s: System, e: Event): System
    requires Enabled(c, s, e)
  {
    match e
    case StartReceiver => s.(receiver := Selecting, isReceiving := true, waitGroup := s.waitGroup + 1)
    case StartMonitor(i) =>
      s.(started := i + 1, waitGroup := s.waitGroup + 1,
         monitors := s.monitors[i := s.monitors[i].(
           place := if s.monitors[i].kind.Watch? then Connecting else Checking, isMonitoring := true)])
    case Cancel => s.(cancelled := true, stopper := Awaiting)
    case StopReturns => s.(stopper := Returned)
    case Handle =>
      var r := s.receiver.result;
      if r.monitor < |s.monitors| then Absorbing(s, r).(receiver := Selecting) else s.(receiver := Selecting)
    case HandleOutside(k) =>
      Absorbing(s, s.elsewhere[k]).(elsewhere := s.elsewhere[..k] + s.elsewhere[k + 1..])
    case FlagOutside(on) => s.(isReceiving := on)
    case ListenOutside(on) => s.(listening := on)
    case TakeOutside(result) => s.(receiver := Handling(result))
    case ReceiverExit => s.(receiver := Leaving, isReceiving := false)
    case ReceiverWgDone => s.(receiver := Gone, waitGroup := s.waitGroup - 1)
    case _ =>
      var g := s.monitors[e.i];
      s.(monitors := s.monitors[e.i := MonitorApply(c, g, e)],
         receiver := ReceiverAfter(s.receiver, g, e),
         elsewhere := s.elsewhere + if e.HandOverOutside? && g.place.Sending? then [g.place.result] else [],
         waitGroup := if e.WgDone? then s.waitGroup - 1 else s.waitGroup)
  }

  /** What handling a result of this pod does to the pod, whoever handles it. */
  function Absorbing(s: System, r: CheckResult): System {
    var status := Absorb(s.status, r.data);
    s.(status := status, notified := s.notified + if CarriesStatus(r.data) then [status] else [])
  }

  function ReceiverAfter(r: Receiver, g: Goroutine, e: Event): Receiver {
    if e.HandOver? && g.place.Sending? then Handling(g.place.result) else r
  }

  // ------------------------------------------------------------------ runs

  ghost predicate Run(c: Config, t: seq<Event>)
    decreases |t|, 0
  {
    t == [] || (Run(c, Front(t)) && Enabled(c, StateAfter(c, Front(t)), Last(t)))
  }

  ghost function StateAfter(c: Config, t: seq<Event>): System
    requires Run(c, t)
    decreases |t|, 1
  {
    if t == [] then Initial(c) else Apply(c, StateAfter(c, Front(t)), Last(t))
  }

  lemma RunExtend(c: Config, t: seq<Event>, e: Event)
    requires Run(c, t) && Enabled(c, StateAfter(c, t), e)
    ensures Run(c, t + [e]) && StateAfter(c, t + [e]) == Apply(c, StateAfter(c, t), e)
  {
    FrontAppend(t, e);
  }

  function ProducedStep(p: seq<CheckResult>, e: Event, i: nat): seq<CheckResult> {
    if e.Produce? && e.i == i then p + [e.result] else p
  }

  /** The results monitor `i` has produced, in order. */
  function Produced(t: seq<Event>, i: nat): seq<CheckResult> {
    if t == [] then [] else ProducedStep(Produced(Front(t), i), Last(t), i)
  }

  ghost function HandledStep(h: seq<CheckResult>, s: System, e: Event): seq<CheckResult> {
    if e.Handle? && s.receiver.Handling? && s.receiver.result.monitor < |s.monitors| then h + [s.receiver.result]
    else if e.HandleOutside? && e.k < |s.elsewhere| then h + [s.elsewhere[e.k]]
    else h
  }

  /** The results of this pod's monitors that have been handled, by its own receiver or by that of
      another pod, in the order of their handling. */
  ghost function HandledResults(c: Config, t: seq<Event>): seq<CheckResult>
    requires Run(c, t)
  {
    if t == [] then [] else HandledStep(HandledResults(c, Front(t)), StateAfter(c, Front(t)), Last(t))
  }

  /** Those of monitor `i` among them. */
  function Of(results: seq<CheckResult>, i: nat): seq<CheckResult> {
    if results == [] then []
    else if Last(results).monitor == i then Of(Front(results), i) + [Last(results)]
    else Of(Front(results), i)
  }
}
