/** One health monitor and the handler its results are sent to. */
module HealthMonitor {
  import opened Common
  import opened Pods

  datatype MonitoringState = Unknown | Healthy | Unhealthy

  /** What a result carries: nothing, a pointer to a pod status (possibly nil), or something
      the handler does not understand. */
  datatype Data = NoData | StatusData(status: Option<PodStatus>) | OtherData

  datatype CheckResult = CheckResult(monitor: nat, failed: bool, data: Data)

  // ------------------------------------------------------- failure counting

  /** A monitor's counter and state. */
  datatype Tally = Tally(failures: nat, state: MonitoringState)

  const Fresh: Tally := Tally(0, Unknown)

  /** What one result does to them. */
  function Count(t: Tally, failed: bool, threshold: int): Tally {
    if !failed then Tally(0, Healthy)
    else if t.failures + 1 >= threshold then Tally(t.failures + 1, Unhealthy)
    else t.(failures := t.failures + 1)
  }

  function CountAll(history: seq<bool>, threshold: int): Tally {
    if history == [] then Fresh else Count(CountAll(Front(history), threshold), Last(history), threshold)
  }

  /** Are the last `k` results of the history all failures? */
  predicate EndsInFailures(history: seq<bool>, k: nat) {
    k <= |history| && forall i :: |history| - k <= i < |history| ==> history[i]
  }

  /** The length of the run of failures at the end of the history. */
  ghost predicate IsTrailingRun(history: seq<bool>, k: nat) {
    EndsInFailures(history, k) && !EndsInFailures(history, k + 1)
  }

  /** A failure threshold below one acts like one. */
  function Effective(threshold: int): nat {
    if threshold < 1 then 1 else threshold
  }

  lemma EndsInFailuresExtend(h: seq<bool>, x: bool, k: nat)
    ensures EndsInFailures(h + [x], k + 1) <==> x && EndsInFailures(h, k)
  {
    var g := h + [x];
    assert x == g[|h|];
    if EndsInFailures(g, k + 1) {
      forall i | |h| - k <= i < |h| ensures h[i] {
        assert g[i];
      }
    }
  }

  lemma ShorterRun(h: seq<bool>, j: nat, k: nat)
    ensures j <= k && EndsInFailures(h, k) ==> EndsInFailures(h, j)
  {
  }

  /** The counter is the length of the trailing run of failures, and the state is a function of
      the history: unhealthy exactly when that run has reached the threshold, else healthy if
      anything ever succeeded, else unknown. */
  lemma {:induction false} TallyIsFunctionOfHistory(history: seq<bool>, threshold: int)
    ensures var t := CountAll(history, threshold);
            && IsTrailingRun(history, t.failures)
            && (t.state == Unhealthy <==> t.failures >= Effective(threshold))
            && (t.state == Healthy <==> t.failures < Effective(threshold) && false in history)
  {
    if history != [] {
      var h, x := Front(history), Last(history);
      TallyIsFunctionOfHistory(h, threshold);
      var k := CountAll(h, threshold).failures;
      assert history == h + [x];
      EndsInFailuresExtend(h, x, k);
      EndsInFailuresExtend(h, x, k + 1);
      EndsInFailuresExtend(h, x, 0);
    }
  }

  /** There is only one such run, so the counter is determined by the history. */
  lemma TrailingRunIsUnique(history: seq<bool>, j: nat, k: nat)
    requires IsTrailingRun(history, j) && IsTrailingRun(history, k)
    ensures j == k
  {
    ShorterRun(history, j + 1, k);
    ShorterRun(history, k + 1, j);
  }

  class Monitor {
    const id: nat
    const pod: Pod
    const threshold: int
    var failures: nat
    var state: MonitoringState
    var isMonitoring: bool
    ghost var history: seq<bool>

    /** The counter and the state reflect every result since the monitor was made. */
    ghost predicate Valid()
      reads this
    {
      Tally(failures, state) == CountAll(history, threshold)
    }

    constructor (id: nat, pod: Pod, threshold: int)
      ensures Valid() && history == [] && !isMonitoring && state == Unknown
      ensures this.id == id && this.pod == pod && this.threshold == threshold
    {
      this.id, this.pod, this.threshold := id, pod, threshold;
      failures, state, isMonitoring := 0, Unknown, false;
      history := [];
    }

    method ResetFailures()
      modifies this`failures, this`state
      ensures failures == 0 && state == Healthy
    {
      failures := 0;
      state := Healthy;
    }

    method IncrementFailures(unhealthyThreshold: int)
      modifies this`failures, this`state
      ensures failures == old(failures) + 1
      ensures state == if failures >= unhealthyThreshold then Unhealthy else old(state)
    {
      failures := failures + 1;
      if failures >= unhealthyThreshold {
        state := Unhealthy;
      }
    }

    method NewCheckResult(failed: bool, data: Data) returns (result: CheckResult)
      requires Valid()
      modifies this`failures, this`state, this`history
      ensures result == CheckResult(id, failed, data)
      ensures Valid() && history == old(history) + [failed]
      ensures IsTrailingRun(history, failures)
      ensures state == Unhealthy <==> failures >= Effective(threshold)
      ensures state == Healthy <==> failures < Effective(threshold) && false in history
    {
      if failed {
        IncrementFailures(threshold);
      } else {
        ResetFailures();
      }
      FrontAppend(history, failed);
      history := history + [failed];
      TallyIsFunctionOfHistory(history, threshold);
      result := CheckResult(id, failed, data);
    }

    /** The loop of a check monitor: it checks and hands the result over until the cancellation is
        seen; the result in hand at that moment is not sent.  What it finds and when it is
        cancelled is not up to it. */
    method CheckLoop() returns (sent: seq<CheckResult>)
      requires Valid()
      modifies this
      ensures state == Unknown && !isMonitoring
      ensures old(history) <= history && |history| == |old(history)| + |sent| + 1
      ensures forall k :: 0 <= k < |sent| ==> sent[k].monitor == id && sent[k].failed == history[|old(history)| + k]
      ensures IsTrailingRun(history, failures)
    {
      hide CountAll, IsTrailingRun;
      sent := [];
      isMonitoring := true;
      var rounds :| 0 <= rounds;
      for round := 0 to rounds
        invariant Valid() && old(history) <= history && |sent| == round
        invariant |history| == |old(history)| + |sent|
        invariant forall k :: 0 <= k < |sent| ==> sent[k].monitor == id && sent[k].failed == history[|old(history)| + k]
      {
        var failed: bool, data: Data := *, *;
        var result := NewCheckResult(failed, data);
        sent := sent + [result];
      }
      var failed: bool, data: Data := *, *;
      var unsent := NewCheckResult(failed, data);
      MarkStopped();
    }

    /** What a monitoring loop does on its way out: the counter survives, the state does not. */
    method MarkStopped()
      modifies this`state, this`isMonitoring
      ensures state == Unknown && !isMonitoring
    {
      state := Unknown;
      isMonitoring := false;
    }
  }

  // ------------------------------------------------------- handling results

  /** The status a pod has after one more result: the reported one, but with the addresses the
      provider set. */
  function Absorb(status: PodStatus, data: Data): PodStatus {
    if data.StatusData? && data.status.Some? then
      data.status.value.(podIP := status.podIP, podIPs := status.podIPs, hostIP := status.hostIP)
    else status
  }

  predicate CarriesStatus(data: Data) {
    data.StatusData? && data.status.Some?
  }

  /** The registered callback towards the virtual kubelet; it remembers what it was told. */
  class Notifier {
    ghost var calls: seq<(Pod, PodStatus)>

    constructor ()
      ensures calls == []
    {
      calls := [];
    }

    method Notify(pod: Pod)
      modifies this
      ensures calls == old(calls) + [(pod, pod.status)]
    {
      calls := calls + [(pod, pod.status)];
    }
  }

  datatype Outcome = Handled | NilDereference

  class CheckHandler {
    var isReceiving: bool

    constructor ()
      ensures !isReceiving
    {
      isReceiving := false;
    }

    /** Fails exactly on a nil pod status wrapped in a result; otherwise overwrites the pod's
        status and notifies once if the result carries one, and does nothing if not. */
    method HandleCheckResult(pod: Pod, result: CheckResult, notifier: Notifier?) returns (outcome: Outcome)
      modifies pod`status, notifier
      ensures outcome == NilDereference <==> result.data == StatusData(None)
      ensures pod.status == Absorb(old(pod.status), result.data)
      ensures match result.data
              case StatusData(Some(reported)) =>
                && pod.status.phase == reported.phase && pod.status.reason == reported.reason
                && pod.status.containers == reported.containers
                && pod.status.podIP == old(pod.status.podIP) && pod.status.podIPs == old(pod.status.podIPs)
                && pod.status.hostIP == old(pod.status.hostIP)
                && (notifier != null ==> notifier.calls == old(notifier.calls) + [(pod, pod.status)])
              case _ =>
                && pod.status == old(pod.status)
                && (notifier != null ==> notifier.calls == old(notifier.calls))
    {
      if result.data != NoData {
        if result.data.StatusData? {
          if result.data.status.None? {
            return NilDereference;
          }
          var podStatus := result.data.status.value;
          podStatus := podStatus.(podIP := pod.status.podIP);
          podStatus := podStatus.(podIPs := pod.status.podIPs);
          podStatus := podStatus.(hostIP := pod.status.hostIP);
          pod.status := podStatus;
          if notifier != null {
            notifier.Notify(pod);
          }
        }
      }
      outcome := Handled;
    }
  }

  /** The status after a sequence of results. */
  function AbsorbAll(status: PodStatus, results: seq<CheckResult>): PodStatus {
    if results == [] then status else Absorb(AbsorbAll(status, Front(results)), Last(results).data)
  }

  /** The statuses a set notifier is called with. */
  function Notifications(status: PodStatus, results: seq<CheckResult>): seq<PodStatus> {
    if results == [] then []
    else
      Notifications(status, Front(results)) +
      if CarriesStatus(Last(results).data) then [AbsorbAll(status, results)] else []
  }

  /** The position of the last result that carries a status. */
  ghost predicate IsLastReport(results: seq<CheckResult>, k: int) {
    && 0 <= k < |results| && CarriesStatus(results[k].data)
    && forall i :: k < i < |results| ==> !CarriesStatus(results[i].data)
  }

  /** Is the status, but for the addresses, the reported one? */
  predicate TakenOver(status: PodStatus, data: Data) {
    match data
    case StatusData(Some(reported)) =>
      status.phase == reported.phase && status.reason == reported.reason && status.containers == reported.containers
    case _ => false
  }

  /** Folding any sequence of results leaves the pod with its own addresses and otherwise with
      the last reported status, whatever was reported before. */
  lemma {:induction false} LastReportWins(status: PodStatus, results: seq<CheckResult>)
    ensures var s := AbsorbAll(status, results);
            && s.podIP == status.podIP && s.podIPs == status.podIPs && s.hostIP == status.hostIP
            && (forall k :: 0 <= k < |results| && IsLastReport(results, k) ==>
                  match results[k].data
                  case StatusData(Some(reported)) =>
                    s.phase == reported.phase && s.reason == reported.reason && s.containers == reported.containers
                  case _ => false)
            && ((forall i :: 0 <= i < |results| ==> !CarriesStatus(results[i].data)) ==> s == status)
  {
    if results != [] {
      var front := Front(results);
      LastReportWins(status, front);
      assert forall i :: 0 <= i < |front| ==> front[i] == results[i];
      forall k | IsLastReport(results, k)
        ensures TakenOver(AbsorbAll(status, results), results[k].data)
      {
        if k < |front| {
          assert IsLastReport(front, k);
          assert !CarriesStatus(Last(results).data);
        }
      }
    }
  }
}
