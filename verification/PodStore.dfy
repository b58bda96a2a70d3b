/** The pod cache as an object, and what it keeps with each pod. */
module PodStore {
  import opened Common
  import opened Pods
  import opened PodCache

  /** Of a pod's monitoring only this matters here: has it been started, and has it been stopped
      since?  Its goroutines are the subject of `MonitorProtocol`. */
  class PodMonitor {
    var started: bool
    var stopped: bool

    constructor ()
      ensures !started && !stopped
    {
      started, stopped := false, false;
    }

    method Start()
      modifies this
      ensures started && !stopped
    {
      started, stopped := true, false;
    }

    /** Stopping calls the cancel function that only starting provides. */
    method Stop() returns (panicked: bool)
      modifies this
      ensures panicked <==> !old(started)
      ensures started == old(started) && stopped == (old(stopped) || !panicked)
    {
      if !started {
        return true;
      }
      stopped := true;
      return false;
    }
  }

  class MetaPod {
    var pod: Pod
    var monitor: PodMonitor?

    constructor (pod: Pod, monitor: PodMonitor?)
      ensures this.pod == pod && this.monitor == monitor
    {
      this.pod, this.monitor := pod, monitor;
    }
  }

  /** The pod of this entry is being monitored. */
  ghost predicate Monitored(m: MetaPod)
    reads m, m.monitor
  {
    m.monitor != null && m.monitor.started && !m.monitor.stopped
  }

  function InfoOf(pod: Pod): PodInfo
    reads pod
  {
    PodInfo(pod.namespace, pod.name, pod.uid, pod.instanceId, pod.status)
  }

  /** Nothing that the provider reads of a pod is left out. */
  lemma InfoTellsThePod(a: Pod, b: Pod)
    ensures InfoOf(a) == InfoOf(b) <==>
            && a.namespace == b.namespace && a.name == b.name && a.uid == b.uid
            && a.instanceId == b.instanceId && a.status == b.status
  {
  }

  function InfosOf(list: seq<Pod>): seq<PodInfo>
    reads list
  {
    seq(|list|, i requires 0 <= i < |list| reads list => InfoOf(list[i]))
  }

  ghost function AnnotationsOf(entries: map<string, MetaPod>): map<string, string>
    reads entries.Values, set key | key in entries :: entries[key].pod
  {
    map key | key in entries :: entries[key].pod.instanceId
  }

  lemma SplitAnnotations(entries: map<string, MetaPod>, key: string)
    ensures AnnotationsOf(entries) - {key} == AnnotationsOf(entries - {key})
    ensures AnnotationsOf(entries) ==
            if key in entries then AnnotationsOf(entries - {key})[key := entries[key].pod.instanceId]
            else AnnotationsOf(entries - {key})
  {
  }

  lemma SameAnnotations(entries: map<string, MetaPod>, annotations: map<string, string>)
    requires entries.Keys == annotations.Keys
    requires forall key :: key in entries ==> entries[key].pod.instanceId == annotations[key]
    ensures AnnotationsOf(entries) == annotations
  {
  }

  lemma CachedAnnotations(entries: map<string, MetaPod>, key: string, metaPod: MetaPod)
    ensures AnnotationsOf(entries[key := metaPod]) == AnnotationsOf(entries - {key})[key := metaPod.pod.instanceId]
  {
  }

  /** A pod is cached under its own key only. */
  lemma NotElsewhere(cache: Cache, pod: Pod)
    requires cache.Valid()
    ensures forall key :: key in cache.pods - {GetPodCacheKey(pod.namespace, pod.name)} ==> cache.pods[key].pod != pod
  {
    hide GetPodCacheKey;
  }

  lemma UpdateOf(m: Contents, key: string, info: PodInfo)
    requires key == KeyOf(info)
    ensures Perform(m, UpdateIfPresent(info)) == if key in m then m[key := info] else m
  {
  }

  class Cache {
    var pods: map<string, MetaPod>

    /** Each entry sits under the key of its pod; so no two keys share an entry. */
    ghost predicate Valid()
      reads this, pods.Values
    {
      forall key :: key in pods ==> key == GetPodCacheKey(pods[key].pod.namespace, pods[key].pod.name)
    }

    /** The instance-id annotations of the cached pods. */
    ghost function Annotations(): map<string, string>
      reads this, pods.Values, set key | key in pods :: pods[key].pod
    {
      AnnotationsOf(pods)
    }

    ghost function View(): Contents
      reads this, pods.Values, set key | key in pods :: pods[key].pod
    {
      map key | key in pods :: InfoOf(pods[key].pod)
    }

    constructor ()
      ensures Valid() && pods == map[]
    {
      pods := map[];
    }

    method Lookup(key: string) returns (metaPod: MetaPod?)
      ensures metaPod == if key in pods then pods[key] else null
    {
      if key in pods {
        return pods[key];
      }
      return null;
    }

    method Set(key: string, val: MetaPod)
      requires Valid() && key == GetPodCacheKey(val.pod.namespace, val.pod.name)
      modifies this
      ensures Valid() && pods == old(pods)[key := val]
      ensures View() == Perform(old(View()), SetPod(InfoOf(val.pod)))
    {
      hide GetPodCacheKey;
      pods := pods[key := val];
    }

    /** Replaces the pod inside the entry; fails, without effect, if there is none. */
    method UpdatePod(key: string, pod: Pod) returns (err: bool)
      requires Valid() && key == GetPodCacheKey(pod.namespace, pod.name)
      modifies this, if key in pods then {pods[key]} else {}
      ensures Valid() && pods == old(pods) && (err <==> key !in pods)
      ensures key in pods ==> pods[key].pod == pod && pods[key].monitor == old(pods[key].monitor)
      ensures View() == Perform(old(View()), UpdateIfPresent(InfoOf(pod)))
    {
      hide GetPodCacheKey, Perform;
      UpdateOf(View(), key, InfoOf(pod));
      var metaPod := Lookup(key);
      if metaPod == null {
        return true;
      }
      metaPod.pod := pod;
      pods := pods[key := metaPod];
      assert pods == old(pods);
      return false;
    }

    method Delete(namespace: string, name: string)
      requires Valid()
      modifies this
      ensures Valid() && pods == old(pods) - {GetPodCacheKey(namespace, name)}
      ensures View() == Perform(old(View()), DeletePod(namespace, name))
    {
      hide GetPodCacheKey;
      pods := pods - {GetPodCacheKey(namespace, name)};
    }

    /** Caches a copy of the pod, without a monitor. */
    method Rehydrate(pod: Pod)
      requires Valid()
      modifies this
      ensures Valid() && View() == Perform(old(View()), SetPod(InfoOf(pod)))
      ensures var key := GetPodCacheKey(pod.namespace, pod.name);
              && pods.Keys == old(pods).Keys + {key}
              && fresh(pods[key]) && fresh(pods[key].pod) && pods[key].monitor == null
              && pods[key].pod.namespace == pod.namespace && pods[key].pod.name == pod.name
              && pods[key].pod.uid == pod.uid && pods[key].pod.instanceId == pod.instanceId
              && pods[key].pod.status == pod.status
              && forall other :: other in pods && other != key ==> pods[other] == old(pods)[other]
    {
      hide GetPodCacheKey;
      var copy := new Pod(pod.namespace, pod.name, pod.uid, pod.instanceId, pod.status);
      var metaPod := new MetaPod(copy, null);
      Set(GetPodCacheKey(pod.namespace, pod.name), metaPod);
    }

    /** Loads copies of the listed pods; of those under the same key the last one stays. */
    method PopulateFrom(podList: seq<Pod>)
      requires Valid()
      modifies this
      ensures Valid()
      ensures View() == Perform(old(View()), Populate(InfosOf(podList)))
      ensures forall i :: 0 <= i < |podList| && LastOfItsKey(InfosOf(podList), i) ==>
                var key := GetPodCacheKey(podList[i].namespace, podList[i].name);
                key in pods && InfoOf(pods[key].pod) == InfoOf(podList[i])
    {
      hide GetPodCacheKey, Cache.Valid;
      ghost var before := View();
      ghost var infos := InfosOf(podList);
      for i := 0 to |podList|
        invariant Valid() && infos == InfosOf(podList)
        invariant View() == SetAll(before, infos[..i])
      {
        FrontAppend(infos[..i], infos[i]);
        assert infos[..i + 1] == infos[..i] + [infos[i]];
        Rehydrate(podList[i]);
      }
      assert infos[..|podList|] == infos;
      forall i | 0 <= i < |podList| && LastOfItsKey(infos, i)
        ensures var key := KeyOf(infos[i]);
                key in View() && View()[key] == infos[i]
      {
        LastListedStays(before, infos, i);
      }
    }

    /** Gives the pod of each entry a monitoring of its own and starts it. */
    method StartMonitors()
      requires Valid()
      modifies pods.Values
      ensures Valid()
      ensures forall key :: key in pods ==> Monitored(pods[key]) && fresh(pods[key].monitor)
      ensures forall key :: key in pods ==> pods[key].pod == old(pods[key].pod)
    {
      hide GetPodCacheKey;
      var todo := pods.Keys;
      while todo != {}
        invariant todo <= pods.Keys
        invariant forall key :: key in pods ==> pods[key].pod == old(pods[key].pod)
        invariant forall key :: key in pods && key !in todo ==> Monitored(pods[key]) && fresh(pods[key].monitor)
        decreases todo
      {
        var key :| key in todo;
        var metaPod := pods[key];
        var monitor := new PodMonitor();
        monitor.Start();
        metaPod.monitor := monitor;
        todo := todo - {key};
      }
    }

    /** The cached pods, each once, in no particular order. */
    method GetPodList() returns (podList: seq<Pod>)
      ensures |podList| == |pods|
      ensures forall key :: key in pods ==> pods[key].pod in podList
      ensures forall i :: 0 <= i < |podList| ==> exists key :: key in pods && pods[key].pod == podList[i]
    {
      podList := [];
      var todo := pods.Keys;
      while todo != {}
        invariant todo <= pods.Keys && |podList| + |todo| == |pods.Keys|
        invariant forall key :: key in pods && key !in todo ==> pods[key].pod in podList
        invariant forall i :: 0 <= i < |podList| ==> exists key :: key in pods && pods[key].pod == podList[i]
        decreases todo
      {
        var key :| key in todo;
        podList := podList + [pods[key].pod];
        todo := todo - {key};
      }
    }
  }
}
