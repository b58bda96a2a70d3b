/** The pod lifecycle: creating, updating and deleting pods ties together the cache, the
    instances, their tags and the monitoring. */
module Provider {
  import opened Cloud
  import opened WarmPool
  import opened PoolDepth
  import opened PoolManager
  import opened Allocation
  import opened Lifecycle
  import opened Pods
  import opened PodCache
  import opened PodStore
  import opened ComputeManagement

  // ------------------------------------------------------------ what the calls add up to

  lemma AfterIs(me: Identity, usesPool: bool, tag: Reason, s: System, key: PodKey, a: Id, o: Compute,
                c': Instances, p': Pool, a': Id, res: Creation)
    requires ComputeDone(me, tag, s.cloud, s.pool, a, o, c', p', a') && res.compute == o
    ensures a' == if o.PoolEmpty? || o.NotLaunched? then a else o.id
    ensures res.NoCompute? ==> StartedCloud(me, usesPool, c', a', res) == c'
    ensures After(me, usesPool, tag, s, key, a, res) ==
            System(StartedCloud(me, usesPool, c', a', res), p',
                   if StaysCached(res) then s.pods[key := a'] else s.pods - {key})
  {
    hide PopulateTags, ComputedCloud, ComputedPool, Cloud.Terminated;
  }

  lemma SetAndForget<T>(m: map<string, T>, key: string, value: T)
    ensures m[key := value] - {key} == m - {key}
  {
  }

  lemma EmptyIdIsUnknown(p: Pool, c: Instances)
    requires Known(p, c)
    ensures "" !in c
  {
  }

  lemma TerminatedStaysKnown(p: Pool, c: Instances, ids: set<Id>)
    requires Known(p, c)
    ensures Known(p, Cloud.Terminated(c, ids))
  {
  }

  /** The status of a deleted pod. */
  function DeletedStatus(status: PodStatus): PodStatus {
    status.(phase := "Succeeded", reason := "ProviderPodDeleted",
            containers := ContainersEnded(status.containers, "Pod deletion requested", ""))
  }

  function ContainersEnded(containers: seq<ContainerStatus>, message: string, reason: string): seq<ContainerStatus> {
    seq(|containers|, i requires 0 <= i < |containers| =>
          ContainerEnded(containers[i], message, reason))
  }

  function ContainerEnded(c: ContainerStatus, message: string, reason: string): ContainerStatus {
    ContainerStatus(c.name, false, ContainerState.Terminated(message, reason))
  }

  /** Only the last of the two status updates of a deletion is visible in the end: the pod has
      succeeded, for the reason that it was deleted, none of its containers is ready and all have
      ended by request; names and addresses stay. */
  lemma DeletedStatusPrevails(status: PodStatus, phase: string, reason: string, m: string, r: string)
    ensures var first := status.(phase := phase, reason := reason,
                                 containers := ContainersEnded(status.containers, m, r));
            var last := DeletedStatus(first);
            && last == DeletedStatus(status)
            && last == status.(phase := "Succeeded", reason := "ProviderPodDeleted", containers := last.containers)
            && |last.containers| == |status.containers|
            && forall i :: 0 <= i < |status.containers| ==>
                 last.containers[i] ==
                 ContainerStatus(status.containers[i].name, false,
                                 ContainerState.Terminated("Pod deletion requested", ""))
  {
    var ended := ContainersEnded(status.containers, m, r);
    assert ContainersEnded(ended, "Pod deletion requested", "") ==
        ContainersEnded(status.containers, "Pod deletion requested", "");
  }

  lemma TagsSpelledOut(tags: Tags, pod: Pod, status: PoolStatus)
    ensures NamesPod(tags, pod) ==>
              && WarmpoolPodName in tags && tags[WarmpoolPodName] == Text(pod.name)
              && WarmpoolPodNamespace in tags && tags[WarmpoolPodNamespace] == Text(pod.namespace)
              && WarmpoolPodUid in tags && tags[WarmpoolPodUid] == Text(pod.uid)
    ensures HasStatus(tags, status) ==> WarmpoolStatus in tags && tags[WarmpoolStatus] == Status(status)
  {
  }

  class Ec2Provider {
    const ec2: Ec2
    const warmPool: WarmPoolManager
    const computeManager: ComputeManager
    var pods: Cache
    /** What the pod notifier has been called with. */
    var notified: seq<PodInfo>
    /** How often an agent could not be reached or refused to launch an application. */
    ghost var agentFaults: nat

    ghost predicate Valid()
      reads this, pods, pods.pods.Values, warmPool, ec2
    {
      warmPool.ec2 == ec2 && computeManager.ec2 == ec2 && warmPool.Valid() && pods.Valid()
    }

    ghost function State(): System
      reads this, ec2, warmPool, pods, pods.pods.Values, set key | key in pods.pods :: pods.pods[key].pod
    {
      System(ec2.instances, warmPool.State(), pods.Annotations())
    }

    predicate UsesPool() {
      |warmPool.configs| > 0
    }

    constructor (warmPool: WarmPoolManager, pods: Cache)
      requires warmPool.Valid() && pods.Valid()
      ensures Valid() && this.warmPool == warmPool && this.pods == pods && notified == []
      ensures State() == System(warmPool.ec2.instances, warmPool.State(), pods.Annotations())
    {
      this.ec2, this.warmPool, this.pods, this.notified := warmPool.ec2, warmPool, pods, [];
      this.agentFaults := 0;
      this.computeManager := new ComputeManager(warmPool.ec2);
    }

    /** Asks the agent on the instance to launch the pod's application.  If that fails the
        instance is terminated, as far as possible, and the pod forgotten. */
    method LaunchApplication(pod: Pod) returns (err: bool, ghost terminated: bool)
      requires Valid()
      modifies this`agentFaults, pods, ec2
      ensures Valid() && ec2.faults >= old(ec2.faults)
      ensures agentFaults == old(agentFaults) + if err then 1 else 0
      ensures err && !terminated ==> ec2.faults > old(ec2.faults)
      ensures !err ==> pods.pods == old(pods.pods) && ec2.instances == old(ec2.instances)
      ensures var key := GetPodCacheKey(pod.namespace, pod.name);
              pods.Annotations() == if err then old(pods.Annotations()) - {key} else old(pods.Annotations())
      ensures err ==>
        && pods.pods == old(pods.pods) - {GetPodCacheKey(pod.namespace, pod.name)}
        && ec2.instances ==
            (if terminated then Cloud.Terminated(old(ec2.instances), {pod.instanceId}) else old(ec2.instances))
        && ec2.instances.Keys == old(ec2.instances).Keys
        && (forall id :: id in ec2.instances ==>
              ec2.instances[id] ==
              if terminated && id == pod.instanceId then old(ec2.instances)[id].(run := Dead)
              else old(ec2.instances)[id])
    {
      hide GetPodCacheKey, Cloud.Terminated, KeysMatch, Perform, AnnotationsOf, Known, PoolSound, Cache.Valid,
        Cache.View,
        WarmPoolManager.State;
      EmptyIdIsUnknown(warmPool.State(), ec2.instances);
      SplitAnnotations(pods.pods, GetPodCacheKey(pod.namespace, pod.name));
      terminated := false;
      err := *;
      if err {
        agentFaults := agentFaults + 1;
        var err2 := computeManager.DeleteCompute(pod);
        terminated := !err2;
        TerminatedStaysKnown(warmPool.State(), old(ec2.instances), {pod.instanceId});
        pods.Delete(pod.namespace, pod.name);
      }
    }

    /** The second half of creating a pod, once it has an instance: the application, the in-use
        tag, the monitoring and the notification. */
    method StartPod(pod: Pod, podMonitor: PodMonitor, instanceID: Id, ghost o: Compute) returns (err: bool,
                    ghost res: Creation)
      requires Valid() && HasInstance(o) && instanceID == pod.instanceId && instanceID in ec2.instances
      modifies this`notified, this`agentFaults, pods, ec2, podMonitor
      ensures ec2.faults >= old(ec2.faults)
      ensures res.InUseTagFailed? || (res.AppFailed? && !res.terminated) ==> ec2.faults > old(ec2.faults)
      ensures agentFaults == old(agentFaults) + if res.AppFailed? then 1 else 0
      ensures Valid() && (err <==> !res.Created?) && res.compute == o && !res.NoCompute?
      ensures res.InUseTagFailed? ==> UsesPool()
      ensures pods.pods ==
          if res.AppFailed? then old(pods.pods) - {GetPodCacheKey(pod.namespace, pod.name)} else old(pods.pods)
      ensures var key := GetPodCacheKey(pod.namespace, pod.name);
              pods.Annotations() == if res.AppFailed? then old(pods.Annotations()) - {key} else old(pods.Annotations())
      ensures ec2.instances == StartedCloud(warmPool.me, UsesPool(), old(ec2.instances), pod.instanceId, res)
      ensures instanceID in ec2.instances && ec2.instances[instanceID].ip == old(ec2.instances)[instanceID].ip
      ensures res.AppFailed? && res.terminated ==> ec2.instances[instanceID].run == Dead
      ensures res.Created? && UsesPool() ==>
        && HasStatus(ec2.instances[instanceID].tags, PodInUse)
        && (NamesPod(old(ec2.instances)[instanceID].tags, pod) ==> NamesPod(ec2.instances[instanceID].tags, pod))
      ensures if res.Created? then podMonitor.started && !podMonitor.stopped else unchanged(podMonitor)
      ensures notified ==
          if res.Created? then
            old(notified) + [PodInfo(pod.namespace, pod.name, pod.uid, pod.instanceId, pod.status)]
          else old(notified)
    {
      hide GetPodCacheKey, Cloud.Terminated, KeysMatch, PopulateTags, Known, PoolSound, Cache.Valid, AnnotationsOf,
        WarmPoolManager.State, Cache.View, Perform, NamesPod, HasStatus;
      var appErr;
      ghost var terminated;
      appErr, terminated := LaunchApplication(pod);
      if appErr {
        return true, AppFailed(o, terminated);
      }
      if |warmPool.configs| > 0 {
        ghost var before := ec2.instances;
        var tagErr := warmPool.UpdateEC2Tags(instanceID, SetInUse);
        if tagErr {
          return true, InUseTagFailed(o);
        }
        InUseTagged(warmPool.me, pod, before, instanceID);
        TaggedStaysKnown(warmPool.State(), before, instanceID, PopulateTags(warmPool.me, SetInUse));
      }
      podMonitor.Start();
      notified := notified + [PodStore.InfoOf(pod)];
      return false, Created(o);
    }

    /** Caches the pod and gets it an instance; without one the pod is forgotten again. */
    method CacheAndGetCompute(pod: Pod, metaPod: MetaPod) returns (instanceID: Id, err: bool, ghost o: Compute)
      requires Valid() && metaPod.pod == pod
      modifies pods, warmPool, ec2, pod
      ensures Valid() && (err <==> !HasInstance(o)) && ec2.faults >= old(ec2.faults)
      ensures ec2.faults == old(ec2.faults) ==>
        Faultless(warmPool.me, ec2.pageSize, old(ec2.instances), old(pod.instanceId), o)
      ensures ComputePossible(warmPool.me, UsesPool(), old(ec2.instances), old(pod.instanceId), o)
      ensures ComputeDone(warmPool.me, PodTag(pod), old(ec2.instances), old(warmPool.State()), old(pod.instanceId), o,
                          ec2.instances, warmPool.State(), pod.instanceId)
      ensures var key := GetPodCacheKey(pod.namespace, pod.name);
              && pods.pods == (if err then old(pods.pods) - {key} else old(pods.pods)[key := metaPod])
              && AnnotationsOf(old(pods.pods) - {key}) == old(AnnotationsOf(pods.pods - {key}))
      ensures err && ec2.faults == old(ec2.faults) ==> UsesPool() && warmPool.ready == map[]
      ensures err && !o.PodTagFailed? ==> pod.status == old(pod.status)
      ensures o.PodTagFailed? ==>
        o.id in ec2.instances && pod.status == old(pod.status).(podIP := ec2.instances[o.id].ip)
      ensures !err ==>
        && instanceID == o.id && instanceID == pod.instanceId && instanceID in ec2.instances
        && var ip := if o.Reused? then old(pod.status.podIP) else ec2.instances[instanceID].ip;
           pod.status == old(pod.status).(podIP := ip, hostIP := ip)
      ensures o.FromPool? ==>
        && UsesPool() && instanceID in ec2.instances && HasStatus(ec2.instances[instanceID].tags, PendingPod)
        && NamesPod(ec2.instances[instanceID].tags, pod)
    {
      hide GetPodCacheKey, KeysMatch, Perform, PopulateTags, ComputePossible,
        PoolSound, Known, Cache.Valid, Cache.View, AnnotationsOf, Faultless, ComputeDone, NamesPod, HasStatus;
      var podKey := GetPodCacheKey(pod.namespace, pod.name);
      NotElsewhere(pods, pod);
      pods.Set(podKey, metaPod);
      var privateIP;
      instanceID, privateIP, err, o := computeManager.GetCompute(warmPool, pod);
      if err {
        pods.Delete(pod.namespace, pod.name);
      } else {
        pod.status := pod.status.(podIP := privateIP, hostIP := privateIP);
      }
    }

    /** The first half of creating a pod: it is cached and gets an instance, or is forgotten. */
    method FindInstance(pod: Pod, metaPod: MetaPod) returns (instanceID: Id, err: bool, ghost o: Compute)
      requires Valid() && metaPod.pod == pod
      modifies pods, warmPool, ec2, pod
      ensures Valid() && (err <==> !HasInstance(o)) && ec2.faults >= old(ec2.faults)
      ensures ec2.faults == old(ec2.faults) ==>
        Faultless(warmPool.me, ec2.pageSize, old(ec2.instances), old(pod.instanceId), o)
      ensures ComputePossible(warmPool.me, UsesPool(), old(ec2.instances), old(pod.instanceId), o)
      ensures ComputeDone(warmPool.me, PodTag(pod), old(ec2.instances), old(warmPool.State()), old(pod.instanceId), o,
                          ec2.instances, warmPool.State(), pod.instanceId)
      ensures var key := GetPodCacheKey(pod.namespace, pod.name);
              && pods.pods == (if err then old(pods.pods) - {key} else old(pods.pods)[key := metaPod])
              && pods.Annotations() ==
                 (if err then old(pods.Annotations()) - {key} else old(pods.Annotations())[key := pod.instanceId])
      ensures err && ec2.faults == old(ec2.faults) ==> UsesPool() && warmPool.ready == map[]
      ensures err && !o.PodTagFailed? ==> pod.status == old(pod.status)
      ensures o.PodTagFailed? ==>
        o.id in ec2.instances && pod.status == old(pod.status).(podIP := ec2.instances[o.id].ip)
      ensures !err ==>
        && instanceID == o.id && instanceID == pod.instanceId && instanceID in ec2.instances
        && var ip := if o.Reused? then old(pod.status.podIP) else ec2.instances[instanceID].ip;
           pod.status == old(pod.status).(podIP := ip, hostIP := ip)
      ensures o.FromPool? ==>
        && UsesPool() && instanceID in ec2.instances && HasStatus(ec2.instances[instanceID].tags, PendingPod)
        && NamesPod(ec2.instances[instanceID].tags, pod)
    {
      hide GetPodCacheKey, KeysMatch, ComputePossible, ComputeDone, Faultless, NamesPod, HasStatus, PodTag,
        AnnotationsOf, PoolSound, Known, Cache.Valid, WarmPoolManager.Valid, WarmPoolManager.State;
      var podKey := GetPodCacheKey(pod.namespace, pod.name);
      SplitAnnotations(pods.pods, podKey);
      SetAndForget(pods.Annotations(), podKey, pod.instanceId);
      instanceID, err, o := CacheAndGetCompute(pod, metaPod);
      CachedAnnotations(old(pods.pods), podKey, metaPod);
    }

    /** Caches the pod, gets it an instance, has its application launched, marks the instance as
        in use and starts the monitoring.  `res` tells how it ended; the effect on the cloud, the
        pool and the cache is the one `After` gives for that ending. */
    method CreatePod(pod: Pod) returns (err: bool, ghost res: Creation)
      requires Valid()
      modifies this`notified, this`agentFaults, pods, warmPool, ec2, pod
      ensures Valid() && (err <==> !res.Created?)
      ensures agentFaults == old(agentFaults) + if res.AppFailed? then 1 else 0
      ensures ec2.faults >= old(ec2.faults)
      ensures ec2.faults == old(ec2.faults) ==>
        Undisturbed(warmPool.me, ec2.pageSize, old(ec2.instances), old(pod.instanceId), res)
      ensures CreationPossible(warmPool.me, UsesPool(), old(ec2.instances), old(pod.instanceId), res)
      ensures var key := GetPodCacheKey(pod.namespace, pod.name);
              && State() == After(warmPool.me, UsesPool(), PodTag(pod), old(State()), key, old(pod.instanceId), res)
              && (if StaysCached(res) then
                    && key in pods.pods && pods.pods == old(pods.pods)[key := pods.pods[key]]
                    && pods.pods[key].pod == pod && pods.pods[key].monitor != null
                    && (pods.pods[key].monitor.started <==> res.Created?) && !pods.pods[key].monitor.stopped
                  else pods.pods == old(pods.pods) - {key})
      ensures err && ec2.faults == old(ec2.faults) && agentFaults == old(agentFaults) ==>
        UsesPool() && warmPool.ready == map[]
      ensures pod.instanceId == if res.compute.PoolEmpty? || res.compute.NotLaunched? then old(pod.instanceId)
                                else res.compute.id
      ensures var o := res.compute;
              var found := if pod.instanceId in ec2.instances then ec2.instances[pod.instanceId].ip else "";
              pod.status ==
              if res.NoCompute? then
                (if o.PodTagFailed? then old(pod.status).(podIP := found) else old(pod.status))
              else if o.Reused? then old(pod.status).(hostIP := old(pod.status.podIP))
              else old(pod.status).(podIP := found, hostIP := found)
      ensures !res.NoCompute? ==> pod.instanceId in ec2.instances
      ensures res.AppFailed? && res.terminated ==> ec2.instances[pod.instanceId].run == Dead
      ensures res.Created? && UsesPool() ==>
        var tags := ec2.instances[pod.instanceId].tags;
        WarmpoolStatus in tags && tags[WarmpoolStatus] == Status(PodInUse)
      ensures res.Created? && res.compute.FromPool? ==>
        var tags := ec2.instances[pod.instanceId].tags;
        && WarmpoolPodName in tags && tags[WarmpoolPodName] == Text(pod.name)
        && WarmpoolPodNamespace in tags && tags[WarmpoolPodNamespace] == Text(pod.namespace)
        && WarmpoolPodUid in tags && tags[WarmpoolPodUid] == Text(pod.uid)
      ensures notified ==
          if res.Created? then
            old(notified) + [PodInfo(pod.namespace, pod.name, pod.uid, pod.instanceId, pod.status)]
          else old(notified)
    {
      hide GetPodCacheKey, KeysMatch, Perform, PopulateTags, ComputePossible, ComputeDone, Cloud.Terminated,
        After, StartedCloud, Faultless, PoolSound, Known, Cache.Valid, Cache.View, AnnotationsOf, WarmPoolManager.Valid,
        WarmPoolManager.State, NamesPod, HasStatus, PodStore.InfoOf, PodTag;
      ghost var me, tag, s, a := warmPool.me, PodTag(pod), State(), pod.instanceId;
      var podMonitor := new PodMonitor();
      var metaPod := new MetaPod(pod, podMonitor);
      var podKey := GetPodCacheKey(pod.namespace, pod.name);
      var instanceID;
      ghost var o;
      instanceID, err, o := FindInstance(pod, metaPod);
      ghost var c := ec2.instances;
      res := NoCompute(o);
      if !err {
        SetAndForget(old(pods.pods), podKey, metaPod);
        SetAndForget(s.pods, podKey, pod.instanceId);
        err, res := StartPod(pod, podMonitor, instanceID, o);
        TagsSpelledOut(ec2.instances[instanceID].tags, pod, PodInUse);
      }
      AfterIs(me, UsesPool(), tag, s, podKey, a, o, c, warmPool.State(), pod.instanceId, res);
    }

    /** Replaces the cached pod object; an uncached pod is an error and has no effect. */
    method UpdatePod(pod: Pod) returns (err: bool)
      requires Valid()
      modifies pods, pods.pods.Values
      ensures Valid() && pods.pods == old(pods.pods)
      ensures var key := GetPodCacheKey(pod.namespace, pod.name);
              && (err <==> key !in old(State()).pods)
              && State() ==
                  (if err then old(State()) else old(State()).(pods := old(State()).pods[key := pod.instanceId]))
              && (!err ==> pods.pods[key].pod == pod && pods.pods[key].monitor == old(pods.pods[key].monitor))
    {
      hide GetPodCacheKey, KeysMatch, Perform, PoolSound, Known, Cache.View, AnnotationsOf, WarmPoolManager.State;
      var podKey := GetPodCacheKey(pod.namespace, pod.name);
      SplitAnnotations(pods.pods, podKey);
      err := pods.UpdatePod(podKey, pod);
      SplitAnnotations(pods.pods, podKey);
    }

    /** Puts the final status on the pod and reports it. */
    method NotifyPodDelete(pod: Pod)
      modifies this`notified, pod
      ensures pod.status == DeletedStatus(old(pod.status)) && pod.instanceId == old(pod.instanceId)
      ensures var before := old(pod.status);
              && pod.status == before.(phase := "Succeeded", reason := "ProviderPodDeleted",
                                       containers := pod.status.containers)
              && |pod.status.containers| == |before.containers|
              && forall i :: 0 <= i < |before.containers| ==>
                   pod.status.containers[i] ==
                   ContainerStatus(before.containers[i].name, false,
                                   ContainerState.Terminated("Pod deletion requested", ""))
      ensures notified == old(notified) + [PodInfo(pod.namespace, pod.name, pod.uid, pod.instanceId, pod.status)]
    {
      pod.status := pod.status.(phase := "Succeeded", reason := "ProviderPodDeleted");
      EndContainers(pod, "Pod deletion requested", "");
      notified := notified + [PodStore.InfoOf(pod)];
    }

    method EndContainers(pod: Pod, message: string, reason: string)
      modifies pod
      ensures pod.status == old(pod.status).(containers := ContainersEnded(old(pod.status.containers), message, reason))
      ensures pod.instanceId == old(pod.instanceId)
    {
      ghost var before := pod.status;
      for idx := 0 to |pod.status.containers|
        invariant pod.instanceId == old(pod.instanceId)
        invariant |pod.status.containers| == |before.containers|
        invariant pod.status == before.(containers := pod.status.containers)
        invariant forall j :: 0 <= j < idx ==>
            pod.status.containers[j] == ContainerEnded(before.containers[j], message, reason)
        invariant forall j :: idx <= j < |before.containers| ==> pod.status.containers[j] == before.containers[j]
      {
        var c := pod.status.containers[idx].(ready := false, state := ContainerState.Terminated(message, reason));
        pod.status := pod.status.(containers := pod.status.containers[idx := c]);
      }
    }

    /** The end of a deletion: the pod leaves the cache, gets its final status and is reported. */
    method ForgetPod(pod: Pod)
      requires Valid()
      modifies this`notified, pods, pod
      ensures Valid()
      ensures var key := GetPodCacheKey(pod.namespace, pod.name);
              && pods.pods == old(pods.pods) - {key}
              && AnnotationsOf(pods.pods) == old(AnnotationsOf(pods.pods - {key}))
      ensures pod.status == DeletedStatus(old(pod.status)) && pod.instanceId == old(pod.instanceId)
      ensures var before := old(pod.status);
              && pod.status == before.(phase := "Succeeded", reason := "ProviderPodDeleted",
                                       containers := pod.status.containers)
              && |pod.status.containers| == |before.containers|
              && forall i :: 0 <= i < |before.containers| ==>
                   pod.status.containers[i] ==
                   ContainerStatus(before.containers[i].name, false,
                                   ContainerState.Terminated("Pod deletion requested", ""))
      ensures notified == old(notified) + [PodInfo(pod.namespace, pod.name, pod.uid, pod.instanceId, pod.status)]
    {
      hide GetPodCacheKey, KeysMatch, Perform, PoolSound, Known, Cache.Valid, Cache.View, AnnotationsOf, DeletedStatus,
        ContainersEnded, WarmPoolManager.State;
      NotElsewhere(pods, pod);
      pods.Delete(pod.namespace, pod.name);
      DeletedStatusPrevails(pod.status, "Succeeded", "ProviderPodDeleted",
                            "EC2 Provider terminated container upon deletion", "ProviderPodContainerDeleted");
      pod.status := pod.status.(phase := "Succeeded", reason := "ProviderPodDeleted");
      EndContainers(pod, "EC2 Provider terminated container upon deletion", "ProviderPodContainerDeleted");
      NotifyPodDelete(pod);
    }

    /** The monitoring kept under a key, if any. */
    ghost function MonitorsOf(key: PodKey): set<PodMonitor>
      reads this, pods, pods.pods.Values
    {
      if key in pods.pods && pods.pods[key].monitor != null then {pods.pods[key].monitor} else {}
    }

    /** Stops the monitoring, terminates the instance named by the given pod's annotation, and
        forgets and reports the pod.  If the termination fails the pod stays cached, with its
        monitoring stopped.  The program panics if the pod is not cached, or if its monitoring was
        never started. */
    method DeletePod(pod: Pod) returns (panicked: bool, err: bool)
      requires Valid()
      modifies this`notified, pods, ec2, pod, MonitorsOf(GetPodCacheKey(pod.namespace, pod.name))
      ensures Valid()
      ensures var key := GetPodCacheKey(pod.namespace, pod.name);
              && (panicked <==> key !in old(State()).pods || exists m :: m in old(MonitorsOf(key)) && !old(m.started))
              && (!panicked && old(MonitorsOf(key)) == {} ==> err)
              && (!panicked && old(MonitorsOf(key)) != {} && err ==> ec2.faults > old(ec2.faults))
              && (!panicked ==> forall m :: m in old(MonitorsOf(key)) ==> m.stopped)
      ensures !panicked && !err ==>
        var key := GetPodCacheKey(pod.namespace, pod.name);
        && State() == Allocation.Ended(old(State()), old(pod.instanceId)).(pods := old(State()).pods - {key})
        && pods.pods == old(pods.pods) - {key}
        && pod.status == DeletedStatus(old(pod.status)) && pod.instanceId == old(pod.instanceId)
        && notified == old(notified) + [PodInfo(pod.namespace, pod.name, pod.uid, pod.instanceId, pod.status)]
      ensures !panicked && !err ==>
        var before := old(pod.status);
        && pod.status == before.(phase := "Succeeded", reason := "ProviderPodDeleted",
                                 containers := pod.status.containers)
        && |pod.status.containers| == |before.containers|
        && (forall i :: 0 <= i < |before.containers| ==>
              pod.status.containers[i] ==
              ContainerStatus(before.containers[i].name, false,
                              ContainerState.Terminated("Pod deletion requested", "")))
        && (forall id :: id in ec2.instances ==>
              id in old(ec2.instances)
              && ec2.instances[id] ==
                 if id == pod.instanceId then old(ec2.instances)[id].(run := Dead) else old(ec2.instances)[id])
        && ec2.instances.Keys == old(ec2.instances).Keys
      ensures panicked || err ==>
        State() == old(State()) && pods.pods == old(pods.pods) && notified == old(notified) && unchanged(pod)
    {
      hide GetPodCacheKey, KeysMatch, Perform, PoolSound, Known, Cache.Valid, Cache.View, AnnotationsOf,
        DeletedStatus, ContainersEnded, PodStore.InfoOf, WarmPoolManager.State, Cloud.Terminated;
      var podKey := GetPodCacheKey(pod.namespace, pod.name);
      EmptyIdIsUnknown(warmPool.State(), ec2.instances);
      SplitAnnotations(pods.pods, podKey);
      var metaPod := pods.Lookup(podKey);
      if metaPod == null {
        return true, false;
      }
      if metaPod.monitor == null {
        return false, true;
      }
      panicked := metaPod.monitor.Stop();
      if panicked {
        return true, false;
      }
      // The application is asked to terminate here; whether that succeeds makes no difference.
      err := computeManager.DeleteCompute(pod);
      if err {
        return;
      }
      TerminatedStaysKnown(warmPool.State(), old(ec2.instances), {pod.instanceId});
      ForgetPod(pod);
    }

    /** Takes over a cache filled at start-up and starts monitoring all of its pods. */
    method PopulateCache(cache: Cache)
      requires Valid() && cache.Valid()
      modifies this`pods, cache.pods.Values
      ensures Valid() && pods == cache && cache.pods == old(cache.pods)
      ensures cache.Annotations() == old(cache.Annotations())
      ensures forall key :: key in cache.pods ==> Monitored(cache.pods[key])
    {
      hide GetPodCacheKey, KeysMatch, PoolSound, Known, WarmPoolManager.State, Monitored, Cache.Valid;
      ghost var before := cache.Annotations();
      cache.StartMonitors();
      SameAnnotations(cache.pods, before);
      pods := cache;
    }
  }
}
