/** Finding an instance for a pod, and giving it up. */
module ComputeManagement {
  import opened Cloud
  import opened WarmPool
  import opened PoolDepth
  import opened PoolManager
  import opened Pods
  import opened Lifecycle

  /** The tag operation for handing an instance to this pod. */
  function PodTag(pod: Pod): (tag: Reason)
    ensures tag.SetPod?
  {
    SetPod(pod.name, pod.namespace, pod.uid)
  }

  /** The instance the pod has is used again. */
  lemma ReusedIs(me: Identity, usesPool: bool, tag: Reason, c: Instances, p: Pool, annotation: Id)
    requires RunningIn(c, annotation)
    ensures ComputePossible(me, usesPool, c, annotation, Reused(annotation))
    ensures ComputeDone(me, tag, c, p, annotation, Reused(annotation), c, p, annotation)
  {
  }

  /** The refreshed index has nothing ready. */
  lemma PoolEmptyIs(me: Identity, tag: Reason, c: Instances, p: Pool, annotation: Id, page: set<Id>, failed: set<Id>)
    requires failed <= page <= FilteredIds(me, c)
    requires PoolOf(page, RefreshedCloud(me, c, page, failed)).ready == map[]
    ensures var c1 := RefreshedCloud(me, c, page, failed);
            && ComputePossible(me, true, c, annotation, PoolEmpty(page, failed))
            && ComputeDone(me, tag, c, p, annotation, PoolEmpty(page, failed), c1, PoolOf(page, c1), annotation)
  {
    hide RefreshedCloud, PoolOf, FilteredIds, PopulateTags;
  }

  /** A ready instance was taken out of the refreshed index, and tagged for the pod or not. */
  lemma FromPoolIs(me: Identity, tag: Reason, c: Instances, p: Pool, annotation: Id, page: set<Id>, failed: set<Id>,
                   id: Id)
    requires failed <= page <= FilteredIds(me, c)
    requires id in PoolOf(page, RefreshedCloud(me, c, page, failed)).ready
    ensures var c1 := RefreshedCloud(me, c, page, failed);
            var r := PoolOf(page, c1);
            var p1 := r.(ready := r.ready - {id});
            && id in c && id in c1 && c1[id].ip == c[id].ip && r.ready[id].privateIP == c[id].ip
            && ComputePossible(me, true, c, annotation, FromPool(page, failed, id))
            && ComputePossible(me, true, c, annotation, PodTagFailed(page, failed, id))
            && ComputeDone(me, tag, c, p, annotation, PodTagFailed(page, failed, id), c1, p1, id)
            && ComputeDone(me, tag, c, p, annotation, FromPool(page, failed, id),
                           Tagged(c1, id, PopulateTags(me, tag)), p1, id)
  {
    ReadyEntry(me, c, page, failed, id);
    hide RefreshedCloud, PoolOf, FilteredIds, PopulateTags;
  }

  lemma ReadyEntry(me: Identity, c: Instances, page: set<Id>, failed: set<Id>, id: Id)
    requires id in PoolOf(page, RefreshedCloud(me, c, page, failed)).ready
    ensures id in c && id in RefreshedCloud(me, c, page, failed)
    ensures RefreshedCloud(me, c, page, failed)[id].ip == c[id].ip
    ensures PoolOf(page, RefreshedCloud(me, c, page, failed)).ready[id].privateIP == c[id].ip
  {
  }

  lemma TaggedStaysKnown(p: Pool, c: Instances, id: Id, tags: Tags)
    requires Known(p, c) && id in c
    ensures Known(p, Tagged(c, id, tags))
  {
  }

  /** The tags name this pod. */
  predicate NamesPod(tags: Tags, pod: Pod) {
    && WarmpoolPodName in tags && tags[WarmpoolPodName] == Text(pod.name)
    && WarmpoolPodNamespace in tags && tags[WarmpoolPodNamespace] == Text(pod.namespace)
    && WarmpoolPodUid in tags && tags[WarmpoolPodUid] == Text(pod.uid)
  }

  predicate HasStatus(tags: Tags, status: PoolStatus) {
    WarmpoolStatus in tags && tags[WarmpoolStatus] == Status(status)
  }

  lemma PodTagged(me: Identity, pod: Pod, c: Instances, id: Id)
    requires id in c
    ensures var c' := Tagged(c, id, PopulateTags(me, PodTag(pod)));
            id in c' && NamesPod(c'[id].tags, pod) && HasStatus(c'[id].tags, PendingPod)
  {
    RetaggedInstance(me, PodTag(pod), c, id);
    hide PopulateTags;
  }

  lemma InUseTagged(me: Identity, pod: Pod, c: Instances, id: Id)
    requires id in c
    ensures var c' := Tagged(c, id, PopulateTags(me, SetInUse));
            id in c' && HasStatus(c'[id].tags, PodInUse) && (NamesPod(c[id].tags, pod) ==> NamesPod(c'[id].tags, pod))
  {
    RetaggedInstance(me, SetInUse, c, id);
    hide PopulateTags;
  }

  class ComputeManager {
    const ec2: Ec2

    constructor (ec2: Ec2)
      ensures this.ec2 == ec2
    {
      this.ec2 := ec2;
    }

    /** Is the instance named by the pod's annotation known to be running? */
    method PodHasInstance(pod: Pod) returns (has: bool)
      modifies ec2`faults
      ensures ec2.faults >= old(ec2.faults)
      ensures var runs := && pod.instanceId != "" && pod.instanceId in ec2.instances
                          && ec2.instances[pod.instanceId].run == RunState.Running;
              (has ==> runs) && (ec2.faults == old(ec2.faults) && runs ==> has)
    {
      if pod.instanceId != "" {
        has := ec2.DescribeInstanceStatus(pod.instanceId);
        return;
      }
      return false;
    }

    /** Gets an instance for the pod: the one it has if that is running; otherwise, if any warm
        pool is configured, a ready one from the pool; otherwise a freshly launched one. */
    method GetCompute(warmPool: WarmPoolManager, pod: Pod)
      returns (instanceId: Id, privateIP: string, err: bool, ghost o: Compute)
      requires warmPool.ec2 == ec2 && warmPool.Valid()
      modifies warmPool, ec2, pod
      ensures warmPool.Valid() && ec2.faults >= old(ec2.faults)
      ensures ec2.faults == old(ec2.faults) ==>
        Faultless(warmPool.me, ec2.pageSize, old(ec2.instances), old(pod.instanceId), o)
      ensures ComputePossible(warmPool.me, |warmPool.configs| > 0, old(ec2.instances), old(pod.instanceId), o)
      ensures ComputeDone(warmPool.me, PodTag(pod), old(ec2.instances), old(warmPool.State()), old(pod.instanceId), o,
                          ec2.instances, warmPool.State(), pod.instanceId)
      ensures err <==> !HasInstance(o)
      ensures err && ec2.faults == old(ec2.faults) ==> |warmPool.configs| > 0 && warmPool.ready == map[]
      ensures err && !o.PodTagFailed? ==> pod.status == old(pod.status)
      ensures o.PodTagFailed? ==>
        o.id in ec2.instances && pod.status == old(pod.status).(podIP := ec2.instances[o.id].ip)
      ensures !err ==> instanceId == o.id && instanceId == pod.instanceId && instanceId in ec2.instances
      ensures !err ==>
        && privateIP == (if o.Reused? then old(pod.status.podIP) else ec2.instances[instanceId].ip)
        && pod.status == old(pod.status).(podIP := privateIP)
      ensures o.FromPool? ==>
        && |warmPool.configs| > 0 && instanceId in ec2.instances
        && HasStatus(ec2.instances[instanceId].tags, PendingPod) && NamesPod(ec2.instances[instanceId].tags, pod)
    {
      hide PopulateTags, RefreshedCloud, PoolOf, FilteredIds, KeysMatch, ComputePossible, ComputeDone, PodTag, IsPage,
        PoolSound, NamesPod, HasStatus;
      ghost var me, tag, c, p, a := warmPool.me, PodTag(pod), ec2.instances, warmPool.State(), pod.instanceId;
      var has := PodHasInstance(pod);
      if has {
        ReusedIs(me, |warmPool.configs| > 0, tag, c, p, a);
        return pod.instanceId, pod.status.podIP, false, Reused(pod.instanceId);
      }
      if |warmPool.configs| > 0 {
        var found;
        ghost var c1, p1, page, failed;
        instanceId, privateIP, found, c1, p1, page, failed := warmPool.GetWarmPoolInstanceIfExist();
        if !found {
          PoolEmptyIs(me, tag, c, p, a, page, failed);
          return "", "", true, PoolEmpty(page, failed);
        }
        FromPoolIs(me, tag, c, p, a, page, failed, instanceId);
        pod.instanceId := instanceId;
        pod.status := pod.status.(podIP := privateIP);
        var tagErr := warmPool.UpdateEC2Tags(instanceId, PodTag(pod));
        if tagErr {
          return "", "", true, PodTagFailed(page, failed, instanceId);
        }
        PodTagged(me, pod, c1, instanceId);
        TaggedStaysKnown(warmPool.State(), c1, instanceId, PopulateTags(warmPool.me, PodTag(pod)));
        return instanceId, privateIP, false, FromPool(page, failed, instanceId);
      }
      instanceId, privateIP, err, o := CreateCompute(warmPool, pod);
    }

    /** Launches an instance with whatever tags the pod asks for, notes it on the pod, and waits
        for its address.  An instance that gets no address is not cleaned up. */
    method CreateCompute(warmPool: WarmPoolManager, pod: Pod)
      returns (instanceId: Id, privateIP: string, err: bool, ghost o: Compute)
      requires warmPool.ec2 == ec2 && warmPool.Valid()
      modifies ec2, pod
      ensures warmPool.Valid() && ec2.faults >= old(ec2.faults)
      ensures ec2.faults == old(ec2.faults) ==> o.FromLaunch?
      ensures o.NotLaunched? || o.NoAddress? || o.FromLaunch?
      ensures ComputePossible(warmPool.me, false, old(ec2.instances), old(pod.instanceId), o)
      ensures ComputeDone(warmPool.me, PodTag(pod), old(ec2.instances), warmPool.State(), old(pod.instanceId), o,
                          ec2.instances, warmPool.State(), pod.instanceId)
      ensures err <==> !HasInstance(o)
      ensures err ==> pod.status == old(pod.status)
      ensures !err ==> instanceId == o.id && instanceId == pod.instanceId && instanceId in ec2.instances
      ensures !err ==>
        && privateIP == ec2.instances[instanceId].ip
        && pod.status == old(pod.status).(podIP := privateIP)
    {
      hide PopulateTags, KeysMatch;
      var tags: Tags := *;
      var launched := ec2.RunInstances(tags);
      if launched.None? {
        return "", "", true, NotLaunched;
      }
      pod.instanceId := launched.value;
      var ip := ec2.WaitUntilRunning(launched.value);
      if ip.None? {
        return "", "", true, NoAddress(launched.value, ec2.instances[launched.value]);
      }
      pod.status := pod.status.(podIP := ip.value);
      return launched.value, ip.value, false, FromLaunch(launched.value, ec2.instances[launched.value]);
    }

    /** Terminates the instance named by the pod's annotation.  Having none, or one EC2 does not
        know, is no error. */
    method DeleteCompute(pod: Pod) returns (err: bool)
      requires "" !in ec2.instances
      modifies ec2
      ensures !err ==> ec2.instances == Cloud.Terminated(old(ec2.instances), {pod.instanceId})
      ensures !err ==>
        forall id :: id in ec2.instances ==>
          ec2.instances[id] ==
          if id == pod.instanceId then old(ec2.instances)[id].(run := Dead) else old(ec2.instances)[id]
      ensures err ==> ec2.instances == old(ec2.instances) && pod.instanceId != "" && ec2.faults > old(ec2.faults)
      ensures ec2.faults >= old(ec2.faults)
      ensures ec2.instances.Keys == old(ec2.instances).Keys
    {
      TerminatingUnknown(ec2.instances, pod.instanceId);
      if pod.instanceId == "" {
        return false;
      }
      var ok := ec2.TerminateInstances([pod.instanceId]);
      if !ok {
        var notFound: bool := *;
        return !(notFound && pod.instanceId !in ec2.instances);
      }
      assert Elements([pod.instanceId]) == {pod.instanceId};
      return false;
    }
  }

  lemma TerminatingUnknown(c: Instances, id: Id)
    ensures id !in c ==> Cloud.Terminated(c, {id}) == c
  {
  }
}
