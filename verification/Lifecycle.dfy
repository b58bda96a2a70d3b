/** What creating a pod does to the cloud, the pool and the cache, outcome by outcome, and which
    outcomes leave the instances accounted for and the pods apart. */
module Lifecycle {
  import opened Common
  import opened Cloud
  import opened WarmPool
  import opened Allocation
  import opened AllocationSteps

  /** How looking for an instance for a pod can end; `page` and `failed` are what the refresh of
      the pool listed and could not retag. */
  datatype Compute =
    | Reused(id: Id)
    | PoolEmpty(page: set<Id>, failed: set<Id>)
    | PodTagFailed(page: set<Id>, failed: set<Id>, id: Id)
    | FromPool(page: set<Id>, failed: set<Id>, id: Id)
    | NotLaunched
    | NoAddress(id: Id, x: Instance)
    | FromLaunch(id: Id, x: Instance)

  predicate HasInstance(o: Compute) {
    o.Reused? || o.FromPool? || o.FromLaunch?
  }

  predicate UsesRefresh(o: Compute) {
    o.PoolEmpty? || o.PodTagFailed? || o.FromPool?
  }

  predicate RunningIn(c: Instances, id: Id) {
    id != "" && id in c && c[id].run.Running?
  }

  /** How creating a pod can end. */
  datatype Creation =
    | NoCompute(compute: Compute)
    | AppFailed(compute: Compute, terminated: bool)
    | InUseTagFailed(compute: Compute)
    | Created(compute: Compute)

  predicate StaysCached(res: Creation) {
    res.Created? || res.InUseTagFailed?
  }

  /** When looking for an instance can end this way; `annotation` is the pod's instance id at the
      time and `usesPool` tells whether any warm pool is configured. */
  ghost predicate ComputePossible(me: Identity, usesPool: bool, c: Instances, annotation: Id, o: Compute) {
    && (UsesRefresh(o) ==> usesPool && o.failed <= o.page <= FilteredIds(me, c))
    && match o
       case Reused(id) => id == annotation && RunningIn(c, id)
       case PoolEmpty(page, failed) => PoolOf(page, RefreshedCloud(me, c, page, failed)).ready == map[]
       case PodTagFailed(page, failed, id) => id in PoolOf(page, RefreshedCloud(me, c, page, failed)).ready
       case FromPool(page, failed, id) => id in PoolOf(page, RefreshedCloud(me, c, page, failed)).ready
       case NotLaunched => !usesPool
       case NoAddress(id, x) => !usesPool && id !in c && id != "" && x.run.Pending?
       case FromLaunch(id, x) => !usesPool && id !in c && id != "" && x.run.Running?
  }

  /** The cloud, the pool and the pod's annotation once an instance has been looked for. */
  function ComputedCloud(me: Identity, tag: Reason, c: Instances, o: Compute): Instances {
    match o
    case PoolEmpty(page, failed) => RefreshedCloud(me, c, page, failed)
    case PodTagFailed(page, failed, _) => RefreshedCloud(me, c, page, failed)
    case FromPool(page, failed, id) =>
      var c1 := RefreshedCloud(me, c, page, failed);
      if id in c1 then Tagged(c1, id, PopulateTags(me, tag)) else c1
    case NoAddress(id, x) => c[id := x]
    case FromLaunch(id, x) => c[id := x]
    case _ => c
  }

  function ComputedPool(me: Identity, c: Instances, p: Pool, o: Compute): Pool {
    if !UsesRefresh(o) then p
    else
      var r := PoolOf(o.page, RefreshedCloud(me, c, o.page, o.failed));
      if o.PoolEmpty? then r else r.(ready := r.ready - {o.id})
  }

  function ComputedId(annotation: Id, o: Compute): Id {
    if o.PoolEmpty? || o.NotLaunched? then annotation else o.id
  }

  ghost predicate ComputeDone(me: Identity, tag: Reason, c: Instances, p: Pool, annotation: Id, o: Compute,
                              c': Instances, p': Pool, annotation': Id)
  {
    && c' == ComputedCloud(me, tag, c, o) && p' == ComputedPool(me, c, p, o)
    && annotation' == ComputedId(annotation, o)
  }

  ghost predicate CreationPossible(me: Identity, usesPool: bool, c: Instances, annotation: Id, res: Creation) {
    && ComputePossible(me, usesPool, c, annotation, res.compute)
    && (res.NoCompute? <==> !HasInstance(res.compute))
    && (res.InUseTagFailed? ==> usesPool)
  }

  /** The cloud after the second half of a creation. */
  function StartedCloud(me: Identity, usesPool: bool, c: Instances, id: Id, res: Creation): Instances {
    match res
    case AppFailed(_, true) => Terminated(c, {id})
    case Created(_) => if usesPool && id in c then Tagged(c, id, PopulateTags(me, SetInUse)) else c
    case _ => c
  }

  /** The system after the whole creation. */
  function After(me: Identity, usesPool: bool, tag: Reason, s: System, key: PodKey, annotation: Id,
                 res: Creation): System {
    var id := ComputedId(annotation, res.compute);
    System(StartedCloud(me, usesPool, ComputedCloud(me, tag, s.cloud, res.compute), id, res),
           ComputedPool(me, s.cloud, s.pool, res.compute),
           if StaysCached(res) then s.pods[key := id] else s.pods - {key})
  }

  /** The endings of looking for an instance when EC2 does what it is asked to. */
  ghost predicate Faultless(me: Identity, pageSize: nat, c: Instances, annotation: Id, o: Compute) {
    && (HasInstance(o) || o.PoolEmpty?)
    && (o.Reused? <==> RunningIn(c, annotation))
    && (UsesRefresh(o) ==> o.failed == {} && IsPage(me, c, pageSize, o.page))
  }

  /** The endings of the whole creation when EC2 does what it is asked to; the application may
      still have failed. */
  ghost predicate Undisturbed(me: Identity, pageSize: nat, c: Instances, annotation: Id, res: Creation) {
    && Faultless(me, pageSize, c, annotation, res.compute)
    && !res.InUseTagFailed? && (res.AppFailed? ==> res.terminated)
  }

  /** The endings that, apart from the refresh, lose and share nothing. */
  predicate Clean(res: Creation) {
    match res
    case NoCompute(o) => o.PoolEmpty? || o.NotLaunched?
    case AppFailed(o, terminated) => terminated <==> !o.Reused?
    case InUseTagFailed(o) => !o.Reused?
    case Created(o) => !o.Reused?
  }

  /** A clean ending, with a refresh, if any, that missed none of the pool's instances. */
  ghost predicate CreationLossless(me: Identity, c: Instances, res: Creation) {
    Clean(res) && (UsesRefresh(res.compute) ==> NothingMissed(me, c, res.compute.page, res.compute.failed))
  }

  /** Where the instance of a pod comes from: it is the running one its annotation names, or one of
      the pool's, live, tagged for this node and cluster and ready (or provisioning and already
      running), or one that EC2 did not have before; the last exactly when no pool is configured. */
  lemma InstanceComesFrom(me: Identity, usesPool: bool, c: Instances, annotation: Id, res: Creation)
    requires CreationPossible(me, usesPool, c, annotation, res) && !res.NoCompute?
    ensures match res.compute
            case Reused(id) => id == annotation && id != "" && id in c && c[id].run == Running
            case FromPool(_, _, id) =>
              && usesPool && id in c && c[id].run != Dead
              && NodeName in c[id].tags && c[id].tags[NodeName] == Text(me.node)
              && ClusterName in c[id].tags && c[id].tags[ClusterName] == Text(me.cluster)
              && WarmpoolStatus in c[id].tags
              && (|| c[id].tags[WarmpoolStatus] == Status(Ready)
                  || (c[id].tags[WarmpoolStatus] == Status(PendingWarmpool) && c[id].run == Running))
            case FromLaunch(id, x) => !usesPool && id !in c && id != "" && x.run == Running
            case _ => false
  {
    if res.compute.FromPool? {
      var o := res.compute;
      ReadyIsKnown(me, c, o.page, o.failed, o.id);
      RefreshedInstance(me, c, o.page, o.failed, o.id);
    }
    hide PopulateTags, RefreshedCloud;
  }

  // ------------------------------------------------------------ the endings, as elementary operations

  lemma LaunchForms(me: Identity, usesPool: bool, tag: Reason, s: System, key: PodKey, annotation: Id, res: Creation)
    requires key !in s.pods && CreationPossible(me, usesPool, s.cloud, annotation, res)
    requires res.compute.NotLaunched? || res.compute.NoAddress? || res.compute.FromLaunch?
    ensures var t := After(me, usesPool, tag, s, key, annotation, res);
            match res
            case NoCompute(NotLaunched) => t == s
            case NoCompute(o) => t == Launched(s, o.id, o.x)
            case AppFailed(o, true) => t == Ended(Launched(s, o.id, o.x), o.id)
            case AppFailed(o, false) => t == Launched(s, o.id, o.x)
            case InUseTagFailed(o) => false
            case Created(o) => t == Launched(s, o.id, o.x).(pods := s.pods[key := o.id])
  {
    assert s.pods - {key} == s.pods;
    hide Terminated;
  }

  lemma ReuseForms(me: Identity, usesPool: bool, tag: Reason, s: System, key: PodKey, annotation: Id, res: Creation)
    requires key !in s.pods && CreationPossible(me, usesPool, s.cloud, annotation, res) && res.compute.Reused?
    ensures var t := After(me, usesPool, tag, s, key, annotation, res);
            var noted := s.(pods := s.pods[key := annotation]);
            match res
            case NoCompute(_) => false
            case AppFailed(_, true) => t == Ended(s, annotation)
            case AppFailed(_, false) => t == s
            case InUseTagFailed(_) => t == noted
            case Created(_) => t == if usesPool then Retagged(me, noted, annotation, SetInUse) else noted
  {
    assert s.pods - {key} == s.pods;
    hide Terminated, PopulateTags;
  }

  lemma PoolForms(me: Identity, usesPool: bool, tag: Reason, s: System, key: PodKey, annotation: Id, res: Creation)
    requires key !in s.pods && CreationPossible(me, usesPool, s.cloud, annotation, res) && UsesRefresh(res.compute)
    ensures var t := After(me, usesPool, tag, s, key, annotation, res);
            var r := PartlyRefreshed(me, s, res.compute.page, res.compute.failed);
            && usesPool && (!res.compute.PoolEmpty? ==> res.compute.id in r.pool.ready && res.compute.id in r.cloud)
            && match res
               case NoCompute(PoolEmpty(_, _)) => t == r
               case NoCompute(o) => o.PodTagFailed? && t == Popped(r, key, o.id).(pods := s.pods)
               case AppFailed(o, terminated) =>
                 o.FromPool? &&
                 t == (if terminated then Ended(Retagged(me, Popped(r, key, o.id), o.id, tag), o.id).(pods := s.pods)
                       else Retagged(me, Popped(r, key, o.id).(pods := s.pods), o.id, tag))
               case InUseTagFailed(o) => o.FromPool? && t == Retagged(me, Popped(r, key, o.id), o.id, tag)
               case Created(o) =>
                 o.FromPool? && t == Retagged(me, Retagged(me, Popped(r, key, o.id), o.id, tag), o.id, SetInUse)
  {
    assert s.pods - {key} == s.pods;
    if !res.compute.PoolEmpty? {
      ReadyIsKnown(me, s.cloud, res.compute.page, res.compute.failed, res.compute.id);
    }
    hide Terminated, PopulateTags, RefreshedCloud, PoolOf, FilteredIds;
  }

  lemma ReadyIsKnown(me: Identity, c: Instances, page: set<Id>, failed: set<Id>, id: Id)
    requires id in PoolOf(page, RefreshedCloud(me, c, page, failed)).ready
    ensures id in c && id in page && id in RefreshedCloud(me, c, page, failed)
    ensures StatusOf(RefreshedCloud(me, c, page, failed)[id].tags) == Some(Ready)
  {
  }

  // ------------------------------------------------------------ which endings conserve

  lemma RetagConservesIff(me: Identity, s: System, id: Id, tag: Reason)
    requires id in s.cloud
    ensures Conserved(Retagged(me, s, id, tag)) <==> Conserved(s)
  {
    hide PopulateTags;
    assert LiveIds(Retagged(me, s, id, tag).cloud) == LiveIds(s.cloud);
  }

  lemma EndedOwnedIsNotConserved(s: System, id: Id)
    requires Conserved(s) && id in LiveIds(s.cloud)
    ensures !Conserved(Ended(s, id))
  {
    assert id !in LiveIds(Ended(s, id).cloud);
    assert id in s.pool.ready.Keys + s.pool.provisioning.Keys + s.pods.Values;
  }

  lemma ReuseOutcomes(me: Identity, usesPool: bool, tag: Reason, s: System, key: PodKey, annotation: Id, res: Creation)
    requires Conserved(s) && key !in s.pods && res.compute.Reused?
    requires CreationPossible(me, usesPool, s.cloud, annotation, res)
    ensures Conserved(After(me, usesPool, tag, s, key, annotation, res)) <==> Clean(res)
  {
    ReuseForms(me, usesPool, tag, s, key, annotation, res);
    assert annotation in LiveIds(s.cloud);
    SharedIsNotConserved(s, key, annotation);
    RetagConservesIff(me, s.(pods := s.pods[key := annotation]), annotation, SetInUse);
    EndedOwnedIsNotConserved(s, annotation);
    hide After, Conserved, Ended, Retagged;
  }

  /** A live instance, noted on another pod, has two owners. */
  lemma SharedIsNotConserved(s: System, key: PodKey, id: Id)
    requires Conserved(s) && key !in s.pods && id in LiveIds(s.cloud)
    ensures !Conserved(s.(pods := s.pods[key := id]))
  {
    var s' := s.(pods := s.pods[key := id]);
    NewValue(s.pods, key, id);
    if id in s.pods.Values {
      var k :| k in s.pods && s.pods[k] == id;
      assert s'.pods[k] == s'.pods[key] && k != key;
    } else {
      assert id in s.pool.ready.Keys + s.pool.provisioning.Keys;
    }
  }

  lemma LaunchLeaks(s: System, id: Id, x: Instance)
    requires Conserved(s) && id !in s.cloud && Live(x)
    ensures !Conserved(Launched(s, id, x)) && Conserved(Ended(Launched(s, id, x), id))
  {
    assert id !in LiveIds(s.cloud) && id in LiveIds(Launched(s, id, x).cloud);
    LostIsNotConserved(Launched(s, id, x), id);
    assert LiveIds(Ended(Launched(s, id, x), id).cloud) == LiveIds(s.cloud);
  }

  lemma LaunchOutcomes(me: Identity, usesPool: bool, tag: Reason, s: System, key: PodKey, annotation: Id, res: Creation)
    requires Conserved(s) && key !in s.pods && CreationPossible(me, usesPool, s.cloud, annotation, res)
    requires res.compute.NotLaunched? || res.compute.NoAddress? || res.compute.FromLaunch?
    ensures Conserved(After(me, usesPool, tag, s, key, annotation, res)) <==> Clean(res)
  {
    LaunchForms(me, usesPool, tag, s, key, annotation, res);
    if !res.compute.NotLaunched? {
      LaunchConserves(s, key, res.compute.id, res.compute.x);
      LaunchLeaks(s, res.compute.id, res.compute.x);
    }
    hide After, Conserved, Launched, Ended;
  }

  /** A ready instance taken out of the pool for a pod that is then forgotten. */
  lemma PopLeaks(me: Identity, r: System, key: PodKey, id: Id)
    requires Conserved(r) && key !in r.pods && id in r.pool.ready
    ensures !Conserved(Popped(r, key, id).(pods := r.pods))
  {
    LostIsNotConserved(Popped(r, key, id).(pods := r.pods), id);
  }

  /** After a refresh that missed nothing. */
  lemma PoolOutcomes(me: Identity, usesPool: bool, tag: Reason, s: System, key: PodKey, annotation: Id, res: Creation)
    requires Good(me, s) && key !in s.pods && UsesRefresh(res.compute) && tag.SetPod?
    requires CreationPossible(me, usesPool, s.cloud, annotation, res)
    requires NothingMissed(me, s.cloud, res.compute.page, res.compute.failed)
    ensures Conserved(After(me, usesPool, tag, s, key, annotation, res)) <==> Clean(res)
    ensures Clean(res) ==> Good(me, After(me, usesPool, tag, s, key, annotation, res))
  {
    PoolForms(me, usesPool, tag, s, key, annotation, res);
    var r := PartlyRefreshed(me, s, res.compute.page, res.compute.failed);
    RefreshKeepsGood(me, s, res.compute.page, res.compute.failed);
    assert r.pods == s.pods;
    if !res.compute.PoolEmpty? {
      var id := res.compute.id;
      PopLeaks(me, r, key, id);
      FromPoolKeepsGood(me, r, key, id, tag);
      FailedFromPoolKeepsGood(me, r, key, id, tag, r.pods);
      RetagConservesIff(me, Popped(r, key, id).(pods := r.pods), id, tag);
    }
    hide After, PartlyRefreshed, Retagged, Popped, Ended, Conserved, Aligned, NothingMissed, CreationPossible;
  }

  /** What a creation from the pool leaves alone of what its refresh left. */
  lemma PoolFrame(me: Identity, usesPool: bool, tag: Reason, s: System, key: PodKey, annotation: Id, res: Creation,
                  id: Id)
    requires key !in s.pods && UsesRefresh(res.compute) && (res.compute.PoolEmpty? ==> !StaysCached(res))
    requires id in s.cloud && (HasInstance(res.compute) || res.NoCompute?) &&
        (!res.compute.PoolEmpty? ==> id != res.compute.id)
    ensures var t := After(me, usesPool, tag, s, key, annotation, res);
            var r := PartlyRefreshed(me, s, res.compute.page, res.compute.failed);
            && id in r.cloud && id in t.cloud && t.cloud[id].run == r.cloud[id].run
            && t.pool.ready.Keys <= r.pool.ready.Keys && t.pool.provisioning == r.pool.provisioning
            && (t.pods == s.pods || (!res.compute.PoolEmpty? && t.pods == s.pods[key := res.compute.id]))
  {
    assert s.pods - {key} == s.pods;
    var c := RefreshedCloud(me, s.cloud, res.compute.page, res.compute.failed);
    assert id in c;
    hide PopulateTags, PoolOf, RefreshedCloud;
    var c1 := ComputedCloud(me, tag, s.cloud, res.compute);
    assert id in c1 && c1[id] == c[id];
    hide ComputedCloud;
    StartedSparesOthers(me, usesPool, c1, ComputedId(annotation, res.compute), res, id);
    hide StartedCloud;
  }

  lemma StartedSparesOthers(me: Identity, usesPool: bool, c: Instances, own: Id, res: Creation, id: Id)
    requires id in c && (id != own || res.NoCompute?)
    ensures id in StartedCloud(me, usesPool, c, own, res) && StartedCloud(me, usesPool, c, own, res)[id] == c[id]
  {
    hide PopulateTags;
  }

  /** An instance of the pool that a refresh missed is still lost after the creation. */
  lemma MissedStaysLost(me: Identity, usesPool: bool, tag: Reason, s: System, key: PodKey, annotation: Id,
                        res: Creation,
                        id: Id)
    requires Exclusive(me, s) && key !in s.pods && UsesRefresh(res.compute)
    requires CreationPossible(me, usesPool, s.cloud, annotation, res)
    requires id in s.cloud && PoolTagged(me, s.cloud[id]) &&
        !Kept(me, s.cloud, res.compute.page, res.compute.failed, id)
    ensures !Conserved(After(me, usesPool, tag, s, key, annotation, res))
  {
    var t := After(me, usesPool, tag, s, key, annotation, res);
    PoolForms(me, usesPool, tag, s, key, annotation, res);
    RefreshOne(me, s, res.compute.page, res.compute.failed, id);
    PoolFrame(me, usesPool, tag, s, key, annotation, res, id);
    assert Live(s.cloud[id]) && forall k :: k in s.pods ==> s.pods[k] != id;
    hide After, PartlyRefreshed, PoolTagged, Kept, CreationPossible, Exclusive, Conserved;
    assert id !in t.pods.Values;
    LostIsNotConserved(t, id);
  }

  /** Creating an uncached pod leaves the live instances exactly accounted for in some endings and
      never in the others: never when the pod's old instance is re-used, when the pod's tag cannot
      be written, when the launched instance gets no address, when the instance of a failed
      application cannot be terminated, or when the refresh missed an instance of the pool. */
  lemma CreateConservesIffLossless(me: Identity, usesPool: bool, tag: Reason, s: System, key: PodKey, annotation: Id,
                                   res: Creation)
    requires Good(me, s) && key !in s.pods && tag.SetPod? && CreationPossible(me, usesPool, s.cloud, annotation, res)
    ensures Conserved(After(me, usesPool, tag, s, key, annotation, res)) <==> CreationLossless(me, s.cloud, res)
  {
    hide After, Clean;
    if res.compute.Reused? {
      ReuseOutcomes(me, usesPool, tag, s, key, annotation, res);
    } else if !UsesRefresh(res.compute) {
      LaunchOutcomes(me, usesPool, tag, s, key, annotation, res);
    } else if NothingMissed(me, s.cloud, res.compute.page, res.compute.failed) {
      PoolOutcomes(me, usesPool, tag, s, key, annotation, res);
    } else {
      GoodIsExclusive(me, s);
      var id :| id in s.cloud && PoolTagged(me, s.cloud[id]) &&
          !Kept(me, s.cloud, res.compute.page, res.compute.failed, id);
      MissedStaysLost(me, usesPool, tag, s, key, annotation, res, id);
    }
  }

  // ------------------------------------------------------------ what lossless endings keep

  /** The tags the pod asks for do not make its instance look like one of the pool's. */
  predicate UserTagsAreHarmless(me: Identity, o: Compute) {
    (o.NoAddress? || o.FromLaunch?) ==> !PoolTagged(me, o.x)
  }

  /** Such a creation keeps the whole invariant. */
  lemma LosslessCreationKeepsGood(me: Identity, usesPool: bool, tag: Reason, s: System, key: PodKey, annotation: Id,
                                  res: Creation)
    requires Good(me, s) && key !in s.pods && tag.SetPod? && CreationPossible(me, usesPool, s.cloud, annotation, res)
    requires CreationLossless(me, s.cloud, res) && UserTagsAreHarmless(me, res.compute)
    ensures Good(me, After(me, usesPool, tag, s, key, annotation, res))
  {
    if UsesRefresh(res.compute) {
      hide After;
      PoolOutcomes(me, usesPool, tag, s, key, annotation, res);
    } else if res.compute.Reused? {
      ReuseForms(me, usesPool, tag, s, key, annotation, res);
      hide After, Good;
    } else {
      LaunchForms(me, usesPool, tag, s, key, annotation, res);
      if res.compute.FromLaunch? {
        LaunchKeepsGood(me, s, key, res.compute.id, res.compute.x);
        LaunchAndEndKeepsGood(me, s, res.compute.id, res.compute.x);
      }
      hide After, Good, Launched, Ended;
    }
  }

  lemma OnePageMissesNothing(me: Identity, c: Instances, pageSize: nat, page: set<Id>)
    requires IsPage(me, c, pageSize, page) && |FilteredIds(me, c)| <= pageSize
    ensures NothingMissed(me, c, page, {})
  {
    if |page| >= pageSize {
      FullSubset(FilteredIds(me, c), page);
    }
    CompleteMissesNothing(me, c);
  }

  /** When EC2 does as it is told, describes everything on one page, and the pod does not come
      with a running instance of its own, creating an uncached pod, whether or not its
      application can be launched, keeps the whole invariant. */
  lemma UndisturbedCreationKeepsGood(me: Identity, pageSize: nat, usesPool: bool, tag: Reason, s: System, key: PodKey,
                                     annotation: Id, res: Creation)
    requires Good(me, s) && key !in s.pods && tag.SetPod? && CreationPossible(me, usesPool, s.cloud, annotation, res)
    requires Undisturbed(me, pageSize, s.cloud, annotation, res) && |FilteredIds(me, s.cloud)| <= pageSize
    requires !RunningIn(s.cloud, annotation) && UserTagsAreHarmless(me, res.compute)
    ensures Good(me, After(me, usesPool, tag, s, key, annotation, res))
  {
    if UsesRefresh(res.compute) {
      OnePageMissesNothing(me, s.cloud, pageSize, res.compute.page);
    }
    hide Good, After, NothingMissed;
    LosslessCreationKeepsGood(me, usesPool, tag, s, key, annotation, res);
  }

  /** A complete refresh makes up for any earlier incomplete one. */
  lemma CompleteRefreshAbsorbs(me: Identity, c: Instances, page: set<Id>, failed: set<Id>)
    requires page <= FilteredIds(me, c)
    ensures var c1 := RefreshedCloud(me, c, page, failed);
            && FilteredIds(me, c1) == FilteredIds(me, c)
            && RefreshedCloud(me, c1, FilteredIds(me, c1), {}) == RefreshedCloud(me, c, FilteredIds(me, c), {})
  {
    var c1 := RefreshedCloud(me, c, page, failed);
    forall id | id in c
      ensures Filtered(me, c1[id]) <==> Filtered(me, c[id])
    {
      RefreshedInstance(me, c, page, failed, id);
    }
    assert FilteredIds(me, c1) == FilteredIds(me, c) by {
      hide RefreshedCloud, Filtered;
      assert c1.Keys == c.Keys by { SameKeys(me, c, page, failed); }
    }
    RetaggedTwice(me, c, FilteredIds(me, c), page, failed);
  }

  lemma SameKeys(me: Identity, c: Instances, page: set<Id>, failed: set<Id>)
    ensures RefreshedCloud(me, c, page, failed).Keys == c.Keys
  {
  }

  lemma RetaggedTwice(me: Identity, c: Instances, all: set<Id>, page: set<Id>, failed: set<Id>)
    requires page <= all
    ensures RefreshedCloud(me, RefreshedCloud(me, c, page, failed), all, {}) == RefreshedCloud(me, c, all, {})
  {
  }

  /** When the pod's tag could not be written the instance is lost only until the next complete
      refresh, which restores the whole invariant and ends where it would have ended without the
      creation. */
  lemma RefreshRecoversLostInstance(me: Identity, usesPool: bool, tag: Reason, s: System, key: PodKey,
                                    annotation: Id, res: Creation)
    requires Good(me, s) && key !in s.pods && tag.SetPod? && res.NoCompute? && res.compute.PodTagFailed?
    requires CreationPossible(me, usesPool, s.cloud, annotation, res)
    ensures !Conserved(After(me, usesPool, tag, s, key, annotation, res))
    ensures Good(me, Refreshed(me, After(me, usesPool, tag, s, key, annotation, res)))
    ensures Refreshed(me, After(me, usesPool, tag, s, key, annotation, res)) == Refreshed(me, s)
  {
    CreateConservesIffLossless(me, usesPool, tag, s, key, annotation, res);
    PoolForms(me, usesPool, tag, s, key, annotation, res);
    CompleteRefreshAbsorbs(me, s.cloud, res.compute.page, res.compute.failed);
    CompleteMissesNothing(me, s.cloud);
    RefreshKeepsGood(me, s, FilteredIds(me, s.cloud), {});
    hide Good, Conserved, PoolOf, RefreshedCloud, FilteredIds, After, NothingMissed;
  }

  lemma RetaggedLive(me: Identity, s: System, id: Id, tag: Reason)
    requires id in s.cloud
    ensures LiveIds(Retagged(me, s, id, tag).cloud) == LiveIds(s.cloud)
  {
    hide PopulateTags;
  }

  /** What a successful creation without re-use takes. */
  lemma CreatedShape(me: Identity, usesPool: bool, tag: Reason, s: System, key: PodKey, annotation: Id, res: Creation)
    requires key !in s.pods && res.Created? && !res.compute.Reused? &&
        CreationPossible(me, usesPool, s.cloud, annotation, res)
    ensures var t := After(me, usesPool, tag, s, key, annotation, res);
            && t.pods == s.pods[key := res.compute.id]
            && LiveIds(t.cloud) == LiveIds(s.cloud) + (if res.compute.FromLaunch? then {res.compute.id} else {})
            && (res.compute.FromLaunch? ==> res.compute.id !in LiveIds(s.cloud) && t.pool == s.pool)
  {
    if res.compute.FromPool? {
      PoolForms(me, usesPool, tag, s, key, annotation, res);
      RefreshFrame(me, s, res.compute.page, res.compute.failed);
      var p := Popped(PartlyRefreshed(me, s, res.compute.page, res.compute.failed), key, res.compute.id);
      RetaggedLive(me, p, res.compute.id, tag);
      RetaggedLive(me, Retagged(me, p, res.compute.id, tag), res.compute.id, SetInUse);
      hide After, PartlyRefreshed, LiveIds, FilteredIds, PopulateTags;
    }
  }

  lemma DeleteFromShape(pods: map<PodKey, Id>, t: System, key: PodKey, id: Id)
    requires key !in pods && t.pods == pods[key := id]
    ensures var u := Ended(t, id).(pods := t.pods - {key});
            && u.pods == pods && u.pool == t.pool && LiveIds(u.cloud) == LiveIds(t.cloud) - {id}
            && (Conserved(t) ==> Conserved(u))
  {
    assert LiveIds(Ended(t, id).cloud) == LiveIds(t.cloud) - {id};
    if Conserved(t) {
      EndPodConserves(t, key);
    }
    hide Conserved;
  }

  /** Deleting a pod gives back all that creating it took: the cached pods are the same again, and
      the live instances are those from before, less the one taken from the pool. */
  lemma DeleteUndoesCreate(me: Identity, usesPool: bool, tag: Reason, s: System, key: PodKey, annotation: Id,
                           res: Creation)
    requires Good(me, s) && key !in s.pods && tag.SetPod? && res.Created? && !res.compute.Reused?
    requires CreationPossible(me, usesPool, s.cloud, annotation, res)
    ensures var t := After(me, usesPool, tag, s, key, annotation, res);
            var u := Ended(t, res.compute.id).(pods := t.pods - {key});
            && t.pods == s.pods[key := res.compute.id] && u.pods == s.pods
            && LiveIds(u.cloud) == LiveIds(s.cloud) - {res.compute.id}
            && (res.compute.FromLaunch? ==> LiveIds(u.cloud) == LiveIds(s.cloud) && u.pool == s.pool)
            && (CreationLossless(me, s.cloud, res) ==> Conserved(u))
  {
    var t := After(me, usesPool, tag, s, key, annotation, res);
    CreateConservesIffLossless(me, usesPool, tag, s, key, annotation, res);
    CreatedShape(me, usesPool, tag, s, key, annotation, res);
    hide After, Conserved, Good, LiveIds, CreationPossible, CreationLossless;
    DeleteFromShape(s.pods, t, key, res.compute.id);
  }

  // ------------------------------------------------------------ which endings keep the pods apart

  /** The instance a created pod ends up with is no other pod's and out of the pool: a re-used one
      must have been neither another pod's nor in the index, and, unless it is retagged, must not
      look like one of the pool's; nor must a launched one with tags the pod asked for. */
  ghost predicate TakesOwnInstance(me: Identity, usesPool: bool, s: System, res: Creation) {
    StaysCached(res) ==>
      match res.compute
      case Reused(id) =>
        && (forall k :: k in s.pods ==> s.pods[k] != id) && id !in s.pool.ready && id !in s.pool.provisioning
        && (id in s.cloud && PoolTagged(me, s.cloud[id]) ==> res.Created? && usesPool)
      case FromLaunch(_, x) => !PoolTagged(me, x)
      case _ => true
  }

  /** Noting an instance on a pod keeps the pods apart exactly if it is nobody's. */
  lemma NotingKeepsExclusiveIff(me: Identity, s: System, key: PodKey, id: Id)
    requires Exclusive(me, s) && key !in s.pods
    ensures Exclusive(me, s.(pods := s.pods[key := id])) <==>
            OutOfPool(me, s, id) && forall k :: k in s.pods ==> s.pods[k] != id
  {
    hide PoolTagged, KeysMatch;
    var t := s.(pods := s.pods[key := id]);
    if Exclusive(me, t) {
      forall k | k in s.pods ensures s.pods[k] != id {
        assert t.pods[k] == s.pods[k] && t.pods[key] == id;
      }
      assert OutOfPool(me, t, t.pods[key]);
    }
  }

  lemma RetagForPodKeepsExclusive(me: Identity, s: System, id: Id, tag: Reason)
    requires id in s.cloud && (tag.SetPod? || tag.SetInUse?)
    ensures !PoolTagged(me, Retagged(me, s, id, tag).cloud[id])
    ensures Exclusive(me, s) ==> Exclusive(me, Retagged(me, s, id, tag))
  {
    var x := s.cloud[id];
    assert StatusOf(x.tags + PopulateTags(me, tag)) == Some(if tag.SetPod? then PendingPod else PodInUse);
    assert !PoolTagged(me, Retagged(me, s, id, tag).cloud[id]);
    hide PoolTagged, PopulateTags, KeysMatch, StatusOf;
  }

  lemma EndingKeepsExclusive(me: Identity, s: System, id: Id)
    requires Exclusive(me, s)
    ensures Exclusive(me, Ended(s, id))
  {
    assert forall k :: k in s.cloud ==> PoolTagged(me, Ended(s, id).cloud[k]) ==> PoolTagged(me, s.cloud[k]);
    hide PoolTagged, KeysMatch;
  }

  lemma ForgettingKeepsExclusive(me: Identity, s: System, key: PodKey)
    requires Exclusive(me, s)
    ensures Exclusive(me, s.(pods := s.pods - {key}))
  {
    hide PoolTagged, KeysMatch;
  }

  lemma LaunchingKeepsExclusive(me: Identity, s: System, id: Id, x: Instance)
    requires Exclusive(me, s) && id !in s.cloud && id != ""
    ensures Exclusive(me, Launched(s, id, x))
    ensures forall k :: k in s.pods ==> s.pods[k] != id
    ensures OutOfPool(me, Launched(s, id, x), id) <==> !PoolTagged(me, x)
  {
    hide PoolTagged, KeysMatch;
  }

  lemma PoppingKeepsExclusive(me: Identity, r: System, key: PodKey, id: Id)
    requires Exclusive(me, r) && id in r.pool.ready
    ensures Exclusive(me, Popped(r, key, id).(pods := r.pods))
    ensures forall k :: k in r.pods ==> r.pods[k] != id
    ensures id !in Popped(r, key, id).pool.ready && id !in Popped(r, key, id).pool.provisioning && id in r.cloud
  {
    hide PoolTagged;
  }

  /** Taking an instance from the pool and tagging it for the pod, in one step. */
  lemma TakingKeepsExclusive(me: Identity, r: System, key: PodKey, id: Id, tag: Reason)
    requires Exclusive(me, r) && key !in r.pods && id in r.pool.ready && id in r.cloud && tag.SetPod?
    ensures Exclusive(me, Retagged(me, Popped(r, key, id), id, tag))
  {
    var p := Popped(r, key, id).(pods := r.pods);
    PoppingKeepsExclusive(me, r, key, id);
    RetagForPodKeepsExclusive(me, p, id, tag);
    var q := Retagged(me, p, id, tag);
    NotingKeepsExclusiveIff(me, q, key, id);
    hide Exclusive, PoolTagged, PopulateTags;
    assert q.(pods := q.pods[key := id]) == Retagged(me, Popped(r, key, id), id, tag);
  }

  lemma TakenFormsKeepExclusive(me: Identity, r: System, key: PodKey, id: Id, tag: Reason)
    requires Exclusive(me, r) && key !in r.pods && id in r.pool.ready && id in r.cloud && tag.SetPod?
    ensures var m := Retagged(me, Popped(r, key, id), id, tag);
            && Exclusive(me, m) && Exclusive(me, Retagged(me, m, id, SetInUse))
            && Exclusive(me, Ended(m, id).(pods := r.pods))
            && Exclusive(me, Retagged(me, Popped(r, key, id).(pods := r.pods), id, tag))
  {
    var m := Retagged(me, Popped(r, key, id), id, tag);
    assert r.pods[key := id] - {key} == r.pods;
    hide Exclusive, PopulateTags, Terminated;
    PoppingKeepsExclusive(me, r, key, id);
    TakingKeepsExclusive(me, r, key, id, tag);
    RetagForPodKeepsExclusive(me, m, id, SetInUse);
    RetagForPodKeepsExclusive(me, Popped(r, key, id).(pods := r.pods), id, tag);
    EndingKeepsExclusive(me, m, id);
    ForgettingKeepsExclusive(me, Ended(m, id), key);
  }

  lemma PoolCreationKeepsExclusive(me: Identity, usesPool: bool, tag: Reason, s: System, key: PodKey, annotation: Id,
                                   res: Creation)
    requires Exclusive(me, s) && key !in s.pods && UsesRefresh(res.compute) && tag.SetPod?
    requires CreationPossible(me, usesPool, s.cloud, annotation, res)
    ensures Exclusive(me, After(me, usesPool, tag, s, key, annotation, res))
  {
    PoolForms(me, usesPool, tag, s, key, annotation, res);
    var r := PartlyRefreshed(me, s, res.compute.page, res.compute.failed);
    RefreshKeepsExclusive(me, s, res.compute.page, res.compute.failed);
    assert r.pods == s.pods;
    hide After, PartlyRefreshed, Exclusive, CreationPossible, Retagged, Popped, Ended;
    if !res.compute.PoolEmpty? {
      PoppingKeepsExclusive(me, r, key, res.compute.id);
      TakenFormsKeepExclusive(me, r, key, res.compute.id, tag);
    }
  }

  lemma ReuseKeepsExclusiveIff(me: Identity, usesPool: bool, tag: Reason, s: System, key: PodKey, annotation: Id,
                               res: Creation)
    requires Exclusive(me, s) && key !in s.pods && res.compute.Reused?
    requires CreationPossible(me, usesPool, s.cloud, annotation, res)
    ensures Exclusive(me, After(me, usesPool, tag, s, key, annotation, res)) <==> TakesOwnInstance(me, usesPool, s, res)
  {
    ReuseForms(me, usesPool, tag, s, key, annotation, res);
    if res.AppFailed? {
      EndingKeepsExclusive(me, s, annotation);
      hide After, Exclusive, Ended;
    } else {
      var tagged := Retagged(me, s, annotation, SetInUse);
      RetagForPodKeepsExclusive(me, s, annotation, SetInUse);
      NotingKeepsExclusiveIff(me, s, key, annotation);
      NotingKeepsExclusiveIff(me, tagged, key, annotation);
      hide After, Exclusive, PoolTagged, PopulateTags;
      assert tagged.(pods := tagged.pods[key := annotation]) ==
          Retagged(me, s.(pods := s.pods[key := annotation]), annotation, SetInUse);
    }
  }

  lemma LaunchKeepsExclusiveIff(me: Identity, usesPool: bool, tag: Reason, s: System, key: PodKey, annotation: Id,
                                res: Creation)
    requires Exclusive(me, s) && key !in s.pods && !res.compute.Reused? && !UsesRefresh(res.compute)
    requires CreationPossible(me, usesPool, s.cloud, annotation, res)
    ensures Exclusive(me, After(me, usesPool, tag, s, key, annotation, res)) <==> TakesOwnInstance(me, usesPool, s, res)
  {
    LaunchForms(me, usesPool, tag, s, key, annotation, res);
    if !res.compute.NotLaunched? {
      var id, l := res.compute.id, Launched(s, res.compute.id, res.compute.x);
      LaunchingKeepsExclusive(me, s, id, res.compute.x);
      EndingKeepsExclusive(me, l, id);
      NotingKeepsExclusiveIff(me, l, key, id);
      assert l.pods == s.pods;
    }
    hide After, Exclusive, PoolTagged, Launched, Ended, OutOfPool;
  }

  /** However a creation ends and whatever EC2 refuses to do, it keeps the pods' instances apart
      exactly if the instance the pod ends up with is nobody else's.  That fails only for a re-used
      instance or for one launched with the pool's own tags, never for one from the pool. */
  lemma CreateKeepsExclusiveIff(me: Identity, usesPool: bool, tag: Reason, s: System, key: PodKey, annotation: Id,
                                res: Creation)
    requires Exclusive(me, s) && key !in s.pods && tag.SetPod? &&
        CreationPossible(me, usesPool, s.cloud, annotation, res)
    ensures Exclusive(me, After(me, usesPool, tag, s, key, annotation, res)) <==> TakesOwnInstance(me, usesPool, s, res)
  {
    hide After, Exclusive, TakesOwnInstance;
    if res.compute.Reused? {
      ReuseKeepsExclusiveIff(me, usesPool, tag, s, key, annotation, res);
    } else if UsesRefresh(res.compute) {
      PoolCreationKeepsExclusive(me, usesPool, tag, s, key, annotation, res);
      assert TakesOwnInstance(me, usesPool, s, res) by {
        PoolTakesOwn(me, usesPool, s, res);
      }
    } else {
      LaunchKeepsExclusiveIff(me, usesPool, tag, s, key, annotation, res);
    }
  }

  lemma PoolTakesOwn(me: Identity, usesPool: bool, s: System, res: Creation)
    requires UsesRefresh(res.compute)
    ensures TakesOwnInstance(me, usesPool, s, res)
  {
  }
}
