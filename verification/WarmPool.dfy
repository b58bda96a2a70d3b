/** The warm pool: an in-memory index of the instances kept ready for pods, rebuilt from their
    tags, steered towards a desired depth, and drawn on when a pod needs an instance. */
module WarmPool {
  import opened Common
  import opened Cloud

  datatype Ec2Info = Ec2Info(
    instanceId: Id,
    privateIP: string,
    iamProfile: string,
    securityGroups: seq<string>,
    retryCount: int)

  type Entries = map<Id, Ec2Info>

  /** What a configuration without subnets leaves behind instead of an instance. */
  const Unlaunched: Ec2Info := Ec2Info("", "", "", [""], 0)

  datatype Pool = Pool(ready: Entries, provisioning: Entries, unhealthy: Entries, inUse: Entries)

  const EmptyPool: Pool := Pool(map[], map[], map[], map[])

  /** `desired` is an ordinary integer; a configuration without subnets launches nothing. */
  datatype PoolConfig = PoolConfig(desired: int, subnets: nat)

  datatype Reason =
    | InitialSetup
    | SetReady
    | SetUnhealthy
    | SetPod(name: string, namespace: string, uid: string)
    | SetInUse

  function PopulateTags(me: Identity, reason: Reason): Tags {
    var status := match reason
      case InitialSetup => PendingWarmpool
      case SetReady => Ready
      case SetUnhealthy => Unhealthy
      case SetPod(_, _, _) => PendingPod
      case SetInUse => PodInUse;
    (if reason.SetPod? then
       map[WarmpoolPodName := Text(reason.name), WarmpoolPodNamespace := Text(reason.namespace),
           WarmpoolPodUid := Text(reason.uid)]
     else map[])
    + map[NodeName := Text(me.node), ClusterName := Text(me.cluster), WarmpoolStatus := Status(status)]
  }

  /** What each reason writes: always the node, the cluster and a status, and for a pod its name,
      namespace and uid as well. */
  lemma PopulatedTags(me: Identity, reason: Reason)
    ensures var tags := PopulateTags(me, reason);
            && {NodeName, ClusterName, WarmpoolStatus} <= tags.Keys
            && tags[NodeName] == Text(me.node) && tags[ClusterName] == Text(me.cluster)
            && tags[WarmpoolStatus] == Status(match reason
                                              case InitialSetup => PendingWarmpool
                                              case SetReady => Ready
                                              case SetUnhealthy => Unhealthy
                                              case SetPod(_, _, _) => PendingPod
                                              case SetInUse => PodInUse)
            && match reason
               case SetPod(name, namespace, uid) =>
                 && tags.Keys == {NodeName, ClusterName, WarmpoolStatus, WarmpoolPodName, WarmpoolPodNamespace,
                                  WarmpoolPodUid}
                 && tags[WarmpoolPodName] == Text(name) && tags[WarmpoolPodNamespace] == Text(namespace)
                 && tags[WarmpoolPodUid] == Text(uid)
               case _ => tags.Keys == {NodeName, ClusterName, WarmpoolStatus}
  {
  }

  /** An instance retagged for a reason belongs to this node's and cluster's pool, has the status
      that goes with the reason and, if it is for a pod, names that pod; it keeps the tags that
      launched it, its run state and its address, and the other instances keep everything. */
  lemma RetaggedInstance(me: Identity, reason: Reason, c: Instances, id: Id)
    requires id in c
    ensures var c' := Tagged(c, id, PopulateTags(me, reason));
            var before, after := c[id].tags, if id in c' then c'[id].tags else map[];
            && c' == c[id := c[id].(tags := after)]
            && NodeName in after && after[NodeName] == Text(me.node)
            && ClusterName in after && after[ClusterName] == Text(me.cluster)
            && WarmpoolStatus in after
            && after[WarmpoolStatus] == Status(match reason
                                               case InitialSetup => PendingWarmpool
                                               case SetReady => Ready
                                               case SetUnhealthy => Unhealthy
                                               case SetPod(_, _, _) => PendingPod
                                               case SetInUse => PodInUse)
            && (reason.SetPod? ==>
                  && {WarmpoolPodName, WarmpoolPodNamespace, WarmpoolPodUid} <= after.Keys
                  && after[WarmpoolPodName] == Text(reason.name)
                  && after[WarmpoolPodNamespace] == Text(reason.namespace)
                  && after[WarmpoolPodUid] == Text(reason.uid))
            && (forall k :: k in before && k.UserTag? ==> k in after && after[k] == before[k])
            && (!reason.SetPod? ==>
                  forall k :: k in before && k != NodeName && k != ClusterName && k != WarmpoolStatus ==>
                    k in after && after[k] == before[k])
  {
    PopulatedTags(me, reason);
    hide PopulateTags;
  }

  // ----------------------------------------------------------- the index and the tags

  function InfoOf(id: Id, x: Instance): Ec2Info {
    Ec2Info(id, x.ip, "", [], 0)
  }

  /** A provisioning instance that has come up, which a refresh retags as ready. */
  predicate Promotable(x: Instance) {
    StatusOf(x.tags) == Some(PendingWarmpool) && x.run.Running?
  }

  /** The cloud after a refresh that listed `page` and failed to retag `failed`. */
  function RefreshedCloud(me: Identity, c: Instances, page: set<Id>, failed: set<Id>): Instances {
    map id | id in c ::
      if id in page && Promotable(c[id]) && id !in failed
      then c[id].(tags := c[id].tags + PopulateTags(me, SetReady)) else c[id]
  }

  /** The four maps of the index. */
  datatype Bin = ReadyBin | ProvisioningBin | UnhealthyBin | InUseBin

  /** Which map an instance belongs to, going by its tag. */
  function BinOf(x: Instance): Option<Bin> {
    match StatusOf(x.tags)
    case None => None
    case Some(Ready) => Some(ReadyBin)
    case Some(PendingWarmpool) => if x.run.Running? then None else Some(ProvisioningBin)
    case Some(Unhealthy) => Some(UnhealthyBin)
    case Some(PendingPod) => Some(InUseBin)
    case Some(PodInUse) => Some(InUseBin)
  }

  function Select(page: set<Id>, c: Instances, bin: Bin): Entries {
    map id | id in page && id in c && BinOf(c[id]) == Some(bin) :: InfoOf(id, c[id])
  }

  /** The index of the instances in `page`, by the tags they have in `c`. */
  function PoolOf(page: set<Id>, c: Instances): Pool {
    Pool(Select(page, c, ReadyBin), Select(page, c, ProvisioningBin),
         Select(page, c, UnhealthyBin), Select(page, c, InUseBin))
  }

  /** The index with one more instance filed under its tag. */
  function Filed(p: Pool, id: Id, x: Instance): Pool {
    match BinOf(x)
    case None => p
    case Some(ReadyBin) => p.(ready := p.ready[id := InfoOf(id, x)])
    case Some(ProvisioningBin) => p.(provisioning := p.provisioning[id := InfoOf(id, x)])
    case Some(UnhealthyBin) => p.(unhealthy := p.unhealthy[id := InfoOf(id, x)])
    case Some(InUseBin) => p.(inUse := p.inUse[id := InfoOf(id, x)])
  }

  lemma SelectExtend(page: set<Id>, c: Instances, id: Id, x: Instance, bin: Bin)
    requires id !in page && id in c && page <= c.Keys
    ensures Select(page + {id}, c[id := x], bin) ==
            if BinOf(x) == Some(bin) then Select(page, c, bin)[id := InfoOf(id, x)] else Select(page, c, bin)
  {
    hide BinOf;
  }

  lemma PoolOfExtend(page: set<Id>, c: Instances, id: Id, x: Instance)
    requires id !in page && id in c && page <= c.Keys
    ensures PoolOf(page + {id}, c[id := x]) == Filed(PoolOf(page, c), id, x)
  {
    hide Select;
    SelectExtend(page, c, id, x, ReadyBin);
    SelectExtend(page, c, id, x, ProvisioningBin);
    SelectExtend(page, c, id, x, UnhealthyBin);
    SelectExtend(page, c, id, x, InUseBin);
  }

  lemma RefreshedExtend(me: Identity, c: Instances, page: set<Id>, failed: set<Id>, id: Id, retagged: bool)
    requires id in c && id !in page && failed <= page && (retagged ==> Promotable(c[id]))
    ensures var before := RefreshedCloud(me, c, page, failed);
            && before[id] == c[id]
            && RefreshedCloud(me, c, page + {id}, if !retagged && Promotable(c[id]) then failed + {id} else failed)
               == if retagged then Tagged(before, id, PopulateTags(me, SetReady)) else before
  {
  }

  predicate PairwiseDisjoint(p: Pool) {
    && p.ready.Keys !! p.provisioning.Keys && p.ready.Keys !! p.unhealthy.Keys && p.ready.Keys !! p.inUse.Keys
    && p.provisioning.Keys !! p.unhealthy.Keys && p.provisioning.Keys !! p.inUse.Keys
    && p.unhealthy.Keys !! p.inUse.Keys
  }

  predicate KeysMatch(e: Entries) {
    forall id :: id in e ==> e[id].instanceId == id
  }

  lemma IndexShape(page: set<Id>, c: Instances)
    ensures var p := PoolOf(page, c);
            && PairwiseDisjoint(p)
            && KeysMatch(p.ready) && KeysMatch(p.provisioning) && KeysMatch(p.unhealthy) && KeysMatch(p.inUse)
  {
    hide BinOf;
  }

  /** An entry of the index is the id and the address of a listed instance, and nothing else. */
  lemma IndexEntries(page: set<Id>, c: Instances, id: Id)
    ensures var p := PoolOf(page, c);
            && (id in p.ready ==> id in c && p.ready[id] == Ec2Info(id, c[id].ip, "", [], 0))
            && (id in p.provisioning ==> id in c && p.provisioning[id] == Ec2Info(id, c[id].ip, "", [], 0))
            && (id in p.unhealthy ==> id in c && p.unhealthy[id] == Ec2Info(id, c[id].ip, "", [], 0))
            && (id in p.inUse ==> id in c && p.inUse[id] == Ec2Info(id, c[id].ip, "", [], 0))
  {
    hide BinOf;
  }

  /** A refresh leaves alone, and keeps out of the index, every instance that is dead or not tagged
      for this very node and cluster; a complete page holds all the others. */
  lemma OtherInstancesAreLeftAlone(me: Identity, c: Instances, page: set<Id>, failed: set<Id>, id: Id)
    requires page <= FilteredIds(me, c) && id in c
    ensures var x := c[id];
            var own := && x.run != Dead
                       && NodeName in x.tags && x.tags[NodeName] == Text(me.node)
                       && ClusterName in x.tags && x.tags[ClusterName] == Text(me.cluster);
            var c' := RefreshedCloud(me, c, page, failed);
            var p := PoolOf(page, c');
            && id in c'
            && (own <==> id in FilteredIds(me, c))
            && (!own ==>
                  && c'[id] == x
                  && id !in p.ready && id !in p.provisioning && id !in p.unhealthy && id !in p.inUse)
  {
    hide BinOf, PopulateTags;
  }

  /** A refresh from any earlier state whose page listed every filtered instance leaves four
      disjoint maps, keyed by instance id, that hold exactly the live filtered instances under
      the tag they now have; only the instances whose retagging failed are missing. */
  lemma RefreshRebuildsIndex(me: Identity, c: Instances, failed: set<Id>)
    ensures var c' := RefreshedCloud(me, c, FilteredIds(me, c), failed);
            var p := PoolOf(FilteredIds(me, c), c');
            && FilteredIds(me, c') == FilteredIds(me, c)
            && PairwiseDisjoint(p)
            && KeysMatch(p.ready) && KeysMatch(p.provisioning) && KeysMatch(p.unhealthy) && KeysMatch(p.inUse)
            && (forall id :: id in p.ready <==>
                  id in c' && Filtered(me, c'[id]) && StatusOf(c'[id].tags) == Some(Ready))
            && (forall id :: id in p.provisioning <==>
                  id in c' && Filtered(me, c'[id]) && StatusOf(c'[id].tags) == Some(PendingWarmpool)
                  && !(id in failed && c'[id].run.Running?))
            && (forall id :: id in p.unhealthy <==>
                  id in c' && Filtered(me, c'[id]) && StatusOf(c'[id].tags) == Some(Unhealthy))
            && (forall id :: id in p.inUse <==>
                  id in c' && Filtered(me, c'[id])
                  && (StatusOf(c'[id].tags) == Some(PendingPod) || StatusOf(c'[id].tags) == Some(PodInUse)))
  {
    var page := FilteredIds(me, c);
    var c' := RefreshedCloud(me, c, page, failed);
    forall id | id in c
      ensures Filtered(me, c'[id]) <==> Filtered(me, c[id])
      ensures id in page && Promotable(c'[id]) ==> id in failed
    {
      RefreshedInstance(me, c, page, failed, id);
    }
    IndexShape(page, c');
    hide RefreshedCloud, PopulateTags, Filtered, StatusOf, PairwiseDisjoint, KeysMatch, BinOf;
    forall id | id in c
      ensures BinOf(c'[id]) == Some(ReadyBin) <==> StatusOf(c'[id].tags) == Some(Ready)
      ensures BinOf(c'[id]) == Some(ProvisioningBin) <==>
          StatusOf(c'[id].tags) == Some(PendingWarmpool) && !Promotable(c'[id])
      ensures BinOf(c'[id]) == Some(UnhealthyBin) <==> StatusOf(c'[id].tags) == Some(Unhealthy)
      ensures BinOf(c'[id]) == Some(InUseBin) <==>
          StatusOf(c'[id].tags) == Some(PendingPod) || StatusOf(c'[id].tags) == Some(PodInUse)
    {
      BinFollowsTag(c'[id]);
    }
  }

  lemma BinFollowsTag(x: Instance)
    ensures BinOf(x) == Some(ReadyBin) <==> StatusOf(x.tags) == Some(Ready)
    ensures BinOf(x) == Some(ProvisioningBin) <==> StatusOf(x.tags) == Some(PendingWarmpool) && !Promotable(x)
    ensures BinOf(x) == Some(UnhealthyBin) <==> StatusOf(x.tags) == Some(Unhealthy)
    ensures BinOf(x) == Some(InUseBin) <==> StatusOf(x.tags) == Some(PendingPod) || StatusOf(x.tags) == Some(PodInUse)
  {
  }

  /** A refresh makes a running instance tagged as provisioning ready, if the call succeeds; it
      keeps every other tag of it, its run state and its address. */
  lemma RefreshedInstance(me: Identity, c: Instances, page: set<Id>, failed: set<Id>, id: Id)
    requires id in c
    ensures var x := RefreshedCloud(me, c, page, failed)[id];
            var promoted := && id in page && id !in failed && c[id].run == Running
                            && WarmpoolStatus in c[id].tags && c[id].tags[WarmpoolStatus] == Status(PendingWarmpool);
            && x.run == c[id].run && x.ip == c[id].ip
            && StatusOf(x.tags) == (if promoted then Some(Ready) else StatusOf(c[id].tags))
            && (promoted ==>
                  && x.tags.Keys == c[id].tags.Keys + {NodeName, ClusterName}
                  && x.tags[WarmpoolStatus] == Status(Ready)
                  && x.tags[NodeName] == Text(me.node) && x.tags[ClusterName] == Text(me.cluster)
                  && forall k :: k in c[id].tags && k !in {NodeName, ClusterName, WarmpoolStatus} ==>
                       x.tags[k] == c[id].tags[k])
            && (id in page ==> (page <= FilteredIds(me, c) ==> Filtered(me, x)))
            && (!promoted ==> x == c[id])
  {
  }

  /** When every retagging succeeds, refreshing again changes neither the tags nor the index. */
  lemma SecondRefreshChangesNothing(me: Identity, c: Instances)
    ensures var c' := RefreshedCloud(me, c, FilteredIds(me, c), {});
            && RefreshedCloud(me, c', FilteredIds(me, c'), {}) == c'
            && PoolOf(FilteredIds(me, c'), c') == PoolOf(FilteredIds(me, c), c')
  {
    RefreshRebuildsIndex(me, c, {});
  }

  /** Every filtered instance with a pool status is in the index of the page. */
  ghost predicate IndexComplete(me: Identity, c: Instances, page: set<Id>) {
    var p := PoolOf(page, RefreshedCloud(me, c, page, {}));
    forall id :: id in FilteredIds(me, c) && StatusOf(c[id].tags).Some? ==>
      id in p.ready.Keys + p.provisioning.Keys + p.unhealthy.Keys + p.inUse.Keys
  }

  lemma SubsetOfSize<T>(s: set<T>, n: nat) returns (t: set<T>)
    requires n <= |s|
    ensures t <= s && |t| == n
  {
    if n == 0 {
      t := {};
    } else {
      var x :| x in s;
      t := SubsetOfSize(s - {x}, n - 1);
      t := t + {x};
    }
  }

  lemma FullSubset<T>(s: set<T>, t: set<T>)
    requires t <= s && |t| >= |s|
    ensures t == s
  {
    assert |s - t| == |s| - |t|;
  }

  /** The loop reads one page only.  Its index is complete, whichever page EC2 answers with,
      exactly when the filtered instances fit on one page (or none of them has a status). */
  lemma IndexIsCompleteIffOnePage(me: Identity, c: Instances, pageSize: nat)
    ensures (forall page :: IsPage(me, c, pageSize, page) ==> IndexComplete(me, c, page)) <==>
            |FilteredIds(me, c)| <= pageSize || forall id :: id in FilteredIds(me, c) ==> StatusOf(c[id].tags).None?
  {
    var all := FilteredIds(me, c);
    if |all| <= pageSize {
      forall page | IsPage(me, c, pageSize, page) ensures IndexComplete(me, c, page) {
        if |page| >= pageSize {
          FullSubset(all, page);
        }
        ListedIsFiled(me, c, page);
      }
    } else if id :| id in all && StatusOf(c[id].tags).Some? {
      var page := SubsetOfSize(all - {id}, pageSize);
      assert IsPage(me, c, pageSize, page);
      FiledSomewhere(me, c, page, id);
      assert !IndexComplete(me, c, page);
    }
  }

  lemma ListedIsFiled(me: Identity, c: Instances, page: set<Id>)
    requires page == FilteredIds(me, c)
    ensures IndexComplete(me, c, page)
  {
    forall id | id in FilteredIds(me, c) && StatusOf(c[id].tags).Some?
      ensures var p := PoolOf(page, RefreshedCloud(me, c, page, {}));
              id in p.ready.Keys + p.provisioning.Keys + p.unhealthy.Keys + p.inUse.Keys
    {
      FiledSomewhere(me, c, page, id);
    }
  }

  lemma FiledSomewhere(me: Identity, c: Instances, page: set<Id>, id: Id)
    requires id in c && StatusOf(c[id].tags).Some?
    ensures var p := PoolOf(page, RefreshedCloud(me, c, page, {}));
            id in p.ready.Keys + p.provisioning.Keys + p.unhealthy.Keys + p.inUse.Keys <==> id in page
  {
    var x := RefreshedCloud(me, c, page, {})[id];
    if id in page {
      assert BinOf(x).Some?;
    }
  }
}
