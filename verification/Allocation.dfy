/** Who owns which instance: the cloud, the warm pool's index and the pods of the cache,
    considered together over whole runs of the provider. */
module Allocation {
  import opened Common
  import opened Cloud
  import opened WarmPool
  import opened PoolDepth

  type PodKey = string

  /** `pods` maps the key of each cached pod to its instance-id annotation. */
  datatype System = System(cloud: Instances, pool: Pool, pods: map<PodKey, Id>)

  predicate Injective(pods: map<PodKey, Id>) {
    forall k, l :: k in pods && l in pods && pods[k] == pods[l] ==> k == l
  }

  /** The live instances are exactly the disjoint union of the ready ones, the provisioning ones
      and those of the cached pods, one for each pod. */
  ghost predicate Conserved(s: System) {
    && s.pool.ready.Keys !! s.pool.provisioning.Keys
    && s.pool.ready.Keys !! s.pods.Values && s.pool.provisioning.Keys !! s.pods.Values
    && Injective(s.pods)
    && LiveIds(s.cloud) == s.pool.ready.Keys + s.pool.provisioning.Keys + s.pods.Values
  }

  /** Would a refresh file this instance as ready or provisioning? */
  predicate PoolTagged(me: Identity, x: Instance) {
    Filtered(me, x) && (StatusOf(x.tags) == Some(Ready) || StatusOf(x.tags) == Some(PendingWarmpool))
  }

  /** The instances of the index carry the tags that put them there. */
  ghost predicate PoolTagsAgree(me: Identity, s: System) {
    && (forall id :: id in s.pool.ready ==>
          id in s.cloud && Filtered(me, s.cloud[id]) && StatusOf(s.cloud[id].tags) == Some(Ready))
    && (forall id :: id in s.pool.provisioning ==>
          id in s.cloud && Filtered(me, s.cloud[id]) && StatusOf(s.cloud[id].tags) == Some(PendingWarmpool))
  }

  /** No instance of a pod carries a tag that would put it back into the pool. */
  ghost predicate PodsTaggedAway(me: Identity, s: System) {
    forall key :: key in s.pods && s.pods[key] in s.cloud ==> !PoolTagged(me, s.cloud[s.pods[key]])
  }

  ghost predicate Aligned(me: Identity, s: System) {
    PoolTagsAgree(me, s) && PodsTaggedAway(me, s) && PoolSound(s.pool) && Known(s.pool, s.cloud)
  }

  ghost predicate Good(me: Identity, s: System) {
    Conserved(s) && Aligned(me, s)
  }

  /** An instance EC2 knows, that the index does not offer and no refresh would bring back. */
  predicate OutOfPool(me: Identity, s: System, id: Id) {
    id in s.cloud && id !in s.pool.ready && id !in s.pool.provisioning && !PoolTagged(me, s.cloud[id])
  }

  /** What keeps the pods' instances apart, whatever else may have been lost: no two pods share
      one, and the pool neither offers nor will reclaim any. */
  ghost predicate Exclusive(me: Identity, s: System) {
    && PoolSound(s.pool) && Known(s.pool, s.cloud) && Injective(s.pods)
    && forall key :: key in s.pods ==> OutOfPool(me, s, s.pods[key])
  }

  lemma GoodIsExclusive(me: Identity, s: System)
    requires Good(me, s)
    ensures Exclusive(me, s)
  {
    forall key | key in s.pods ensures OutOfPool(me, s, s.pods[key]) {
      PodInstanceIsLive(s, key);
    }
  }

  lemma PodInstanceIsLive(s: System, key: PodKey)
    requires Conserved(s) && key in s.pods
    ensures s.pods[key] in s.cloud && Live(s.cloud[s.pods[key]])
    ensures s.pods[key] !in s.pool.ready && s.pods[key] !in s.pool.provisioning
  {
    assert s.pods[key] in s.pods.Values;
    assert s.pods[key] in LiveIds(s.cloud);
  }

  // ------------------------------------------------------------ the operations

  /** A refresh that listed `page` and failed to retag `failed`; one that could not list anything
      has an empty page. */
  function PartlyRefreshed(me: Identity, s: System, page: set<Id>, failed: set<Id>): System {
    var cloud := RefreshedCloud(me, s.cloud, page, failed);
    s.(cloud := cloud, pool := PoolOf(page, cloud))
  }

  /** A refresh that listed everything and failed in nothing. */
  function Refreshed(me: Identity, s: System): System {
    PartlyRefreshed(me, s, FilteredIds(me, s.cloud), {})
  }

  /** A ready instance is taken out of the index and noted on a pod. */
  function Popped(s: System, key: PodKey, id: Id): System {
    s.(pool := s.pool.(ready := s.pool.ready - {id}), pods := s.pods[key := id])
  }

  function Retagged(me: Identity, s: System, id: Id, reason: Reason): System
    requires id in s.cloud
  {
    s.(cloud := Tagged(s.cloud, id, PopulateTags(me, reason)))
  }

  function Launched(s: System, id: Id, x: Instance): System {
    s.(cloud := s.cloud[id := x])
  }

  function Ended(s: System, id: Id): System {
    s.(cloud := Terminated(s.cloud, {id}))
  }

  function Booted(s: System, id: Id): System
    requires id in s.cloud
  {
    s.(cloud := s.cloud[id := s.cloud[id].(run := Running)])
  }

  /** A freshly launched instance that no refresh would take for the pool's. */
  predicate FreshInstance(me: Identity, s: System, id: Id, x: Instance) {
    id !in s.cloud && id != "" && Live(x) && !PoolTagged(me, x)
  }

  // ------------------------------------------------------------ refresh

  /** Does a refresh with this page and these failures keep the instance in the pool? */
  predicate Kept(me: Identity, c: Instances, page: set<Id>, failed: set<Id>, id: Id)
    requires id in c
  {
    id in page && PoolTagged(me, c[id]) && !(Promotable(c[id]) && id in failed)
  }

  /** What a refresh does to one instance. */
  lemma RefreshOne(me: Identity, s: System, page: set<Id>, failed: set<Id>, id: Id)
    requires id in s.cloud && page <= FilteredIds(me, s.cloud)
    ensures var r := PartlyRefreshed(me, s, page, failed);
            && r.cloud.Keys == s.cloud.Keys
            && r.cloud[id].run == s.cloud[id].run
            && (PoolTagged(me, r.cloud[id]) <==> PoolTagged(me, s.cloud[id]))
            && (id in r.pool.ready || id in r.pool.provisioning <==> Kept(me, s.cloud, page, failed, id))
            && (id in r.pool.ready ==> Filtered(me, r.cloud[id]) && StatusOf(r.cloud[id].tags) == Some(Ready))
            && (id in r.pool.provisioning ==>
                  Filtered(me, r.cloud[id]) && StatusOf(r.cloud[id].tags) == Some(PendingWarmpool))
  {
    var x := RefreshedCloud(me, s.cloud, page, failed)[id];
    RefreshedInstance(me, s.cloud, page, failed, id);
    BinFollowsTag(x);
    assert id in page ==> Filtered(me, s.cloud[id]) && Filtered(me, x);
    hide RefreshedCloud, BinOf, Filtered, PopulateTags, StatusOf;
  }

  lemma RefreshFrame(me: Identity, s: System, page: set<Id>, failed: set<Id>)
    requires page <= FilteredIds(me, s.cloud)
    ensures var r := PartlyRefreshed(me, s, page, failed);
            && r.pods == s.pods && r.cloud.Keys == s.cloud.Keys && LiveIds(r.cloud) == LiveIds(s.cloud)
            && r.pool.ready.Keys <= s.cloud.Keys && r.pool.provisioning.Keys <= s.cloud.Keys
            && PoolSound(r.pool)
  {
    forall id | id in s.cloud
      ensures Live(PartlyRefreshed(me, s, page, failed).cloud[id]) <==> Live(s.cloud[id])
    {
      RefreshedInstance(me, s.cloud, page, failed, id);
    }
    IndexShape(page, RefreshedCloud(me, s.cloud, page, failed));
    hide RefreshedCloud, BinOf, Filtered, PopulateTags, KeysMatch;
  }

  /** The pool's instances that the page listed and that were not stuck between the tags. */
  function KeptIds(me: Identity, c: Instances, page: set<Id>, failed: set<Id>): set<Id> {
    set id | id in c && Kept(me, c, page, failed, id)
  }

  function PoolIds(me: Identity, c: Instances): set<Id> {
    set id | id in c && PoolTagged(me, c[id])
  }

  /** After a refresh the index holds exactly those. */
  lemma RefreshedPool(me: Identity, s: System, page: set<Id>, failed: set<Id>)
    requires page <= FilteredIds(me, s.cloud)
    ensures var r := PartlyRefreshed(me, s, page, failed);
            && r.pool.ready.Keys + r.pool.provisioning.Keys == KeptIds(me, s.cloud, page, failed)
            && PoolIds(me, r.cloud) == PoolIds(me, s.cloud)
  {
    RefreshFrame(me, s, page, failed);
    var r := PartlyRefreshed(me, s, page, failed);
    forall id | id in s.cloud
      ensures id in r.pool.ready.Keys + r.pool.provisioning.Keys <==> Kept(me, s.cloud, page, failed, id)
      ensures PoolTagged(me, r.cloud[id]) <==> PoolTagged(me, s.cloud[id])
    {
      RefreshOne(me, s, page, failed, id);
    }
    hide PartlyRefreshed, Kept, PoolTagged;
  }

  /** The live instances that no refresh would file as ready or provisioning. */
  function OutsidePool(me: Identity, c: Instances): set<Id> {
    set id | id in c && Live(c[id]) && !PoolTagged(me, c[id])
  }

  /** The page lists every instance of the pool, and none of those that have come up is stuck
      because it could not be retagged. */
  ghost predicate NothingMissed(me: Identity, c: Instances, page: set<Id>, failed: set<Id>) {
    forall id :: id in c && PoolTagged(me, c[id]) ==> id in page && !(Promotable(c[id]) && id in failed)
  }

  lemma CompleteMissesNothing(me: Identity, c: Instances)
    ensures NothingMissed(me, c, FilteredIds(me, c), {})
  {
  }

  lemma MissedIff(me: Identity, c: Instances, page: set<Id>, failed: set<Id>)
    ensures NothingMissed(me, c, page, failed) <==> KeptIds(me, c, page, failed) == PoolIds(me, c)
  {
    hide PoolTagged, Promotable;
    if KeptIds(me, c, page, failed) == PoolIds(me, c) {
      forall id | id in c && PoolTagged(me, c[id]) ensures id in page && !(Promotable(c[id]) && id in failed) {
        assert id in PoolIds(me, c);
      }
    }
  }

  /** In a conserved system whose tags agree with it, the pods hold the live instances outside
      the pool and the index those in it. */
  lemma GoodPartition(me: Identity, s: System)
    requires Good(me, s)
    ensures s.pods.Values == OutsidePool(me, s.cloud) && Injective(s.pods)
    ensures s.pool.ready.Keys + s.pool.provisioning.Keys == PoolIds(me, s.cloud)
  {
    forall id ensures id in s.pods.Values <==> id in OutsidePool(me, s.cloud) {
      if id in s.pods.Values {
        var key :| key in s.pods && s.pods[key] == id;
        PodInstanceIsLive(s, key);
      }
    }
    hide StatusOf, KeysMatch;
    assert LiveIds(s.cloud) == PoolIds(me, s.cloud) + OutsidePool(me, s.cloud);
  }

  /** Conservation of a system whose pods hold the live instances outside the pool comes down to
      what the index holds. */
  lemma ConservedIff(me: Identity, r: System)
    requires r.pool.ready.Keys !! r.pool.provisioning.Keys && Injective(r.pods)
    requires r.pods.Values == OutsidePool(me, r.cloud)
    requires r.pool.ready.Keys + r.pool.provisioning.Keys <= PoolIds(me, r.cloud)
    ensures Conserved(r) <==> r.pool.ready.Keys + r.pool.provisioning.Keys == PoolIds(me, r.cloud)
  {
    hide PoolTagged;
    var pool := r.pool.ready.Keys + r.pool.provisioning.Keys;
    assert LiveIds(r.cloud) == PoolIds(me, r.cloud) + OutsidePool(me, r.cloud) by {
      PoolIdsLive(me, r.cloud);
    }
    assert PoolIds(me, r.cloud) !! OutsidePool(me, r.cloud);
    if Conserved(r) {
      assert LiveIds(r.cloud) == pool + OutsidePool(me, r.cloud);
      assert forall id :: id in PoolIds(me, r.cloud) ==> id in LiveIds(r.cloud);
    }
  }

  lemma PoolIdsLive(me: Identity, c: Instances)
    ensures PoolIds(me, c) <= LiveIds(c)
  {
  }

  lemma OutsideKept(me: Identity, s: System, page: set<Id>, failed: set<Id>)
    requires page <= FilteredIds(me, s.cloud)
    ensures OutsidePool(me, PartlyRefreshed(me, s, page, failed).cloud) == OutsidePool(me, s.cloud)
  {
    var r := PartlyRefreshed(me, s, page, failed);
    forall id | id in s.cloud
      ensures r.cloud.Keys == s.cloud.Keys && r.cloud[id].run == s.cloud[id].run
      ensures PoolTagged(me, r.cloud[id]) <==> PoolTagged(me, s.cloud[id])
    {
      RefreshOne(me, s, page, failed, id);
    }
    RefreshFrame(me, s, page, failed);
    hide PartlyRefreshed, PoolTagged;
  }

  /** Any refresh of a good system, complete or not, keeps it conserved exactly when it misses
      none of the pool's instances. */
  lemma RefreshConservesIffNothingMissed(me: Identity, s: System, page: set<Id>, failed: set<Id>)
    requires Good(me, s) && page <= FilteredIds(me, s.cloud)
    ensures Conserved(PartlyRefreshed(me, s, page, failed)) <==> NothingMissed(me, s.cloud, page, failed)
  {
    var r := PartlyRefreshed(me, s, page, failed);
    GoodPartition(me, s);
    RefreshFrame(me, s, page, failed);
    RefreshedPool(me, s, page, failed);
    OutsideKept(me, s, page, failed);
    MissedIff(me, s.cloud, page, failed);
    assert KeptIds(me, s.cloud, page, failed) <= PoolIds(me, s.cloud);
    hide PartlyRefreshed, Conserved, Aligned, NothingMissed, Kept, PoolTagged, OutsidePool, KeptIds, PoolIds, KeysMatch;
    ConservedIff(me, r);
  }

  /** The tags and the index agree after any refresh, and pods' instances stay out of the pool. */
  lemma RefreshAligns(me: Identity, s: System, page: set<Id>, failed: set<Id>)
    requires PodsTaggedAway(me, s) && page <= FilteredIds(me, s.cloud) && "" !in s.cloud
    ensures Aligned(me, PartlyRefreshed(me, s, page, failed))
  {
    var r := PartlyRefreshed(me, s, page, failed);
    RefreshFrame(me, s, page, failed);
    forall id | id in s.cloud
      ensures PoolTagged(me, r.cloud[id]) <==> PoolTagged(me, s.cloud[id])
      ensures id in r.pool.ready ==> Filtered(me, r.cloud[id]) && StatusOf(r.cloud[id].tags) == Some(Ready)
      ensures id in r.pool.provisioning ==>
          Filtered(me, r.cloud[id]) && StatusOf(r.cloud[id].tags) == Some(PendingWarmpool)
    {
      RefreshOne(me, s, page, failed, id);
    }
    hide PartlyRefreshed, StatusOf, Filtered, PoolTagged, KeysMatch;
  }

  /** Such a refresh keeps the whole invariant. */
  lemma RefreshKeepsGood(me: Identity, s: System, page: set<Id>, failed: set<Id>)
    requires Good(me, s) && page <= FilteredIds(me, s.cloud) && NothingMissed(me, s.cloud, page, failed)
    ensures Good(me, PartlyRefreshed(me, s, page, failed))
  {
    RefreshConservesIffNothingMissed(me, s, page, failed);
    RefreshAligns(me, s, page, failed);
    hide PartlyRefreshed, Conserved, NothingMissed, PoolTagsAgree, PodsTaggedAway;
  }

  /** Whatever the index and the cached pods were, one complete refresh establishes the whole
      invariant exactly when the pods hold, one each, the live instances not tagged for the
      pool.  So it holds from the first refresh on, and it is recovered after a restart. */
  lemma RefreshEstablishesGoodIff(me: Identity, s: System)
    requires "" !in s.cloud
    ensures Good(me, Refreshed(me, s)) <==> Injective(s.pods) && s.pods.Values == OutsidePool(me, s.cloud)
  {
    var r := Refreshed(me, s);
    var page := FilteredIds(me, s.cloud);
    RefreshFrame(me, s, page, {});
    RefreshedPool(me, s, page, {});
    OutsideKept(me, s, page, {});
    CompleteMissesNothing(me, s.cloud);
    MissedIff(me, s.cloud, page, {});
    if Injective(s.pods) && s.pods.Values == OutsidePool(me, s.cloud) {
      PodsOutsideAreTaggedAway(me, s);
      RefreshAligns(me, s, page, {});
      hide PartlyRefreshed, Conserved, Aligned, NothingMissed, KeptIds, PoolIds, OutsidePool, KeysMatch;
      ConservedIff(me, r);
    } else if Good(me, r) {
      hide PartlyRefreshed, Conserved, Aligned, NothingMissed, KeptIds, PoolIds, OutsidePool, KeysMatch;
      GoodPartition(me, r);
    }
  }

  lemma PodsOutsideAreTaggedAway(me: Identity, s: System)
    requires s.pods.Values == OutsidePool(me, s.cloud)
    ensures PodsTaggedAway(me, s)
  {
    hide PoolTagged;
    forall key | key in s.pods ensures s.pods[key] in OutsidePool(me, s.cloud) {
      assert s.pods[key] in s.pods.Values;
    }
  }

  /** A complete refresh of a conserved system keeps it conserved exactly when no pod's instance
      is still tagged for the pool. */
  lemma RefreshConservesIff(me: Identity, s: System)
    requires Conserved(s) && PoolTagsAgree(me, s)
    ensures Conserved(Refreshed(me, s)) <==> PodsTaggedAway(me, s)
  {
    var page := FilteredIds(me, s.cloud);
    RefreshFrame(me, s, page, {});
    RefreshedPool(me, s, page, {});
    if PodsTaggedAway(me, s) {
      ConservedPartition(me, s);
      OutsideKept(me, s, page, {});
      CompleteMissesNothing(me, s.cloud);
      MissedIff(me, s.cloud, page, {});
      hide PartlyRefreshed, Conserved, NothingMissed, KeptIds, PoolIds, OutsidePool, KeysMatch;
      ConservedIff(me, Refreshed(me, s));
    } else {
      hide PartlyRefreshed;
      var key :| key in s.pods && s.pods[key] in s.cloud && PoolTagged(me, s.cloud[s.pods[key]]);
      assert s.pods[key] in s.pods.Values;
      assert s.pods[key] in KeptIds(me, s.cloud, page, {});
    }
  }

  lemma ConservedPartition(me: Identity, s: System)
    requires Conserved(s) && PoolTagsAgree(me, s) && PodsTaggedAway(me, s)
    ensures s.pods.Values == OutsidePool(me, s.cloud)
  {
    forall id ensures id in s.pods.Values <==> id in OutsidePool(me, s.cloud) {
      if id in s.pods.Values {
        var key :| key in s.pods && s.pods[key] == id;
        PodInstanceIsLive(s, key);
      }
    }
  }

  /** A refresh of any kind keeps the pods' instances apart. */
  lemma RefreshKeepsExclusive(me: Identity, s: System, page: set<Id>, failed: set<Id>)
    requires Exclusive(me, s) && page <= FilteredIds(me, s.cloud)
    ensures Exclusive(me, PartlyRefreshed(me, s, page, failed))
  {
    RefreshFrame(me, s, page, failed);
    var r := PartlyRefreshed(me, s, page, failed);
    forall key | key in r.pods ensures OutOfPool(me, r, r.pods[key]) {
      RefreshOne(me, s, page, failed, s.pods[key]);
    }
    hide PartlyRefreshed, OutOfPool, KeysMatch;
  }

  const TwoReady: Instance := Instance(Running, PopulateTags(Identity("n", "c"), SetReady), "")

  /** Two ready instances and nothing else. */
  const TwoInPool: System :=
    System(map["a" := TwoReady, "b" := TwoReady],
           EmptyPool.(ready := map["a" := InfoOf("a", TwoReady), "b" := InfoOf("b", TwoReady)]), map[])

  lemma TwoInPoolIsGood()
    ensures Good(Identity("n", "c"), TwoInPool) && FilteredIds(Identity("n", "c"), TwoInPool.cloud) == {"a", "b"}
    ensures PoolTagged(Identity("n", "c"), TwoReady)
  {
    var me := Identity("n", "c");
    assert Filtered(me, TwoReady) && StatusOf(TwoReady.tags) == Some(Ready) && Live(TwoReady);
    hide Filtered, StatusOf, PopulateTags, Live;
    assert LiveIds(TwoInPool.cloud) == {"a", "b"};
    assert TwoInPool.pool.ready.Keys == {"a", "b"};
  }

  /** With pages of one instance, a refresh of that system loses one of them. */
  lemma ShortPageLosesInstance()
    ensures var me := Identity("n", "c");
            && Good(me, TwoInPool) && IsPage(me, TwoInPool.cloud, 1, {"a"})
            && !Conserved(PartlyRefreshed(me, TwoInPool, {"a"}, {}))
  {
    TwoInPoolIsGood();
    hide Good, PoolTagged, FilteredIds, PartlyRefreshed;
    assert "b" in TwoInPool.cloud && TwoInPool.cloud["b"] == TwoReady && "b" !in {"a"};
    RefreshConservesIffNothingMissed(Identity("n", "c"), TwoInPool, {"a"}, {});
  }
}
