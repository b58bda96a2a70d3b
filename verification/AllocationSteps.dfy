/** What each elementary operation keeps of the allocation invariants. */
module AllocationSteps {
  import opened Common
  import opened Cloud
  import opened WarmPool
  import opened PoolDepth
  import opened Allocation

  // ------------------------------------------------------------ taking from the pool

  lemma PopConserves(me: Identity, s: System, key: PodKey, id: Id)
    requires Conserved(s) && PoolTagsAgree(me, s) && PoolSound(s.pool) && Known(s.pool, s.cloud)
    requires key !in s.pods && id in s.pool.ready
    ensures var p := Popped(s, key, id);
            Conserved(p) && PoolTagsAgree(me, p) && PoolSound(p.pool) && Known(p.pool, p.cloud)
  {
    hide StatusOf, KeysMatch;
    var p := Popped(s, key, id);
    assert p.pods.Values == s.pods.Values + {id} by {
      NewValue(s.pods, key, id);
    }
    assert id !in s.pods.Values;
    assert forall k :: k in s.pods ==> s.pods[k] in s.pods.Values;
    KeysMatchSmaller(s.pool.ready, id);
  }

  lemma KeysMatchSmaller(e: Entries, id: Id)
    requires KeysMatch(e)
    ensures KeysMatch(e - {id})
  {
  }

  lemma NewValue(pods: map<PodKey, Id>, key: PodKey, id: Id)
    requires key !in pods
    ensures pods[key := id].Values == pods.Values + {id}
  {
    var q := pods[key := id];
    forall v ensures v in q.Values <==> v in pods.Values + {id} {
      if v in pods.Values {
        var k :| k in pods && pods[k] == v;
        assert q[k] == v;
      }
      assert q[key] == id;
    }
  }

  lemma LostValue(pods: map<PodKey, Id>, key: PodKey)
    requires key in pods && Injective(pods)
    ensures (pods - {key}).Values == pods.Values - {pods[key]} && Injective(pods - {key})
  {
    var q := pods - {key};
    forall v ensures v in q.Values <==> v in pods.Values - {pods[key]} {
      if v in pods.Values && v != pods[key] {
        var k :| k in pods && pods[k] == v;
        assert q[k] == v;
      }
    }
  }

  lemma RetagConserves(me: Identity, s: System, id: Id, reason: Reason)
    requires Conserved(s) && id in s.cloud
    ensures Conserved(Retagged(me, s, id, reason))
  {
    hide PopulateTags;
    assert LiveIds(Retagged(me, s, id, reason).cloud) == LiveIds(s.cloud);
  }

  /** Tagging a pod's instance for the pod. */
  lemma TagForPodKeepsGood(me: Identity, s: System, key: PodKey, reason: Reason)
    requires Conserved(s) && PoolTagsAgree(me, s) && PoolSound(s.pool) && Known(s.pool, s.cloud)
    requires key in s.pods && s.pods[key] in s.cloud && (reason.SetPod? || reason.SetInUse?)
    requires forall k :: k in s.pods && k != key && s.pods[k] in s.cloud ==> !PoolTagged(me, s.cloud[s.pods[k]])
    ensures Good(me, Retagged(me, s, s.pods[key], reason))
  {
    var id := s.pods[key];
    var x := s.cloud[id];
    PodInstanceIsLive(s, key);
    TaggedForPool(me, reason, x.tags, x.run, x.ip);
    RetagConserves(me, s, id, reason);
    assert !PoolTagged(me, Retagged(me, s, id, reason).cloud[id]);
    RetaggedAligned(me, s, id, reason);
    hide PopulateTags, StatusOf, KeysMatch, Filtered, Conserved, PoolTagged, PoolTagsAgree;
  }

  /** Retagging an instance outside the pool does not disturb the index. */
  lemma RetaggedAligned(me: Identity, s: System, id: Id, reason: Reason)
    requires PoolTagsAgree(me, s) && PoolSound(s.pool) && Known(s.pool, s.cloud)
    requires id in s.cloud && id !in s.pool.ready && id !in s.pool.provisioning
    ensures var q := Retagged(me, s, id, reason);
            PoolTagsAgree(me, q) && PoolSound(q.pool) && Known(q.pool, q.cloud)
  {
    hide PopulateTags, StatusOf, KeysMatch, Filtered;
  }

  lemma FromPoolKeepsGood(me: Identity, s: System, key: PodKey, id: Id, reason: Reason)
    requires Good(me, s) && key !in s.pods && id in s.pool.ready && id in s.cloud
    requires reason.SetPod?
    ensures Good(me, Retagged(me, Popped(s, key, id), id, reason))
    ensures Good(me, Retagged(me, Retagged(me, Popped(s, key, id), id, reason), id, SetInUse))
  {
    hide Conserved, PoolTagsAgree, PoolSound, Known, PopulateTags, StatusOf;
    PopConserves(me, s, key, id);
    var p := Popped(s, key, id);
    TagForPodKeepsGood(me, p, key, reason);
    var q := Retagged(me, p, id, reason);
    assert q.pods[key] == id && id in q.cloud;
    TagForPodKeepsGood(me, q, key, SetInUse);
  }

  // ------------------------------------------------------------ ending and launching

  lemma EndPodConserves(s: System, key: PodKey)
    requires Conserved(s) && key in s.pods
    ensures Conserved(Ended(s, s.pods[key]).(pods := s.pods - {key}))
  {
    var id := s.pods[key];
    PodInstanceIsLive(s, key);
    LostValue(s.pods, key);
    assert LiveIds(Ended(s, id).cloud) == LiveIds(s.cloud) - {id};
  }

  /** Terminating a pod's instance and forgetting the pod. */
  lemma EndPodKeepsGood(me: Identity, s: System, key: PodKey)
    requires Good(me, s) && key in s.pods
    ensures Good(me, Ended(s, s.pods[key]).(pods := s.pods - {key}))
  {
    var id := s.pods[key];
    PodInstanceIsLive(s, key);
    EndPodConserves(s, key);
    OtherPodsDiffer(s, key);
    hide StatusOf, KeysMatch, Conserved, Filtered;
    EndedAligned(me, s, id);
  }

  lemma OtherPodsDiffer(s: System, key: PodKey)
    requires Conserved(s) && key in s.pods
    ensures forall k :: k in s.pods && k != key ==> s.pods[k] != s.pods[key]
  {
  }

  /** Ending an instance outside the pool leaves the index aligned with the tags. */
  lemma EndedAligned(me: Identity, s: System, id: Id)
    requires Aligned(me, s) && id !in s.pool.ready && id !in s.pool.provisioning
    ensures Aligned(me, Ended(s, id))
  {
    hide StatusOf, KeysMatch;
  }

  lemma LaunchConserves(s: System, key: PodKey, id: Id, x: Instance)
    requires Conserved(s) && key !in s.pods && id !in s.cloud && Live(x)
    ensures Conserved(Launched(s, id, x).(pods := s.pods[key := id]))
  {
    NewValue(s.pods, key, id);
    assert LiveIds(Launched(s, id, x).cloud) == LiveIds(s.cloud) + {id};
    assert id !in LiveIds(s.cloud);
    assert forall k :: k in s.pods ==> s.pods[k] in s.pods.Values;
  }

  /** A fresh instance that is not tagged for the pool leaves the index aligned. */
  lemma LaunchedAligned(me: Identity, s: System, id: Id, x: Instance)
    requires Aligned(me, s) && Conserved(s) && id !in s.cloud && id != ""
    ensures Aligned(me, Launched(s, id, x))
  {
    LaunchSparesPods(me, s, id, x);
    hide StatusOf, KeysMatch, Conserved, PoolTagged, Filtered, PodsTaggedAway;
  }

  lemma LaunchSparesPods(me: Identity, s: System, id: Id, x: Instance)
    requires PodsTaggedAway(me, s) && Conserved(s) && id !in s.cloud
    ensures PodsTaggedAway(me, Launched(s, id, x))
  {
    hide PoolTagged, Conserved;
    forall k | k in s.pods ensures s.pods[k] in s.cloud {
      PodInstanceIsLive(s, k);
    }
  }

  lemma LaunchKeepsGood(me: Identity, s: System, key: PodKey, id: Id, x: Instance)
    requires Good(me, s) && key !in s.pods && FreshInstance(me, s, id, x)
    ensures Good(me, Launched(s, id, x).(pods := s.pods[key := id]))
  {
    LaunchConserves(s, key, id, x);
    LaunchedAligned(me, s, id, x);
    assert !PoolTagged(me, x);
    hide StatusOf, KeysMatch, Conserved, PoolTagged, Filtered;
  }

  lemma LaunchAndEndKeepsGood(me: Identity, s: System, id: Id, x: Instance)
    requires Good(me, s) && FreshInstance(me, s, id, x)
    ensures Good(me, Ended(Launched(s, id, x), id))
  {
    LaunchedAligned(me, s, id, x);
    InPoolIsInCloud(me, s);
    EndedAligned(me, Launched(s, id, x), id);
    hide Aligned;
    assert LiveIds(Ended(Launched(s, id, x), id).cloud) == LiveIds(s.cloud);
  }

  lemma InPoolIsInCloud(me: Identity, s: System)
    requires Aligned(me, s)
    ensures s.pool.ready.Keys <= s.cloud.Keys && s.pool.provisioning.Keys <= s.cloud.Keys
  {
    hide StatusOf, KeysMatch, Filtered;
  }

  lemma BootConserves(s: System, id: Id)
    requires Conserved(s) && id in s.cloud && s.cloud[id].run.Pending?
    ensures Conserved(Booted(s, id))
  {
    assert LiveIds(Booted(s, id).cloud) == LiveIds(s.cloud);
  }

  lemma BootAligned(me: Identity, s: System, id: Id)
    requires Aligned(me, s) && id in s.cloud && s.cloud[id].run.Pending?
    ensures Aligned(me, Booted(s, id))
  {
    var x, y := s.cloud[id], Booted(s, id).cloud[id];
    assert (Filtered(me, y) <==> Filtered(me, x)) && StatusOf(y.tags) == StatusOf(x.tags);
    assert PoolTagged(me, y) <==> PoolTagged(me, x);
    hide KeysMatch, StatusOf, PoolTagged, Filtered;
  }

  lemma BootKeepsGood(me: Identity, s: System, id: Id)
    requires Good(me, s) && id in s.cloud && s.cloud[id].run.Pending?
    ensures Good(me, Booted(s, id))
  {
    hide Conserved, Aligned;
    BootConserves(s, id);
    BootAligned(me, s, id);
  }

  lemma RetaggedPods(me: Identity, r: System, key: PodKey, id: Id, reason: Reason)
    requires id in r.cloud && key !in r.pods
    ensures var q := Retagged(me, Popped(r, key, id), id, reason);
            key in q.pods && q.pods[key] == id && q.pods - {key} == r.pods
  {
    assert r.pods[key := id] - {key} == r.pods;
  }

  lemma FailedFromPoolKeepsGood(me: Identity, r: System, key: PodKey, id: Id, reason: Reason, pods: map<PodKey, Id>)
    requires Good(me, r) && key !in r.pods && id in r.pool.ready && id in r.cloud && reason.SetPod? && pods == r.pods
    ensures Good(me, Ended(Retagged(me, Popped(r, key, id), id, reason), id).(pods := pods))
  {
    FromPoolKeepsGood(me, r, key, id, reason);
    RetaggedPods(me, r, key, id, reason);
    EndPodKeepsGood(me, Retagged(me, Popped(r, key, id), id, reason), key) by {
      hide Good, PopulateTags, Ended, Retagged, Popped;
    }
    hide *;
  }

  // ------------------------------------------------------------ depth checks

  lemma TaggedForPool(me: Identity, reason: Reason, tags: Tags, run: RunState, ip: string)
    requires run != Dead
    ensures var x := Instance(run, tags + PopulateTags(me, reason), ip);
            Filtered(me, x) && StatusOf(x.tags) == Some(match reason
              case InitialSetup => PendingWarmpool
              case SetReady => Ready
              case SetUnhealthy => Unhealthy
              case SetPod(_, _, _) => PendingPod
              case SetInUse => PodInUse)
  {
  }

  lemma GrowthKeepsGood(me: Identity, s: System, s': System, launched: seq<Id>)
    requires Good(me, s) && s'.pods == s.pods && Grown(me, s.cloud, s.pool, s'.cloud, s'.pool, launched)
    ensures Good(me, s')
  {
    hide Conserved, PoolTagsAgree, PodsTaggedAway, Grown, PoolSound, Known;
    GrownSound(me, s.cloud, s.pool, s'.cloud, s'.pool, launched);
    GrowthConserves(me, s, s', launched);
    GrowthAgrees(me, s, s', launched);
    GrowthSparesPods(me, s, s', launched);
  }

  lemma GrowthAgrees(me: Identity, s: System, s': System, launched: seq<Id>)
    requires PoolTagsAgree(me, s) && Grown(me, s.cloud, s.pool, s'.cloud, s'.pool, launched)
    ensures PoolTagsAgree(me, s')
  {
    forall id | id in launched
      ensures Filtered(me, s'.cloud[id]) && StatusOf(s'.cloud[id].tags) == Some(PendingWarmpool)
    {
      TaggedForPool(me, InitialSetup, map[], Pending, s'.cloud[id].ip);
      assert map[] + PopulateTags(me, InitialSetup) == PopulateTags(me, InitialSetup);
      assert s'.cloud[id] == Instance(Pending, PopulateTags(me, InitialSetup), s'.cloud[id].ip);
    }
    hide PopulateTags, StatusOf, KeysMatch, Filtered, Distinct;
  }

  lemma GrowthSparesPods(me: Identity, s: System, s': System, launched: seq<Id>)
    requires Conserved(s) && PodsTaggedAway(me, s)
    requires s'.pods == s.pods && Grown(me, s.cloud, s.pool, s'.cloud, s'.pool, launched)
    ensures PodsTaggedAway(me, s')
  {
    hide Conserved, PopulateTags, PoolTagged, Distinct, GrownPool;
    forall key | key in s'.pods && s'.pods[key] in s'.cloud ensures !PoolTagged(me, s'.cloud[s'.pods[key]]) {
      PodInstanceIsLive(s, key);
    }
  }

  lemma GrowthConserves(me: Identity, s: System, s': System, launched: seq<Id>)
    requires Conserved(s) && s'.pods == s.pods && Grown(me, s.cloud, s.pool, s'.cloud, s'.pool, launched)
    ensures Conserved(s')
  {
    hide PopulateTags, Extends, Distinct, StatusOf;
    var added := Elements(launched);
    assert LiveIds(s'.cloud) == LiveIds(s.cloud) + added;
    forall id | id in added ensures id !in s.pods.Values && id !in s.pool.ready {
      assert id !in LiveIds(s.cloud);
    }
    assert s'.pool.ready == s.pool.ready;
  }

  lemma ShrinkingKeepsGood(me: Identity, s: System, s': System, released: seq<Id>)
    requires Good(me, s) && s'.pods == s.pods && Shrunk(s.pool, s'.pool, released)
    requires s'.cloud == Terminated(s.cloud, Elements(released))
    ensures Good(me, s')
  {
    ShrunkSound(s.pool, s'.pool, released);
    ShrunkKnown(s.pool, s.cloud, s'.pool, s'.cloud, released);
    ShrinkingConserves(s, s', released);
    hide Conserved, Distinct, KeysMatch, StatusOf;
    assert forall id :: id in s'.pool.ready || id in s'.pool.provisioning ==> id !in Elements(released);
  }

  lemma ShrinkingConserves(s: System, s': System, released: seq<Id>)
    requires Conserved(s) && s'.pods == s.pods && Shrunk(s.pool, s'.pool, released)
    requires s'.cloud == Terminated(s.cloud, Elements(released))
    ensures Conserved(s')
  {
    hide Distinct, Extends, StatusOf;
    assert s'.pool.ready.Keys <= s.pool.ready.Keys && s'.pool.provisioning.Keys <= s.pool.provisioning.Keys by {
      assert Extends(s.pool.ready, s'.pool.ready) && Extends(s.pool.provisioning, s'.pool.provisioning);
      SmallerKeys(s.pool.ready, s'.pool.ready);
      SmallerKeys(s.pool.provisioning, s'.pool.provisioning);
    }
    assert LiveIds(s'.cloud) == LiveIds(s.cloud) - Elements(released);
    assert Elements(released) !! s.pods.Values;
  }

  lemma SmallerKeys(big: Entries, small: Entries)
    requires Extends(big, small)
    ensures small.Keys <= big.Keys
  {
  }

  lemma ReleasedWereInPool(p: Pool, p': Pool, released: seq<Id>)
    requires Shrunk(p, p', released)
    ensures forall id :: id in released ==> id in p.ready || id in p.provisioning
  {
    hide Distinct, Extends;
    forall id | id in released ensures id in p.ready || id in p.provisioning {
      assert id in Elements(released) + p'.ready.Keys + p'.provisioning.Keys;
    }
  }

  /** A live instance nobody owns. */
  lemma LostIsNotConserved(s: System, id: Id)
    requires id in LiveIds(s.cloud) && id !in s.pool.ready && id !in s.pool.provisioning && id !in s.pods.Values
    ensures !Conserved(s)
  {
  }

  /** The depth checks that lose nothing: those that launch have subnets to launch into, or fail
      every time even to prepare the launch; those that let go of instances terminate them. */
  predicate DepthLossless(p: Pool, wpc: PoolConfig, o: DepthOutcome) {
    if Depth(p) < wpc.desired then wpc.subnets > 0 || o.failures == wpc.desired - Depth(p)
    else o.terminated || o.released == []
  }

  lemma NothingReleased(p: Pool, p': Pool, released: seq<Id>)
    requires Shrunk(p, p', released) && released == []
    requires p.ready.Keys !! p.provisioning.Keys
    ensures p' == p
  {
    assert Elements(released) == {};
    assert p'.ready.Keys == p.ready.Keys && p'.provisioning.Keys == p.provisioning.Keys by {
      assert p'.ready.Keys <= p.ready.Keys && p'.provisioning.Keys <= p.provisioning.Keys;
      assert forall id :: id in p.ready ==> id in p'.ready.Keys + p'.provisioning.Keys;
      assert forall id :: id in p.provisioning ==> id in p'.ready.Keys + p'.provisioning.Keys;
    }
  }

  lemma FiledNothingIsNotConserved(s: System)
    requires "" !in s.cloud && "" in s.pool.provisioning
    ensures !Conserved(s)
  {
    assert "" !in LiveIds(s.cloud);
  }

  lemma ReleasedAliveIsNotConserved(s: System, s': System, released: seq<Id>)
    requires Conserved(s) && Shrunk(s.pool, s'.pool, released) && released != []
    requires s'.pods == s.pods && s'.cloud == s.cloud
    ensures !Conserved(s')
  {
    var id := released[0];
    ReleasedWereInPool(s.pool, s'.pool, released);
    assert id in Elements(released);
    hide Extends, Distinct;
    assert id in LiveIds(s'.cloud);
    LostIsNotConserved(s', id);
  }

  /** A depth check of a good system keeps it conserved exactly if it loses nothing, and then it
      keeps the whole invariant. */
  lemma DepthCheckConservesIffLossless(me: Identity, s: System, wpc: PoolConfig, o: DepthOutcome, s': System)
    requires Good(me, s) && s'.pods == s.pods
    requires DepthChecked(me, s.cloud, s.pool, wpc, o, s'.cloud, s'.pool)
    ensures Conserved(s') <==> DepthLossless(s.pool, wpc, o)
    ensures Conserved(s') ==> Good(me, s')
  {
    if Depth(s.pool) < wpc.desired {
      if wpc.subnets > 0 {
        hide Good, Grown;
        GrowthKeepsGood(me, s, s', o.launched);
        assert Good(me, s') ==> Conserved(s') by { GoodConserved(me, s'); }
      } else if o.failures < wpc.desired - Depth(s.pool) {
        FiledNothingIsNotConserved(s');
      } else {
        assert s' == s;
      }
    } else if Depth(s.pool) > wpc.desired {
      hide Aligned, Grown, Depth, Conserved;
      if o.terminated {
        ShrinkingKeepsGood(me, s, s', o.released);
      } else if o.released == [] {
        ReadyApart(s);
        NothingReleased(s.pool, s'.pool, o.released);
        assert s' == s;
      } else {
        ReleasedAliveIsNotConserved(s, s', o.released);
      }
    } else {
      assert s' == s;
    }
  }

  lemma GoodConserved(me: Identity, s: System)
    requires Good(me, s)
    ensures Conserved(s)
  {
  }

  lemma ReadyApart(s: System)
    requires Conserved(s)
    ensures s.pool.ready.Keys !! s.pool.provisioning.Keys
  {
  }

  /** The pod still has its instance, and the instance is as it was. */
  predicate KeepsInstance(s: System, s': System, key: PodKey) {
    && key in s.pods && key in s'.pods && s'.pods[key] == s.pods[key]
    && s.pods[key] in s.cloud && s.pods[key] in s'.cloud && s'.cloud[s.pods[key]] == s.cloud[s.pods[key]]
  }

  /** Whatever its outcome, and whatever was lost before, a depth check never terminates, or
      otherwise touches, the instance of a pod, and keeps the pods' instances apart. */
  lemma DepthCheckSparesPods(me: Identity, s: System, wpc: PoolConfig, o: DepthOutcome, s': System)
    requires Exclusive(me, s) && s'.pods == s.pods
    requires DepthChecked(me, s.cloud, s.pool, wpc, o, s'.cloud, s'.pool)
    ensures Exclusive(me, s')
    ensures forall key :: key in s.pods ==> s.pods[key] !in o.released && KeepsInstance(s, s', key)
  {
    if Depth(s.pool) < wpc.desired {
      if wpc.subnets > 0 {
        GrowthKeepsExclusive(me, s, s', o.launched);
      } else {
        FilingKeepsExclusive(me, s, s');
      }
    } else if Depth(s.pool) > wpc.desired {
      ShrinkingKeepsExclusive(me, s, s', o.released);
    } else {
      hide PoolTagged, KeysMatch;
      assert s' == s;
    }
  }

  lemma GrowthKeepsExclusive(me: Identity, s: System, s': System, launched: seq<Id>)
    requires Exclusive(me, s) && s'.pods == s.pods && Grown(me, s.cloud, s.pool, s'.cloud, s'.pool, launched)
    ensures Exclusive(me, s') && forall key :: key in s.pods ==> KeepsInstance(s, s', key)
  {
    GrownSound(me, s.cloud, s.pool, s'.cloud, s'.pool, launched);
    hide PopulateTags, PoolTagged, KeysMatch, Distinct;
  }

  lemma FilingKeepsExclusive(me: Identity, s: System, s': System)
    requires Exclusive(me, s) && s'.pods == s.pods && s'.cloud == s.cloud
    requires s'.pool == s.pool || s'.pool == s.pool.(provisioning := s.pool.provisioning["" := Unlaunched])
    ensures Exclusive(me, s') && forall key :: key in s.pods ==> KeepsInstance(s, s', key)
  {
    hide PoolTagged;
  }

  lemma ShrinkingKeepsExclusive(me: Identity, s: System, s': System, released: seq<Id>)
    requires Exclusive(me, s) && s'.pods == s.pods && Shrunk(s.pool, s'.pool, released)
    requires s'.cloud == s.cloud || s'.cloud == Terminated(s.cloud, Elements(released))
    ensures Exclusive(me, s')
    ensures forall key :: key in s.pods ==> s.pods[key] !in released && KeepsInstance(s, s', key)
  {
    ShrunkSound(s.pool, s'.pool, released);
    ShrunkKnown(s.pool, s.cloud, s'.pool, s'.cloud, released);
    ReleasedWereInPool(s.pool, s'.pool, released);
    hide PoolTagged, KeysMatch, Shrunk, Known;
  }
}
