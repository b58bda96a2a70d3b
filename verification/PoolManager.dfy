/** The warm pool manager: the object that holds the index and talks to EC2. */
module PoolManager {
  import opened Common
  import opened Cloud
  import opened WarmPool
  import opened PoolDepth

  lemma GrownNothing(me: Identity, c: Instances, p: Pool)
    ensures Grown(me, c, p, c, p, [])
  {
  }

  lemma GrownOne(me: Identity, c: Instances, p: Pool, id: Id, x: Instance, info: Ec2Info)
    requires PoolSound(p) && Known(p, c) && id !in c && id != ""
    requires x.run.Pending? && x.tags == PopulateTags(me, InitialSetup) && info.instanceId == id
    ensures var p' := p.(provisioning := p.provisioning[id := info]);
            Grown(me, c, p, c[id := x], p', [id]) && PoolSound(p') && Known(p', c[id := x])
  {
    hide PopulateTags;
    assert Elements([id]) == {id};
  }

  lemma EmptyIdSound(p: Pool, c: Instances, info: Ec2Info)
    requires PoolSound(p) && Known(p, c) && info.instanceId == ""
    ensures var p' := p.(provisioning := p.provisioning["" := info]);
            PoolSound(p') && Known(p', c)
  {
  }

  lemma DistinctConcat<T>(a: seq<T>, b: seq<T>)
    requires Distinct(a) && Distinct(b) && Elements(a) !! Elements(b)
    ensures Distinct(a + b) && Elements(a + b) == Elements(a) + Elements(b)
  {
    forall i, j | 0 <= i < j < |a + b| ensures (a + b)[i] != (a + b)[j] {
      if i < |a| <= j {
        assert (a + b)[i] in Elements(a) && (a + b)[j] in Elements(b);
      }
    }
  }

  lemma GrownCloudTwice(me: Identity, c0: Instances, c1: Instances, c2: Instances, l1: set<Id>, l2: set<Id>)
    requires GrownCloud(me, c0, c1, l1) && GrownCloud(me, c1, c2, l2)
    ensures GrownCloud(me, c0, c2, l1 + l2) && l1 !! l2
  {
    hide PopulateTags;
  }

  lemma GrownPoolTwice(p0: Pool, p1: Pool, p2: Pool, l1: set<Id>, l2: set<Id>)
    requires GrownPool(p0, p1, l1) && GrownPool(p1, p2, l2)
    ensures GrownPool(p0, p2, l1 + l2)
  {
    forall id | id in l1 + l2 ensures p2.provisioning[id].instanceId == id {
      assert id in l1 ==> id in p1.provisioning;
    }
  }

  lemma GrownTwice(me: Identity, c0: Instances, p0: Pool, c1: Instances, p1: Pool, c2: Instances, p2: Pool,
                   l1: seq<Id>, l2: seq<Id>)
    requires Grown(me, c0, p0, c1, p1, l1) && Grown(me, c1, p1, c2, p2, l2)
    ensures Grown(me, c0, p0, c2, p2, l1 + l2)
  {
    hide GrownCloud, GrownPool, Distinct, Elements;
    GrownCloudTwice(me, c0, c1, c2, Elements(l1), Elements(l2));
    GrownPoolTwice(p0, p1, p2, Elements(l1), Elements(l2));
    DistinctConcat(l1, l2);
  }

  /** One more ready entry is let go. */
  lemma ShrunkReady(p0: Pool, p1: Pool, released: seq<Id>, id: Id)
    requires Shrunk(p0, p1, released) && PoolSound(p0) && id in p1.ready
    ensures Shrunk(p0, p1.(ready := p1.ready - {id}), released + [id])
  {
    hide KeysMatch;
    assert Elements(released + [id]) == Elements(released) + {id};
  }

  /** One more provisioning entry is let go, no ready one being left. */
  lemma ShrunkProvisioning(p0: Pool, p1: Pool, released: seq<Id>, id: Id)
    requires Shrunk(p0, p1, released) && PoolSound(p0) && p1.ready == map[] && id in p1.provisioning
    ensures Shrunk(p0, p1.(provisioning := p1.provisioning - {id}), released + [id])
  {
    hide KeysMatch;
    assert Elements(released + [id]) == Elements(released) + {id};
  }

  /** One entry less: a ready one if there was one. */
  ghost predicate ReleasedOne(p: Pool, id: Id, p': Pool) {
    if p.ready != map[] then id in p.ready && p' == p.(ready := p.ready - {id})
    else id in p.provisioning && p' == p.(provisioning := p.provisioning - {id})
  }

  lemma ShrunkOnce(p0: Pool, p1: Pool, p2: Pool, released: seq<Id>, id: Id)
    requires Shrunk(p0, p1, released) && PoolSound(p0) && ReleasedOne(p1, id, p2)
    ensures Shrunk(p0, p2, released + [id])
  {
    hide Shrunk, PoolSound;
    if p1.ready != map[] {
      ShrunkReady(p0, p1, released, id);
    } else {
      ShrunkProvisioning(p0, p1, released, id);
    }
  }

  lemma ShrunkNothing(p: Pool)
    requires PoolSound(p)
    ensures Shrunk(p, p, [])
  {
  }

  lemma IndexIsSound(me: Identity, c: Instances, page: set<Id>, failed: set<Id>)
    requires "" !in c && page <= c.Keys
    ensures var c' := RefreshedCloud(me, c, page, failed);
            PoolSound(PoolOf(page, c')) && Known(PoolOf(page, c'), c')
  {
    IndexShape(page, RefreshedCloud(me, c, page, failed));
    hide BinOf, PopulateTags, KeysMatch;
  }

  /** The effect of filing one instance: retagged if it has come up and the call succeeded, and
      put into the map of the tag it then has. */
  ghost predicate FiledInstance(me: Identity, c: Instances, p: Pool, id: Id, retagFailed: bool, c': Instances, p': Pool)
    requires id in c
  {
    && (retagFailed ==> Promotable(c[id]))
    && c' == (if Promotable(c[id]) && !retagFailed then Tagged(c, id, PopulateTags(me, SetReady)) else c)
    && p' == Filed(p, id, c'[id])
  }

  lemma UntaggedIsNotFiled(me: Identity, c: Instances, p: Pool, id: Id)
    requires id in c && WarmpoolStatus !in c[id].tags
    ensures FiledInstance(me, c, p, id, false, c, p)
  {
  }

  /** The result of a refresh: the tags and the index agree on the instances of the page. */
  ghost predicate Indexed(me: Identity, c: Instances, page: set<Id>, failed: set<Id>, c': Instances, p': Pool) {
    c' == RefreshedCloud(me, c, page, failed) && p' == PoolOf(page, c')
  }

  lemma NothingIndexed(me: Identity, c: Instances)
    ensures Indexed(me, c, {}, {}, c, EmptyPool)
  {
  }

  lemma NotYetFiled(me: Identity, c: Instances, page: set<Id>, failed: set<Id>, c1: Instances, p1: Pool, id: Id)
    requires Indexed(me, c, page, failed, c1, p1) && id in c && id !in page
    ensures id in c1 && c1[id] == c[id] && c1.Keys == c.Keys
  {
  }

  lemma FileStep(me: Identity, c: Instances, page: set<Id>, failed: set<Id>, c1: Instances, p1: Pool, id: Id,
                 retagFailed: bool, c2: Instances, p2: Pool)
    requires Indexed(me, c, page, failed, c1, p1) && id in c && id !in page && page <= c.Keys && failed <= page
    requires id in c1 && FiledInstance(me, c1, p1, id, retagFailed, c2, p2)
    ensures Indexed(me, c, page + {id}, if retagFailed then failed + {id} else failed, c2, p2)
  {
    NotYetFiled(me, c, page, failed, c1, p1, id);
    RefreshedExtend(me, c, page, failed, id, Promotable(c[id]) && !retagFailed);
    hide RefreshedCloud, PoolOf, PopulateTags, Filed;
    PoolOfExtend(page, c1, id, c2[id]);
    assert c2 == c1[id := c2[id]];
  }

  /** Takes an arbitrary entry out of a map. */
  method Pop(entries: Entries) returns (elem: Ec2Info, remainder: Entries, ghost key: Id)
    requires entries != map[]
    ensures key in entries && elem == entries[key] && remainder == entries - {key}
    ensures exists k :: k in entries && elem == entries[k] && remainder == entries - {k}
  {
    assert entries.Keys != {} by { var k :| k in entries; }
    var k :| k in entries.Keys;
    key := k;
    elem := entries[k];
    remainder := entries - {k};
  }

  class WarmPoolManager {
    const ec2: Ec2
    const me: Identity
    const configs: seq<PoolConfig>
    var ready: Entries
    var provisioning: Entries
    var unhealthy: Entries
    var inUse: Entries

    ghost function State(): Pool
      reads this
    {
      Pool(ready, provisioning, unhealthy, inUse)
    }

    ghost predicate Valid()
      reads this, ec2
    {
      PoolSound(State()) && Known(State(), ec2.instances)
    }

    constructor (ec2: Ec2, me: Identity, configs: seq<PoolConfig>)
      requires "" !in ec2.instances
      ensures Valid() && State() == EmptyPool
      ensures this.ec2 == ec2 && this.me == me && this.configs == configs
    {
      this.ec2, this.me, this.configs := ec2, me, configs;
      ready, provisioning, unhealthy, inUse := map[], map[], map[], map[];
    }

    // ------------------------------------------------------------ refresh

    /** Files a described instance under the value of its status tag, retagging it first if it
        has come up. */
    method FileUnder(d: Described, value: TagValue) returns (ghost retagFailed: bool)
      requires d.id in ec2.instances && d.run == ec2.instances[d.id].run && d.ip == ec2.instances[d.id].ip
      requires WarmpoolStatus in ec2.instances[d.id].tags && ec2.instances[d.id].tags[WarmpoolStatus] == value
      modifies this, ec2
      ensures FiledInstance(me, old(ec2.instances), old(State()), d.id, retagFailed, ec2.instances, State())
      ensures ec2.faults == old(ec2.faults) + if retagFailed then 1 else 0
    {
      retagFailed := false;
      if value == Status(PendingWarmpool) {
        if d.run == Running {
          var ok := ec2.CreateTags(d.id, PopulateTags(me, SetReady));
          if !ok {
            return true;
          }
          ready := ready[d.id := Ec2Info(d.id, d.ip, "", [], 0)];
        } else {
          provisioning := provisioning[d.id := Ec2Info(d.id, d.ip, "", [], 0)];
        }
      } else if value == Status(Ready) {
        ready := ready[d.id := Ec2Info(d.id, d.ip, "", [], 0)];
      } else if value == Status(Unhealthy) {
        unhealthy := unhealthy[d.id := Ec2Info(d.id, d.ip, "", [], 0)];
      } else if value == Status(PendingPod) || value == Status(PodInUse) {
        inUse := inUse[d.id := Ec2Info(d.id, d.ip, "", [], 0)];
      }
    }

    /** The loop over the tags of one instance. */
    method FileInstance(d: Described) returns (ghost retagFailed: bool)
      requires Describes(d, ec2.instances)
      modifies this, ec2
      ensures FiledInstance(me, old(ec2.instances), old(State()), d.id, retagFailed, ec2.instances, State())
      ensures ec2.faults == old(ec2.faults) + if retagFailed then 1 else 0
    {
      hide FiledInstance, BinOf, PopulateTags;
      ghost var c, p := ec2.instances, State();
      ghost var seen := false;
      retagFailed := false;
      for i := 0 to |d.tags|
        invariant seen <==> exists j :: 0 <= j < i && d.tags[j].key == WarmpoolStatus
        invariant !seen ==> ec2.instances == c && State() == p && !retagFailed
        invariant ec2.faults == old(ec2.faults) + if retagFailed then 1 else 0
        invariant seen ==> FiledInstance(me, c, p, d.id, retagFailed, ec2.instances, State())
      {
        if d.tags[i].key == WarmpoolStatus {
          seen := true;
          retagFailed := FileUnder(d, d.tags[i].value);
        }
      }
      if !seen {
        UntaggedIsNotFiled(me, c, p, d.id);
      }
    }

    /** Rebuilds the index from the tags.  `page` is what was listed, `failed` what could not be
        retagged; only one page is ever read, because the loop tests a response variable that
        its body shadows. */
    method CheckEC2TagsForState() returns (ghost listed: bool, ghost page: set<Id>, ghost failed: set<Id>)
      requires "" !in ec2.instances
      modifies this, ec2
      ensures Valid()
      ensures if listed then IsPage(me, old(ec2.instances), ec2.pageSize, page) else page == {}
      ensures failed <= page <= FilteredIds(me, old(ec2.instances))
      ensures Indexed(me, old(ec2.instances), page, failed, ec2.instances, State())
      ensures ec2.faults == old(ec2.faults) + (if listed then 0 else 1) + |failed|
    {
      ready, provisioning, unhealthy, inUse := map[], map[], map[], map[];
      listed, page, failed := false, {}, {};
      ghost var c := ec2.instances;
      NothingIndexed(me, c);
      var first := true;
      var nextToken := false;
      while nextToken || first
        invariant !nextToken
        invariant failed <= page && Indexed(me, c, page, failed, ec2.instances, State())
        invariant ec2.faults == old(ec2.faults) + |failed|
        invariant if first then ec2.instances == c && State() == EmptyPool && !listed && page == {}
                  else listed && IsPage(me, c, ec2.pageSize, page)
        decreases first
      {
        first := false;
        var resp, more := ec2.DescribeInstances(me);
        if resp.None? {
          break;
        }
        listed := true;
        page, failed := FileAll(resp.value);
      }
      IndexIsSound(me, c, page, failed);
    }

    /** The loop over the instances of one page. */
    method FileAll(instances: seq<Described>) returns (ghost page: set<Id>, ghost failed: set<Id>)
      requires DistinctIds(instances) && Ids(instances) <= FilteredIds(me, ec2.instances)
      requires forall i :: 0 <= i < |instances| ==> Describes(instances[i], ec2.instances)
      requires State() == EmptyPool
      modifies this, ec2
      ensures page == Ids(instances) && failed <= page && ec2.faults == old(ec2.faults) + |failed|
      ensures Indexed(me, old(ec2.instances), page, failed, ec2.instances, State())
    {
      hide Lists, RefreshedCloud, PoolOf, FiledInstance, Filtered;
      ghost var c := ec2.instances;
      page, failed := {}, {};
      NothingIndexed(me, c);
      assert instances[..0] == [];
      for i := 0 to |instances|
        invariant page == Ids(instances[..i]) && page <= c.Keys && failed <= page
        invariant ec2.faults == old(ec2.faults) + |failed|
        invariant Indexed(me, c, page, failed, ec2.instances, State())
      {
        var d := instances[i];
        assert Describes(d, c) && d.id !in page;
        ghost var c1, p1 := ec2.instances, State();
        NotYetFiled(me, c, page, failed, c1, p1, d.id);
        ghost var retagFailed := FileInstance(d);
        FileStep(me, c, page, failed, c1, p1, d.id, retagFailed, ec2.instances, State());
        assert instances[..i + 1] == instances[..i] + [d];
        IdsExtend(instances[..i], d);
        failed := if retagFailed then failed + {d.id} else failed;
        page := page + {d.id};
      }
      assert instances[..|instances|] == instances;
    }

    // ------------------------------------------------------------ launching

    /** Launches one instance for the pool and files it.  Without subnets nothing is launched,
        but unless the user data fails, an entry with an empty id is filed all the same. */
    method CreateWarmEC2(wpc: PoolConfig) returns (err: bool, ghost launched: seq<Id>)
      requires Valid()
      modifies this`provisioning, ec2
      ensures Valid()
      ensures err ==> launched == [] && State() == old(State()) && ec2.instances == old(ec2.instances)
      ensures !err && wpc.subnets > 0 ==> |launched| == 1
      ensures ec2.faults == old(ec2.faults) + if err && wpc.subnets > 0 then 1 else 0
      ensures wpc.subnets > 0 ==> Grown(me, old(ec2.instances), old(State()), ec2.instances, State(), launched)
      ensures wpc.subnets == 0 ==> launched == [] && ec2.instances == old(ec2.instances)
      ensures wpc.subnets == 0 && !err ==> provisioning == old(provisioning)["" := Ec2Info("", "", "", [""], 0)]
      ensures wpc.subnets > 0 && !err ==>
        var id := launched[0];
        && id !in old(ec2.instances) && id in ec2.instances && id in provisioning
        && ec2.instances == old(ec2.instances)[id := ec2.instances[id]] && ec2.instances[id].run == Pending
        && ec2.instances[id].tags == map[NodeName := Text(me.node), ClusterName := Text(me.cluster),
                                         WarmpoolStatus := Status(PendingWarmpool)]
        && provisioning == old(provisioning)[id := provisioning[id]] && provisioning[id].instanceId == id
    {
      hide PopulateTags, PoolSound, Known, Grown;
      launched := [];
      err := *;
      if wpc.subnets == 0 {
        if !err {
          EmptyIdSound(State(), ec2.instances, Unlaunched);
          provisioning := provisioning["" := Unlaunched];
        }
        return;
      }
      ghost var c, p := ec2.instances, State();
      var id := ec2.RunInstances(PopulateTags(me, InitialSetup));
      err := id.None?;
      if err {
        GrownNothing(me, c, p);
      } else {
        var ip: string, profile: string, groups: seq<string> := *, *, *;
        var info := Ec2Info(id.value, ip, profile, groups, 0);
        InitialTags(me);
        GrownOne(me, c, p, id.value, ec2.instances[id.value], info);
        provisioning := provisioning[id.value := info];
        launched := [id.value];
      }
    }

    // ------------------------------------------------------------ steering the depth

    /** Launches up to the given number of instances; failures are skipped. */
    method Launch(wpc: PoolConfig, count: nat) returns (ghost launched: seq<Id>, ghost failures: nat)
      requires Valid()
      modifies this`provisioning, ec2
      ensures Valid()
      ensures wpc.subnets > 0 ==>
        && Grown(me, old(ec2.instances), old(State()), ec2.instances, State(), launched)
        && |launched| + failures == count
      ensures ec2.faults == old(ec2.faults) + if wpc.subnets > 0 then failures else 0
      ensures wpc.subnets == 0 ==>
        && launched == [] && ec2.instances == old(ec2.instances) && failures <= count
        && provisioning == if failures < count then old(provisioning)["" := Unlaunched] else old(provisioning)
    {
      hide Grown, PopulateTags;
      ghost var c, p := ec2.instances, State();
      launched, failures := [], 0;
      GrownNothing(me, c, p);
      for i := 0 to count
        invariant Valid() && ec2.faults == old(ec2.faults) + if wpc.subnets > 0 then failures else 0
        invariant wpc.subnets > 0 ==> Grown(me, c, p, ec2.instances, State(), launched) && |launched| + failures == i
        invariant wpc.subnets == 0 ==>
          && launched == [] && failures <= i && ec2.instances == c
          && provisioning == if failures < i then p.provisioning["" := Unlaunched] else p.provisioning
      {
        ghost var c1, p1 := ec2.instances, State();
        var err;
        ghost var more;
        err, more := CreateWarmEC2(wpc);
        if wpc.subnets > 0 {
          GrownTwice(me, c, p, c1, p1, ec2.instances, State(), launched, more);
          launched := launched + more;
        }
        failures := if err then failures + 1 else failures;
      }
    }

    /** Takes one entry out of the index, a ready one if there is one. */
    method ReleaseOne() returns (id: Option<Id>)
      requires Valid()
      modifies this`ready, this`provisioning
      ensures Valid()
      ensures id.None? ==> State() == old(State()) && Depth(State()) == 0
      ensures id.Some? ==> ReleasedOne(old(State()), id.value, State())
    {
      var instance;
      ghost var key;
      if |ready| > 0 {
        instance, ready, key := Pop(ready);
        return Some(instance.instanceId);
      } else if |provisioning| > 0 {
        instance, provisioning, key := Pop(provisioning);
        return Some(instance.instanceId);
      }
      return None;
    }

    /** Takes the given number of entries out of the index, the ready ones first, as far as there
        are any. */
    method Release(count: nat) returns (released: seq<Id>)
      requires Valid()
      modifies this`ready, this`provisioning
      ensures Valid() && Shrunk(old(State()), State(), released)
      ensures |released| == if count <= old(Depth(State())) then count else old(Depth(State()))
      ensures forall i, j :: 0 <= i < j < |released| ==> released[i] != released[j]
      ensures forall id :: id in released ==>
                (id in old(ready) || id in old(provisioning)) && id !in ready && id !in provisioning
      ensures forall id :: id in ready ==> id in old(ready) && ready[id] == old(ready)[id]
      ensures forall id :: id in provisioning ==> id in old(provisioning) && provisioning[id] == old(provisioning)[id]
      ensures forall id :: (id in old(ready) || id in old(provisioning)) && id !in released ==>
                id in ready || id in provisioning
      ensures (exists id :: id in released && id in old(provisioning)) ==> ready == map[]
    {
      hide Shrunk, PoolSound, Known, Depth, ReleasedOne;
      ghost var p := State();
      released := [];
      ShrunkNothing(p);
      for i := 0 to count
        invariant Valid() && Shrunk(p, State(), released)
        invariant |released| == if i <= Depth(p) then i else Depth(p)
      {
        ghost var p1 := State();
        ShrunkDepth(p, p1, released);
        var id := ReleaseOne();
        if id.Some? {
          ShrunkOnce(p, p1, State(), released, id.value);
          released := released + [id.value];
          ShrunkDepth(p, State(), released);
        }
      }
      ShrunkEntries(p, State(), released);
    }

    /** One depth check.  What it does is described by `DepthChecked`. */
    method CheckWarmPoolDepth(wpc: PoolConfig) returns (ghost o: DepthOutcome)
      requires Valid()
      modifies this, ec2
      ensures Valid()
      ensures DepthChecked(me, old(ec2.instances), old(State()), wpc, o, ec2.instances, State())
      ensures ec2.faults ==
          old(ec2.faults) + (if wpc.subnets > 0 then o.failures else 0) + if o.terminated then 0 else 1
    {
      hide Grown, Shrunk, PoolSound, Known, Terminated, Elements;
      var cumulativeWarmEC2 := |ready| + |provisioning|;
      ghost var c, p := ec2.instances, State();
      o := Nothing;
      if cumulativeWarmEC2 < wpc.desired {
        ghost var launched, failures := Launch(wpc, wpc.desired - cumulativeWarmEC2);
        o := DepthOutcome(launched, failures, [], true);
      } else if cumulativeWarmEC2 > wpc.desired {
        var terminatingInstances := Release(cumulativeWarmEC2 - wpc.desired);
        ShrunkDepth(p, State(), terminatingInstances);
        var ok := ec2.TerminateInstances(terminatingInstances);
        o := DepthOutcome([], 0, terminatingInstances, ok);
        ShrunkKnown(p, c, State(), ec2.instances, terminatingInstances);
      }
    }

    /** One tick of the maintenance loop: a depth check for each configuration in turn.  If the
        desired counts are non-negative, there are subnets and no launch fails, the numbers of
        instances launched and let go are the rises and falls along the list of desired counts.
        Those let go are terminated as well, unless a terminate call fails. */
    method MaintenancePass()
      returns (ghost launches: nat, ghost releases: nat, ghost terminations: nat, ghost failures: nat)
      requires Valid()
      modifies this, ec2
      ensures Valid() && ec2.faults >= old(ec2.faults) && terminations <= releases
      ensures ec2.faults == old(ec2.faults) ==> terminations == releases
      ensures Usable() ==> failures <= ec2.faults - old(ec2.faults)
      ensures Usable() && failures == 0 ==>
        var d := old(Depth(State()));
        && Depth(State()) == FinalDepth(d, Desired(configs))
        && launches == Rises(d, Desired(configs)) && releases == Falls(d, Desired(configs))
        && (launches == 0 && releases == 0 ==> State() == old(State()) && ec2.instances == old(ec2.instances))
    {
      hide PoolSound, Known, Grown, Shrunk, Depth, KeysMatch;
      launches, releases, terminations, failures := 0, 0, 0, 0;
      ghost var p, c := State(), ec2.instances;
      for i := 0 to |configs|
        invariant Valid() && ec2.faults >= old(ec2.faults) && terminations <= releases
        invariant ec2.faults == old(ec2.faults) ==> terminations == releases
        invariant Usable() ==> failures <= ec2.faults - old(ec2.faults)
        invariant Usable() && failures == 0 ==>
          && Depth(State()) == FinalDepth(Depth(p), Desired(configs[..i]))
          && launches == Rises(Depth(p), Desired(configs[..i])) && releases == Falls(Depth(p), Desired(configs[..i]))
          && (launches == 0 && releases == 0 ==> State() == p && ec2.instances == c)
      {
        ghost var p1, c1 := State(), ec2.instances;
        ghost var o := CheckWarmPoolDepth(configs[i]);
        if Usable() {
          DepthCheckConverges(me, c1, p1, configs[i], o, ec2.instances, State());
          DesiredExtend(configs[..i], configs[i]);
          assert configs[..i + 1] == configs[..i] + [configs[i]];
          IdleCheck(me, c1, p1, configs[i], o, ec2.instances, State());
        }
        launches, releases, failures := launches + |o.launched|, releases + |o.released|, failures + o.failures;
        terminations := terminations + if o.terminated then |o.released| else 0;
      }
      assert configs[..|configs|] == configs;
    }

    /** Every configuration asks for a non-negative number of instances and has subnets. */
    ghost predicate Usable() {
      forall i :: 0 <= i < |configs| ==> configs[i].desired >= 0 && configs[i].subnets > 0
    }

    // ------------------------------------------------------------ start-up

    /** Fills the pool up for each configuration in turn; the number of additional instances is
        fixed before the inner loop starts.  A failed launch ends the program. */
    method InitialWarmPoolCreation()
      returns (panicked: bool, ghost listed: bool, ghost page: set<Id>, ghost failed: set<Id>,
               ghost c0: Instances, ghost p0: Pool, ghost launched: seq<Id>)
      requires "" !in ec2.instances
      modifies this, ec2
      ensures Valid() && PoolSound(p0) && Known(p0, c0) && ec2.faults >= old(ec2.faults)
      ensures ec2.faults == old(ec2.faults) ==> listed && failed == {}
      ensures if listed then IsPage(me, old(ec2.instances), ec2.pageSize, page) else page == {}
      ensures failed <= page && Indexed(me, old(ec2.instances), page, failed, c0, p0)
      ensures (forall i :: 0 <= i < |configs| ==> configs[i].subnets > 0) ==>
        && Grown(me, c0, p0, ec2.instances, State(), launched)
        && (panicked ==> ec2.faults > old(ec2.faults))
        && (!panicked ==>
              && Depth(State()) == Fill(Depth(p0), Counts(configs))
              && |launched| == Depth(State()) - Depth(p0))
    {
      hide PoolSound, Known, Grown, Depth, KeysMatch;
      listed, page, failed := CheckEC2TagsForState();
      c0, p0, launched, panicked := ec2.instances, State(), [], false;
      ghost var faults0 := ec2.faults;
      GrownNothing(me, c0, p0);
      ghost var usable := forall i :: 0 <= i < |configs| ==> configs[i].subnets > 0;
      for i := 0 to |configs|
        invariant Valid() && ec2.faults >= faults0
        invariant usable ==>
          && Grown(me, c0, p0, ec2.instances, State(), launched)
          && Depth(State()) == Fill(Depth(p0), Counts(configs[..i]))
      {
        var wpc := configs[i];
        var existing := |provisioning| + |ready|;
        DepthIsSum(State());
        var j := existing;
        CountsExtend(configs[..i], wpc);
        assert configs[..i + 1] == configs[..i] + [wpc];
        while j < wpc.desired
          invariant Valid() && ec2.faults >= faults0
          invariant existing <= j && (existing < wpc.desired ==> j <= wpc.desired) &&
              (existing >= wpc.desired ==> j == existing)
          invariant usable ==> Grown(me, c0, p0, ec2.instances, State(), launched) && Depth(State()) == j
        {
          ghost var c1, p1 := ec2.instances, State();
          var err;
          ghost var more;
          err, more := CreateWarmEC2(wpc);
          if usable {
            GrownTwice(me, c0, p0, c1, p1, ec2.instances, State(), launched, more);
            GrownDepth(me, c1, p1, ec2.instances, State(), more);
            launched := launched + more;
          }
          if err {
            panicked := true;
            return;
          }
          j := j + 1;
        }
      }
      assert configs[..|configs|] == configs;
      if usable {
        GrownDepth(me, c0, p0, ec2.instances, State(), launched);
      }
    }

    // ------------------------------------------------------------ handing out

    /** Refreshes the index and takes an arbitrary ready instance out of it. */
    method GetWarmPoolInstanceIfExist()
      returns (instanceId: Id, privateIP: string, found: bool, ghost c1: Instances, ghost p1: Pool,
               ghost page: set<Id>, ghost failed: set<Id>)
      requires "" !in ec2.instances
      modifies this, ec2
      ensures Valid() && ec2.instances == c1 && PoolSound(p1) && ec2.faults >= old(ec2.faults)
      ensures failed <= page <= FilteredIds(me, old(ec2.instances))
      ensures Indexed(me, old(ec2.instances), page, failed, c1, p1)
      ensures ec2.faults == old(ec2.faults) ==> failed == {} && IsPage(me, old(ec2.instances), ec2.pageSize, page)
      ensures found <==> p1.ready != map[]
      ensures found ==> instanceId in p1.ready && privateIP == p1.ready[instanceId].privateIP
      ensures State() == if found then p1.(ready := p1.ready - {instanceId}) else p1
    {
      ghost var listed;
      listed, page, failed := CheckEC2TagsForState();
      c1, p1 := ec2.instances, State();
      if |ready| <= 0 {
        return "", "", false, c1, p1, page, failed;
      }
      var instance;
      ghost var key;
      instance, ready, key := Pop(ready);
      return instance.instanceId, instance.privateIP, true, c1, p1, page, failed;
    }

    method UpdateEC2Tags(instanceId: Id, reason: Reason) returns (err: bool)
      modifies ec2
      ensures ec2.faults == old(ec2.faults) + if err then 1 else 0
      ensures err ==> ec2.instances == old(ec2.instances)
      ensures !err ==> instanceId in old(ec2.instances)
                       && ec2.instances == Tagged(old(ec2.instances), instanceId, PopulateTags(me, reason))
    {
      var ok := ec2.CreateTags(instanceId, PopulateTags(me, reason));
      err := !ok;
    }
  }

  function Desired(configs: seq<PoolConfig>): seq<nat> {
    seq(|configs|, i requires 0 <= i < |configs| => Positive(configs[i].desired))
  }

  function Counts(configs: seq<PoolConfig>): seq<int> {
    seq(|configs|, i requires 0 <= i < |configs| => configs[i].desired)
  }

  lemma DesiredExtend(configs: seq<PoolConfig>, wpc: PoolConfig)
    ensures Desired(configs + [wpc]) == Desired(configs) + [Positive(wpc.desired)]
    ensures Front(Desired(configs + [wpc])) == Desired(configs)
    ensures Last(Desired(configs + [wpc])) == Positive(wpc.desired)
  {
    assert Desired(configs + [wpc]) == Desired(configs) + [Positive(wpc.desired)];
  }

  lemma CountsExtend(configs: seq<PoolConfig>, wpc: PoolConfig)
    ensures Counts(configs + [wpc]) == Counts(configs) + [wpc.desired]
    ensures Front(Counts(configs + [wpc])) == Counts(configs) && Last(Counts(configs + [wpc])) == wpc.desired
  {
    assert Counts(configs + [wpc]) == Counts(configs) + [wpc.desired];
  }

  lemma DepthIsSum(p: Pool)
    ensures Depth(p) == |p.provisioning| + |p.ready|
  {
  }

  /** A depth check that launched and let go nothing changed nothing. */
  lemma IdleCheck(me: Identity, c: Instances, p: Pool, wpc: PoolConfig, o: DepthOutcome, c': Instances, p': Pool)
    requires DepthChecked(me, c, p, wpc, o, c', p') && PoolSound(p) && Known(p, c) && wpc.subnets > 0
    requires wpc.desired >= 0
    ensures o.launched == [] && o.released == [] && o.failures == 0 ==> c' == c && p' == p
  {
    hide Grown, Shrunk, PoolSound, Known;
    if Depth(p) > wpc.desired {
      ShrunkDepth(p, p', o.released);
    }
  }
}
