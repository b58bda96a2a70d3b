/** Steering the depth of the warm pool: what one depth check, one maintenance pass and the
    start-up fill do. */
module PoolDepth {
  import opened Common
  import opened Cloud
  import opened WarmPool

  function Depth(p: Pool): nat {
    |p.ready| + |p.provisioning|
  }

  /** What a refresh establishes and every other operation keeps. */
  ghost predicate PoolSound(p: Pool) {
    KeysMatch(p.ready) && KeysMatch(p.provisioning) && p.ready.Keys !! p.provisioning.Keys
  }

  /** Nothing in the index is unknown to EC2, except the entry with an empty id that a
      configuration without subnets leaves behind. */
  ghost predicate Known(p: Pool, c: Instances) {
    p.ready.Keys <= c.Keys && p.provisioning.Keys <= c.Keys + {""} && "" !in c
  }

  predicate Extends(big: Entries, small: Entries) {
    small.Keys <= big.Keys && forall id :: id in small ==> big[id] == small[id]
  }

  /** Launching, in EC2: the new instances are fresh, pending and tagged for the pool, and the
      others are untouched. */
  ghost predicate GrownCloud(me: Identity, c: Instances, c': Instances, launched: set<Id>) {
    && launched !! c.Keys && "" !in launched
    && c'.Keys == c.Keys + launched
    && (forall id :: id in c ==> c'[id] == c[id])
    && (forall id :: id in launched ==> c'[id].run.Pending? && c'[id].tags == PopulateTags(me, InitialSetup))
  }

  /** Launching, in the index: each new instance is filed as provisioning under its own id and
      the other entries are untouched. */
  ghost predicate GrownPool(p: Pool, p': Pool, launched: set<Id>) {
    && p' == p.(provisioning := p'.provisioning)
    && p'.provisioning.Keys == p.provisioning.Keys + launched
    && Extends(p'.provisioning, p.provisioning)
    && (forall id :: id in launched ==> p'.provisioning[id].instanceId == id)
  }

  ghost predicate Grown(me: Identity, c: Instances, p: Pool, c': Instances, p': Pool, launched: seq<Id>) {
    && Distinct(launched)
    && GrownCloud(me, c, c', Elements(launched))
    && GrownPool(p, p', Elements(launched))
  }

  /** Shrinking: the entries that remain and the ids that are let go partition the old ones, no
      id is let go twice, and a provisioning one only once no ready one is left. */
  ghost predicate Shrunk(p: Pool, p': Pool, released: seq<Id>) {
    && p' == p.(ready := p'.ready, provisioning := p'.provisioning)
    && Extends(p.ready, p'.ready) && Extends(p.provisioning, p'.provisioning)
    && Distinct(released)
    && Elements(released) !! p'.ready.Keys && Elements(released) !! p'.provisioning.Keys
    && Elements(released) + p'.ready.Keys + p'.provisioning.Keys == p.ready.Keys + p.provisioning.Keys
    && ((exists id :: id in released && id in p.provisioning) ==> p'.ready == map[])
  }

  /** What happened in one depth check: instances launched and launches failed, or instances
      let go and whether their termination succeeded. */
  datatype DepthOutcome = DepthOutcome(launched: seq<Id>, failures: nat, released: seq<Id>, terminated: bool)

  const Nothing: DepthOutcome := DepthOutcome([], 0, [], true)

  ghost predicate DepthChecked(me: Identity, c: Instances, p: Pool, wpc: PoolConfig, o: DepthOutcome, c': Instances,
                               p': Pool) {
    if Depth(p) < wpc.desired then
      && o.released == [] && o.terminated
      && if wpc.subnets > 0 then
           && Grown(me, c, p, c', p', o.launched)
           && |o.launched| + o.failures == wpc.desired - Depth(p)
         else
           && o.launched == [] && c' == c && o.failures <= wpc.desired - Depth(p)
           && p' ==
               if o.failures < wpc.desired - Depth(p) then p.(provisioning := p.provisioning["" := Unlaunched]) else p
    else if Depth(p) > wpc.desired then
      && o.launched == [] && o.failures == 0
      && Shrunk(p, p', o.released)
      && Depth(p') == (if wpc.desired < 0 then 0 else wpc.desired)
      && c' == if o.terminated then Terminated(c, Elements(o.released)) else c
    else o == Nothing && c' == c && p' == p
  }

  lemma DistinctCount<T>(s: seq<T>)
    requires Distinct(s)
    ensures |Elements(s)| == |s|
  {
    if s != [] {
      var front := Front(s);
      DistinctCount(front);
      assert Last(s) !in front;
      assert Elements(s) == Elements(front) + {Last(s)};
    }
  }

  lemma UnionCount<T>(a: set<T>, b: set<T>)
    requires a !! b
    ensures |a + b| == |a| + |b|
  {
    assert (a + b) - b == a;
  }

  lemma CountGrown<T>(a: set<T>, b: set<T>, l: seq<T>)
    requires Distinct(l) && Elements(l) !! a && b == a + Elements(l)
    ensures |b| == |a| + |l|
  {
    DistinctCount(l);
    UnionCount(a, Elements(l));
  }

  lemma CountShrunk<T>(r: set<T>, q: set<T>, r': set<T>, q': set<T>, l: seq<T>)
    requires r !! q && r' !! q' && Distinct(l)
    requires Elements(l) !! r' && Elements(l) !! q' && Elements(l) + r' + q' == r + q
    ensures |r'| + |q'| + |l| == |r| + |q|
  {
    DistinctCount(l);
    UnionCount(r, q);
    UnionCount(r', q');
    UnionCount(Elements(l), r' + q');
    assert Elements(l) + (r' + q') == r + q;
  }

  lemma GrownSound(me: Identity, c: Instances, p: Pool, c': Instances, p': Pool, launched: seq<Id>)
    requires Grown(me, c, p, c', p', launched) && PoolSound(p) && Known(p, c)
    ensures PoolSound(p') && Known(p', c')
    ensures Elements(launched) !! p.provisioning.Keys
  {
    hide PopulateTags;
    assert forall id :: id in p'.provisioning <==> id in p.provisioning || id in launched;
  }

  lemma GrownDepth(me: Identity, c: Instances, p: Pool, c': Instances, p': Pool, launched: seq<Id>)
    requires Grown(me, c, p, c', p', launched) && PoolSound(p) && Known(p, c)
    ensures PoolSound(p') && Known(p', c') && Depth(p') == Depth(p) + |launched|
  {
    GrownSound(me, c, p, c', p', launched);
    CountGrown(p.provisioning.Keys, p'.provisioning.Keys, launched) by {
      hide KeysMatch, Extends, PopulateTags;
    }
    hide *;
    assert Depth(p') == |p'.ready| + |p'.provisioning.Keys| && Depth(p) == |p.ready| + |p.provisioning.Keys| by {
      DepthIsKeyCount(p);
      DepthIsKeyCount(p');
    }
    assert p'.ready == p.ready by { GrownReady(me, c, p, c', p', launched); }
  }

  lemma DepthIsKeyCount(p: Pool)
    ensures Depth(p) == |p.ready.Keys| + |p.provisioning.Keys|
    ensures |p.ready| == |p.ready.Keys|
  {
  }

  lemma GrownReady(me: Identity, c: Instances, p: Pool, c': Instances, p': Pool, launched: seq<Id>)
    requires Grown(me, c, p, c', p', launched)
    ensures p'.ready == p.ready
  {
  }

  lemma ShrunkDepth(p: Pool, p': Pool, released: seq<Id>)
    requires Shrunk(p, p', released) && PoolSound(p)
    ensures PoolSound(p') && Depth(p') + |released| == Depth(p)
  {
    ShrunkSound(p, p', released);
    CountShrunk(p.ready.Keys, p.provisioning.Keys, p'.ready.Keys, p'.provisioning.Keys, released);
    DepthIsKeyCount(p);
    DepthIsKeyCount(p');
  }

  lemma ShrunkSound(p: Pool, p': Pool, released: seq<Id>)
    requires Shrunk(p, p', released) && PoolSound(p)
    ensures PoolSound(p')
    ensures p'.ready.Keys <= p.ready.Keys && p'.provisioning.Keys <= p.provisioning.Keys
  {
  }

  /** A depth check with at least one subnet ends at the desired depth, or at zero if that is
      negative, less the launches that failed; it launches or lets go exactly the difference. */
  lemma DepthCheckConverges(me: Identity, c: Instances, p: Pool, wpc: PoolConfig, o: DepthOutcome, c': Instances,
                            p': Pool)
    requires DepthChecked(me, c, p, wpc, o, c', p') && PoolSound(p) && Known(p, c) && wpc.subnets > 0
    ensures PoolSound(p') && Known(p', c')
    ensures Depth(p') == (if wpc.desired < 0 then 0 else wpc.desired) - o.failures
    ensures Depth(p') == Depth(p) + |o.launched| - |o.released|
    ensures o.launched == [] || o.released == []
  {
    hide Grown, Shrunk, PoolSound, Known, Depth, Terminated, Elements;
    if Depth(p) < wpc.desired {
      GrownDepth(me, c, p, c', p', o.launched);
    } else if Depth(p) > wpc.desired {
      ShrunkDepth(p, p', o.released);
      ShrunkKnown(p, c, p', c', o.released);
    }
  }

  lemma ShrunkKnown(p: Pool, c: Instances, p': Pool, c': Instances, released: seq<Id>)
    requires Shrunk(p, p', released) && Known(p, c)
    requires c' == c || c' == Terminated(c, Elements(released))
    ensures Known(p', c')
  {
    hide KeysMatch, Distinct;
  }

  lemma ShrunkEntries(p: Pool, p': Pool, released: seq<Id>)
    requires Shrunk(p, p', released)
    ensures p'.unhealthy == p.unhealthy && p'.inUse == p.inUse
    ensures forall i, j :: 0 <= i < j < |released| ==> released[i] != released[j]
    ensures forall id :: id in released ==>
              (id in p.ready || id in p.provisioning) && id !in p'.ready && id !in p'.provisioning
    ensures forall id :: id in p'.ready ==> id in p.ready && p'.ready[id] == p.ready[id]
    ensures forall id :: id in p'.provisioning ==> id in p.provisioning && p'.provisioning[id] == p.provisioning[id]
    ensures forall id :: (id in p.ready || id in p.provisioning) && id !in released ==>
              id in p'.ready || id in p'.provisioning
    ensures (exists id :: id in released && id in p.provisioning) ==> p'.ready == map[]
  {
    assert forall id :: id in released <==> id in Elements(released);
    assert forall id :: id in p.ready || id in p.provisioning <==>
        id in Elements(released) + p'.ready.Keys + p'.provisioning.Keys;
  }

  /** A depth check that finds too many lets go the excess, or all there are: each id once, taken
      from the ready ones first, the other entries being kept.  In EC2 exactly those die, if the call
      succeeds, and nothing else changes. */
  lemma SurplusIsReleased(me: Identity, c: Instances, p: Pool, wpc: PoolConfig, o: DepthOutcome, c': Instances,
                          p': Pool)
    requires DepthChecked(me, c, p, wpc, o, c', p') && PoolSound(p) && |p.ready| + |p.provisioning| > wpc.desired
    ensures o.launched == [] && o.failures == 0
    ensures |o.released| == |p.ready| + |p.provisioning| - Positive(wpc.desired)
    ensures |p'.ready| + |p'.provisioning| == Positive(wpc.desired)
    ensures p'.unhealthy == p.unhealthy && p'.inUse == p.inUse
    ensures forall i, j :: 0 <= i < j < |o.released| ==> o.released[i] != o.released[j]
    ensures forall id :: id in o.released ==>
              (id in p.ready || id in p.provisioning) && id !in p'.ready && id !in p'.provisioning
    ensures forall id :: id in p'.ready ==> id in p.ready && p'.ready[id] == p.ready[id]
    ensures forall id :: id in p'.provisioning ==> id in p.provisioning && p'.provisioning[id] == p.provisioning[id]
    ensures forall id :: (id in p.ready || id in p.provisioning) && id !in o.released ==>
              id in p'.ready || id in p'.provisioning
    ensures (exists id :: id in o.released && id in p.provisioning) ==> p'.ready == map[]
    ensures c'.Keys == c.Keys
    ensures forall id :: id in c ==>
              if o.terminated && id in o.released then c'[id] == c[id].(run := Dead) else c'[id] == c[id]
  {
    ShrunkEntries(p, p', o.released);
    ShrunkDepth(p, p', o.released);
    hide Shrunk, PoolSound;
  }

  /** A depth check that finds too few, and has a subnet, launches the difference, failed launches
      included: fresh pending instances, tagged for this node's and cluster's pool as provisioning
      and filed as such, while nothing else changes. */
  lemma ShortageIsLaunched(me: Identity, c: Instances, p: Pool, wpc: PoolConfig, o: DepthOutcome, c': Instances,
                           p': Pool)
    requires DepthChecked(me, c, p, wpc, o, c', p') && |p.ready| + |p.provisioning| < wpc.desired && wpc.subnets > 0
    ensures o.released == [] && |o.launched| + o.failures == wpc.desired - (|p.ready| + |p.provisioning|)
    ensures forall i, j :: 0 <= i < j < |o.launched| ==> o.launched[i] != o.launched[j]
    ensures forall id :: id in o.launched <==> id in c' && id !in c
    ensures forall id :: id in c ==> id in c' && c'[id] == c[id]
    ensures p'.ready == p.ready && p'.unhealthy == p.unhealthy && p'.inUse == p.inUse
    ensures forall id :: id in p'.provisioning <==> id in p.provisioning || id in o.launched
    ensures forall id :: id in p.provisioning ==> p'.provisioning[id] == p.provisioning[id]
    ensures forall id :: id in o.launched ==>
              && p'.provisioning[id].instanceId == id && c'[id].run == Pending
              && c'[id].tags == map[NodeName := Text(me.node), ClusterName := Text(me.cluster),
                                    WarmpoolStatus := Status(PendingWarmpool)]
  {
    InitialTags(me);
    hide PopulateTags;
  }

  lemma InitialTags(me: Identity)
    ensures PopulateTags(me, InitialSetup) ==
        map[NodeName := Text(me.node), ClusterName := Text(me.cluster), WarmpoolStatus := Status(PendingWarmpool)]
  {
  }

  // ------------------------------------------------------- one maintenance pass

  function Positive(x: int): nat {
    if x < 0 then 0 else x
  }

  /** The depth after a pass over these desired counts. */
  function FinalDepth(d: nat, desired: seq<nat>): nat {
    if desired == [] then d else Last(desired)
  }

  function Rises(d: nat, desired: seq<nat>): nat {
    if desired == [] then 0
    else Rises(d, Front(desired)) + Positive(Last(desired) - FinalDepth(d, Front(desired)))
  }

  function Falls(d: nat, desired: seq<nat>): nat {
    if desired == [] then 0
    else Falls(d, Front(desired)) + Positive(FinalDepth(d, Front(desired)) - Last(desired))
  }

  ghost predicate AllEqualTo(desired: seq<nat>, d: nat) {
    forall i :: 0 <= i < |desired| ==> desired[i] == d
  }

  /** Launches minus terminations is the change of depth. */
  lemma {:induction false} ChurnBalance(d: nat, desired: seq<nat>)
    ensures d + Rises(d, desired) - Falls(d, desired) == FinalDepth(d, desired)
  {
    if desired != [] {
      ChurnBalance(d, Front(desired));
    }
  }

  lemma {:induction false} QuietPass(d: nat, desired: seq<nat>)
    ensures Rises(d, desired) == 0 && Falls(d, desired) == 0 <==> AllEqualTo(desired, d)
  {
    if desired != [] {
      var front := Front(desired);
      QuietPass(d, front);
      assert desired == front + [Last(desired)];
      assert AllEqualTo(desired, d) <==> AllEqualTo(front, d) && Last(desired) == d by {
        assert AllEqualTo(desired, d) ==> forall i :: 0 <= i < |front| ==> front[i] == desired[i];
      }
      assert AllEqualTo(front, d) && front != [] ==> Last(front) == d;
    }
  }

  /** Repeating the pass launches exactly as many instances as it terminates, and it leaves the
      pool alone if and only if all configurations agree on the desired count. */
  lemma RepeatedPassChurns(desired: seq<nat>)
    requires desired != []
    ensures Rises(Last(desired), desired) == Falls(Last(desired), desired)
    ensures Rises(Last(desired), desired) == 0 <==> AllEqualTo(desired, desired[0])
  {
    ChurnBalance(Last(desired), desired);
    QuietPass(Last(desired), desired);
    assert desired[0] == Last(desired) || !AllEqualTo(desired, Last(desired)) ;
    if AllEqualTo(desired, desired[0]) {
      assert Last(desired) == desired[0];
    }
  }

  // ------------------------------------------------------- the start-up fill

  function Fill(d: int, desired: seq<int>): int {
    if desired == [] then d
    else
      var e := Fill(d, Front(desired));
      if e < Last(desired) then Last(desired) else e
  }

  /** Filling up for each configuration in turn reaches the maximum of the depth found and all
      the desired counts. */
  lemma {:induction false} FillIsMaximum(d: int, desired: seq<int>)
    ensures Fill(d, desired) >= d && forall i :: 0 <= i < |desired| ==> Fill(d, desired) >= desired[i]
    ensures Fill(d, desired) == d || Fill(d, desired) in desired
  {
    if desired != [] {
      FillIsMaximum(d, Front(desired));
      assert desired == Front(desired) + [Last(desired)];
    }
  }
}
