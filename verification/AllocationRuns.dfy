/** Conservation and exclusive assignment over whole runs of the provider, whatever EC2 refuses to
    do, and the window in which they can be lost. */
module AllocationRuns {
  import opened Common
  import opened Cloud
  import opened WarmPool
  import opened PoolDepth
  import opened Allocation
  import opened AllocationSteps
  import opened Lifecycle

  /** The operations, each as a whole and with whatever outcome, and the coming up of an instance.
      An update and a delete bring a pod object with an annotation of its own. */
  datatype Op =
    | Refresh(page: set<Id>, failed: set<Id>)
    | DepthCheck(wpc: PoolConfig, outcome: DepthOutcome)
    | Create(usesPool: bool, tag: Reason, key: PodKey, annotation: Id, res: Creation)
    | Update(key: PodKey, annotation: Id)
    | Delete(key: PodKey, annotation: Id, terminated: bool)
    | Boot(id: Id)

  ghost predicate Step(me: Identity, s: System, op: Op, s': System) {
    match op
    case Refresh(page, failed) =>
      failed <= page <= FilteredIds(me, s.cloud) && s' == PartlyRefreshed(me, s, page, failed)
    case DepthCheck(wpc, o) =>
      s'.pods == s.pods && DepthChecked(me, s.cloud, s.pool, wpc, o, s'.cloud, s'.pool)
    case Create(usesPool, tag, key, annotation, res) =>
      && key !in s.pods && tag.SetPod? && CreationPossible(me, usesPool, s.cloud, annotation, res)
      && s' == After(me, usesPool, tag, s, key, annotation, res)
    case Update(key, annotation) => key in s.pods && s' == s.(pods := s.pods[key := annotation])
    case Delete(key, annotation, terminated) =>
      key in s.pods && s' == if terminated then Ended(s, annotation).(pods := s.pods - {key}) else s
    case Boot(id) => id in s.cloud && s.cloud[id].run.Pending? && s' == Booted(s, id)
  }

  ghost predicate Run(me: Identity, states: seq<System>, ops: seq<Op>) {
    && |states| == |ops| + 1
    && forall i :: 0 <= i < |ops| ==> Step(me, states[i], ops[i], states[i + 1])
  }

  // ------------------------------------------------------------ conservation

  /** The caller hands in the annotation the cached pod has. */
  predicate AnnotationKept(s: System, op: Op) {
    match op
    case Update(key, annotation) => key in s.pods && annotation == s.pods[key]
    case Delete(key, annotation, terminated) => terminated ==> key in s.pods && annotation == s.pods[key]
    case _ => true
  }

  /** The operations after which every live instance is still accounted for. */
  ghost predicate Lossless(me: Identity, s: System, op: Op) {
    match op
    case Refresh(page, failed) => NothingMissed(me, s.cloud, page, failed)
    case DepthCheck(wpc, o) => DepthLossless(s.pool, wpc, o)
    case Create(_, _, _, _, res) => CreationLossless(me, s.cloud, res)
    case Boot(_) => true
    case _ => AnnotationKept(s, op)
  }

  predicate Harmless(me: Identity, op: Op) {
    op.Create? ==> UserTagsAreHarmless(me, op.res.compute)
  }

  /** A pod update that comes with another instance-id annotation, of whatever value, breaks
      conservation; one that keeps the annotation keeps it. */
  lemma UpdateConservesIffAnnotationKept(s: System, key: PodKey, annotation: Id)
    requires Conserved(s) && key in s.pods
    ensures Conserved(s.(pods := s.pods[key := annotation])) <==> annotation == s.pods[key]
  {
    var s' := s.(pods := s.pods[key := annotation]);
    var id := s.pods[key];
    PodInstanceIsLive(s, key);
    if annotation != id {
      assert id in LiveIds(s'.cloud);
      assert id !in s'.pods.Values;
    } else {
      assert s'.pods == s.pods;
    }
  }

  /** Deleting a pod terminates the instance named by the annotation of the pod object handed
      in, not of the cached one.  Conservation survives exactly when they agree. */
  lemma DeleteConservesIffAnnotationKept(s: System, key: PodKey, annotation: Id)
    requires Conserved(s) && key in s.pods
    ensures Conserved(Ended(s, annotation).(pods := s.pods - {key})) <==> annotation == s.pods[key]
  {
    var id := s.pods[key];
    var s' := Ended(s, annotation).(pods := s.pods - {key});
    PodInstanceIsLive(s, key);
    LostValue(s.pods, key);
    if annotation != id {
      assert id in LiveIds(s'.cloud);
      assert id !in s'.pods.Values;
    } else {
      assert LiveIds(s'.cloud) == LiveIds(s.cloud) - {id};
    }
  }

  /** From a good state, an operation keeps conservation exactly if it is lossless. */
  lemma StepConservesIffLossless(me: Identity, s: System, op: Op, s': System)
    requires Good(me, s) && Step(me, s, op, s')
    ensures Conserved(s') <==> Lossless(me, s, op)
  {
    match op {
      case Refresh(page, failed) => RefreshConservesIffNothingMissed(me, s, page, failed);
      case DepthCheck(wpc, o) => DepthCheckConservesIffLossless(me, s, wpc, o, s');
      case Create(usesPool, tag, key, annotation, res) =>
        CreateConservesIffLossless(me, usesPool, tag, s, key, annotation, res);
      case Update(key, annotation) => UpdateConservesIffAnnotationKept(s, key, annotation);
      case Delete(key, annotation, terminated) => DeleteConservesIffAnnotationKept(s, key, annotation);
      case Boot(id) => BootConserves(s, id);
    }
    hide After, PartlyRefreshed, DepthChecked, DepthLossless, CreationLossless, CreationPossible, NothingMissed,
      Conserved,
      Aligned, Ended, Booted;
  }

  /** And then it keeps the whole invariant. */
  lemma StepKeepsGood(me: Identity, s: System, op: Op, s': System)
    requires Good(me, s) && Step(me, s, op, s') && Lossless(me, s, op) && Harmless(me, op)
    ensures Good(me, s')
  {
    hide Good, PartlyRefreshed, DepthChecked, DepthLossless, CreationLossless, CreationPossible, NothingMissed,
      Ended, After,
      UserTagsAreHarmless;
    match op {
      case Refresh(page, failed) => RefreshKeepsGood(me, s, page, failed);
      case DepthCheck(wpc, o) => DepthCheckConservesIffLossless(me, s, wpc, o, s');
      case Create(usesPool, tag, key, annotation, res) =>
        LosslessCreationKeepsGood(me, usesPool, tag, s, key, annotation, res);
      case Update(key, annotation) => assert s'.pods == s.pods;
      case Delete(key, annotation, terminated) =>
        if terminated {
          EndPodKeepsGood(me, s, key);
        }
      case Boot(id) => BootKeepsGood(me, s, id);
    }
  }

  /** Every operation before the i-th state was lossless. */
  ghost predicate LosslessUpTo(me: Identity, states: seq<System>, ops: seq<Op>, i: nat)
    requires i <= |ops| && i < |states|
  {
    forall j :: 0 <= j < i ==> Lossless(me, states[j], ops[j])
  }

  ghost predicate ConservedUpTo(states: seq<System>, i: nat)
    requires i < |states|
  {
    forall j :: 0 <= j <= i ==> Conserved(states[j])
  }

  lemma {:induction false} LosslessRunsStayGood(me: Identity, states: seq<System>, ops: seq<Op>, i: nat)
    requires Run(me, states, ops) && Good(me, states[0]) && i < |states| && LosslessUpTo(me, states, ops, i)
    requires forall j :: 0 <= j < |ops| ==> Harmless(me, ops[j])
    ensures Good(me, states[i])
  {
    hide Step, Good, Lossless, Harmless;
    if i > 0 {
      LosslessRunsStayGood(me, states, ops, i - 1);
      assert Step(me, states[i - 1], ops[i - 1], states[i - 1 + 1]) && Lossless(me, states[i - 1], ops[i - 1]);
      StepKeepsGood(me, states[i - 1], ops[i - 1], states[i]);
    }
  }

  lemma {:induction false} ConservedRunsAreLossless(me: Identity, states: seq<System>, ops: seq<Op>, i: nat)
    requires Run(me, states, ops) && Good(me, states[0]) && i < |states| && ConservedUpTo(states, i)
    requires forall j :: 0 <= j < |ops| ==> Harmless(me, ops[j])
    ensures LosslessUpTo(me, states, ops, i)
  {
    hide Step, Good, Lossless, Harmless, Conserved;
    if i > 0 {
      ConservedRunsAreLossless(me, states, ops, i - 1);
      LosslessRunsStayGood(me, states, ops, i - 1);
      assert Step(me, states[i - 1], ops[i - 1], states[i - 1 + 1]) && Conserved(states[i]);
      StepConservesIffLossless(me, states[i - 1], ops[i - 1], states[i]);
    }
  }

  /** Over any serial run of creates, updates, deletes, refreshes and depth checks, whatever EC2
      refuses to do: the live instances remain exactly the disjoint union of the ready, the
      provisioning and the pods' instances, one for each pod, if and only if every operation so
      far was lossless. */
  lemma ConservationOverRuns(me: Identity, states: seq<System>, ops: seq<Op>, i: nat)
    requires Run(me, states, ops) && Good(me, states[0]) && i < |states|
    requires forall j :: 0 <= j < |ops| ==> Harmless(me, ops[j])
    ensures ConservedUpTo(states, i) <==> LosslessUpTo(me, states, ops, i)
    ensures LosslessUpTo(me, states, ops, i) ==> Good(me, states[i])
  {
    hide Step, Good, Lossless, Harmless, Conserved;
    if ConservedUpTo(states, i) {
      ConservedRunsAreLossless(me, states, ops, i);
    }
    if LosslessUpTo(me, states, ops, i) {
      forall j | 0 <= j <= i ensures Good(me, states[j]) && Conserved(states[j]) {
        assert LosslessUpTo(me, states, ops, j);
        LosslessRunsStayGood(me, states, ops, j);
        GoodConserved(me, states[j]);
      }
    }
  }

  /** Creating an uncached pod that already names an instance re-uses that instance if it runs.
      In a conserved system this always gives it a second owner. */
  lemma ReuseBreaksConservation(s: System, key: PodKey, annotation: Id)
    requires Conserved(s) && key !in s.pods && annotation in LiveIds(s.cloud)
    ensures !Conserved(s.(pods := s.pods[key := annotation]))
  {
    SharedIsNotConserved(s, key, annotation);
  }

  // ------------------------------------------------------------ exclusive assignment

  /** The operations that give a pod no instance but one that EC2 knows and that is nobody
      else's. */
  ghost predicate TakesOwn(me: Identity, s: System, op: Op) {
    match op
    case Create(usesPool, _, _, _, res) => TakesOwnInstance(me, usesPool, s, res)
    case Update(key, annotation) =>
      OutOfPool(me, s, annotation) && forall k :: k in s.pods && k != key ==> s.pods[k] != annotation
    case _ => true
  }

  lemma UpdateKeepsExclusiveIff(me: Identity, s: System, key: PodKey, annotation: Id)
    requires Exclusive(me, s) && key in s.pods
    ensures Exclusive(me, s.(pods := s.pods[key := annotation])) <==> TakesOwn(me, s, Update(key, annotation))
  {
    ForgettingKeepsExclusive(me, s, key);
    var t := s.(pods := s.pods - {key});
    NotingKeepsExclusiveIff(me, t, key, annotation);
    assert t.pods[key := annotation] == s.pods[key := annotation];
    hide Exclusive, PoolTagged;
    assert OutOfPool(me, t, annotation) <==> OutOfPool(me, s, annotation);
    assert forall k :: k in s.pods && k != key ==> k in t.pods && t.pods[k] == s.pods[k];
  }

  lemma BootKeepsExclusive(me: Identity, s: System, id: Id)
    requires Exclusive(me, s) && id in s.cloud && s.cloud[id].run.Pending?
    ensures Exclusive(me, Booted(s, id))
  {
    assert PoolTagged(me, Booted(s, id).cloud[id]) <==> PoolTagged(me, s.cloud[id]);
    hide PoolTagged, KeysMatch;
  }

  /** Every operation, whatever its outcome, keeps the pods' instances known and apart exactly if it
      gives a pod none but a known one that is nobody else's. */
  lemma StepKeepsExclusiveIff(me: Identity, s: System, op: Op, s': System)
    requires Exclusive(me, s) && Step(me, s, op, s')
    ensures Exclusive(me, s') <==> TakesOwn(me, s, op)
  {
    hide Exclusive, PartlyRefreshed, DepthChecked, CreationPossible, Ended, After, TakesOwnInstance;
    match op {
      case Refresh(page, failed) => RefreshKeepsExclusive(me, s, page, failed);
      case DepthCheck(wpc, o) => DepthCheckSparesPods(me, s, wpc, o, s');
      case Create(usesPool, tag, key, annotation, res) =>
        CreateKeepsExclusiveIff(me, usesPool, tag, s, key, annotation, res);
      case Update(key, annotation) => UpdateKeepsExclusiveIff(me, s, key, annotation);
      case Delete(key, annotation, _) =>
        EndingKeepsExclusive(me, s, annotation);
        ForgettingKeepsExclusive(me, Ended(s, annotation), key);
        assert Ended(s, annotation).pods == s.pods by { EndedPods(s, annotation); }
      case Boot(id) => BootKeepsExclusive(me, s, id);
    }
  }

  lemma EndedPods(s: System, id: Id)
    ensures Ended(s, id).pods == s.pods
  {
  }

  lemma {:induction false} ExclusiveOverRuns(me: Identity, states: seq<System>, ops: seq<Op>, i: nat)
    requires Run(me, states, ops) && Exclusive(me, states[0]) && i < |states|
    ensures (forall j :: 0 <= j <= i ==> Exclusive(me, states[j])) <==>
            (forall j :: 0 <= j < i ==> TakesOwn(me, states[j], ops[j]))
  {
    hide Step, Exclusive, TakesOwn;
    if i > 0 {
      ExclusiveOverRuns(me, states, ops, i - 1);
      assert Step(me, states[i - 1], ops[i - 1], states[i - 1 + 1]);
      if Exclusive(me, states[i - 1]) {
        StepKeepsExclusiveIff(me, states[i - 1], ops[i - 1], states[i]);
      }
    }
  }

  /** A run in which the caller keeps the annotations and no pod is created with somebody else's
      instance.  EC2 may refuse whatever it likes. */
  ghost predicate Orderly(me: Identity, states: seq<System>, ops: seq<Op>) {
    && Run(me, states, ops) && Exclusive(me, states[0])
    && forall j :: 0 <= j < |ops| ==> TakesOwn(me, states[j], ops[j]) && AnnotationKept(states[j], ops[j])
  }

  lemma OrderlyIsExclusive(me: Identity, states: seq<System>, ops: seq<Op>, i: nat)
    requires Orderly(me, states, ops) && i < |states|
    ensures Exclusive(me, states[i])
  {
    hide Step, Exclusive, TakesOwn;
    ExclusiveOverRuns(me, states, ops, i);
  }

  /** No depth check of such a run terminates, or otherwise touches, an instance assigned to a
      pod. */
  lemma DepthChecksSpareAssigned(me: Identity, states: seq<System>, ops: seq<Op>, i: nat, key: PodKey)
    requires Orderly(me, states, ops) && i < |ops| && ops[i].DepthCheck? && key in states[i].pods
    ensures states[i].pods[key] !in ops[i].outcome.released && KeepsInstance(states[i], states[i + 1], key)
  {
    OrderlyIsExclusive(me, states, ops, i);
    assert Step(me, states[i], ops[i], states[i + 1]);
    DepthCheckSparesPods(me, states[i], ops[i].wpc, ops[i].outcome, states[i + 1]);
    hide Exclusive, DepthChecked;
  }

  predicate IsDead(s: System, id: Id) {
    id in s.cloud && s.cloud[id].run.Dead?
  }

  predicate Owns(s: System, key: PodKey, id: Id) {
    key in s.pods && s.pods[key] == id
  }

  lemma CreationLeavesDead(me: Identity, usesPool: bool, tag: Reason, s: System, key: PodKey, annotation: Id,
                           res: Creation,
                           id: Id)
    requires CreationPossible(me, usesPool, s.cloud, annotation, res) && IsDead(s, id)
    ensures IsDead(After(me, usesPool, tag, s, key, annotation, res), id)
  {
    hide PopulateTags, PoolOf, FilteredIds, Promotable;
    var c := ComputedCloud(me, tag, s.cloud, res.compute);
    assert id in c && c[id].run.Dead?;
    hide ComputedCloud;
  }

  lemma DeadStaysDead(me: Identity, s: System, op: Op, s': System, id: Id)
    requires Step(me, s, op, s') && IsDead(s, id)
    ensures IsDead(s', id)
  {
    match op {
      case Refresh(page, failed) =>
        RefreshedInstance(me, s.cloud, page, failed, id);
        hide RefreshedCloud, PoolOf, FilteredIds;
      case DepthCheck(wpc, o) =>
        DepthCheckLeavesDead(me, s, wpc, o, s', id);
        hide DepthChecked;
      case Create(usesPool, tag, key, annotation, res) =>
        CreationLeavesDead(me, usesPool, tag, s, key, annotation, res, id);
        hide After, CreationPossible;
      case _ =>
    }
  }

  lemma DepthCheckLeavesDead(me: Identity, s: System, wpc: PoolConfig, o: DepthOutcome, s': System, id: Id)
    requires DepthChecked(me, s.cloud, s.pool, wpc, o, s'.cloud, s'.pool) && IsDead(s, id)
    ensures IsDead(s', id)
  {
    hide PopulateTags, Shrunk, GrownPool, Depth, Elements;
  }

  /** In a step that keeps the annotations a pod keeps its instance or the instance is ended. */
  lemma OwnedStaysOrDies(me: Identity, s: System, op: Op, s': System, key: PodKey, id: Id)
    requires Exclusive(me, s) && Step(me, s, op, s') && AnnotationKept(s, op) && Owns(s, key, id)
    ensures Owns(s', key, id) || IsDead(s', id)
  {
    assert OutOfPool(me, s, s.pods[key]);
    hide DepthChecked, PoolOf, RefreshedCloud, Exclusive, CreationPossible, ComputedCloud, ComputedPool,
      StartedCloud, PoolTagged;
  }

  /** Where the instance of a successful creation comes from: it is not a dead one. */
  lemma NotedIsAlive(me: Identity, usesPool: bool, c: Instances, annotation: Id, res: Creation)
    requires CreationPossible(me, usesPool, c, annotation, res) && StaysCached(res)
    ensures var id := ComputedId(annotation, res.compute);
            id in c ==> !c[id].run.Dead?
  {
    if res.compute.FromPool? {
      var page, failed, id := res.compute.page, res.compute.failed, res.compute.id;
      assert id in page;
      assert id in FilteredIds(me, c);
    }
  }

  /** In a step that keeps the annotations, whoever comes to own an instance comes to own one that
      is not dead, and nobody loses anything in the same step. */
  lemma NewOwnerTakesNobodys(me: Identity, s: System, op: Op, s': System, key: PodKey, id: Id)
    requires Step(me, s, op, s') && AnnotationKept(s, op) && Owns(s', key, id) && !Owns(s, key, id)
    ensures !IsDead(s, id) && forall k :: Owns(s, k, id) ==> Owns(s', k, id)
  {
    if op.Create? {
      if StaysCached(op.res) {
        NotedIsAlive(me, op.usesPool, s.cloud, op.annotation, op.res);
      }
    }
    hide DepthChecked, PoolOf, RefreshedCloud, CreationPossible, ComputedCloud, ComputedPool, StartedCloud, Ended,
      Booted;
  }

  /** A pod keeps its instance until the instance is dead, and does not get it back after that. */
  lemma {:induction false} OwnedUntilDead(me: Identity, states: seq<System>, ops: seq<Op>, i: nat, j: nat,
                                          key: PodKey, id: Id)
    requires Orderly(me, states, ops) && i <= j < |states| && Owns(states[i], key, id)
    ensures (IsDead(states[j], id) && !Owns(states[j], key, id)) || forall m :: i <= m <= j ==> Owns(states[m], key, id)
    decreases j - i
  {
    hide Step, Exclusive, TakesOwn, AnnotationKept, IsDead, Owns;
    if i < j {
      OwnedUntilDead(me, states, ops, i, j - 1, key, id);
      OrderlyIsExclusive(me, states, ops, j - 1);
      assert Step(me, states[j - 1], ops[j - 1], states[j - 1 + 1]) && AnnotationKept(states[j - 1], ops[j - 1]);
      if Owns(states[j - 1], key, id) {
        OwnedStaysOrDies(me, states[j - 1], ops[j - 1], states[j], key, id);
      } else {
        DeadStaysDead(me, states[j - 1], ops[j - 1], states[j], id);
        if Owns(states[j], key, id) {
          NewOwnerTakesNobodys(me, states[j - 1], ops[j - 1], states[j], key, id);
        }
      }
    }
  }

  lemma SameOwner(me: Identity, s: System, k: PodKey, l: PodKey, id: Id)
    requires Exclusive(me, s) && Owns(s, k, id) && Owns(s, l, id)
    ensures k == l
  {
  }

  /** Once an instance has belonged to a pod it never belongs to another. */
  lemma {:induction false} NoOtherOwner(me: Identity, states: seq<System>, ops: seq<Op>, i: nat, j: nat, k: PodKey,
                                        l: PodKey,
                                        id: Id)
    requires Orderly(me, states, ops) && i <= j < |states| && Owns(states[i], k, id) && Owns(states[j], l, id)
    ensures k == l
    decreases j - i
  {
    hide Step, Exclusive, TakesOwn, AnnotationKept, IsDead, Owns;
    OrderlyIsExclusive(me, states, ops, j);
    if i == j {
      SameOwner(me, states[j], k, l, id);
    } else {
      assert Step(me, states[j - 1], ops[j - 1], states[j - 1 + 1]) && AnnotationKept(states[j - 1], ops[j - 1]);
      if Owns(states[j - 1], l, id) {
        NoOtherOwner(me, states, ops, i, j - 1, k, l, id);
      } else {
        NewOwnerTakesNobodys(me, states[j - 1], ops[j - 1], states[j], l, id);
        OwnedUntilDead(me, states, ops, i, j - 1, k, id);
        SameOwner(me, states[j], k, l, id);
      }
    }
  }

  /** No orderly run gives one instance to two pods, whatever EC2 refuses to do: if an instance
      belongs to a pod at one moment and to a pod at a later one, it is the same pod and it has held
      the instance all the time.  The refresh, the pop and the attempt to tag are one step. */
  lemma ExclusiveAssignment(me: Identity, states: seq<System>, ops: seq<Op>, i: nat, j: nat, k: PodKey, l: PodKey,
                            id: Id)
    requires Orderly(me, states, ops) && i <= j < |states| && Owns(states[i], k, id) && Owns(states[j], l, id)
    ensures k == l && forall m :: i <= m <= j ==> Owns(states[m], k, id)
  {
    hide Orderly, IsDead, Owns;
    NoOtherOwner(me, states, ops, i, j, k, l, id);
    OwnedUntilDead(me, states, ops, i, j, k, id);
  }

  // ------------------------------------------------------------ the window

  /** After the pop and before the tagging, a refresh that lists the popped instance files it as
      ready again. */
  lemma RefreshTakesBack(me: Identity, s: System, key: PodKey, id: Id, page: set<Id>, failed: set<Id>)
    requires Good(me, s) && key !in s.pods && id in s.pool.ready && id in page && page <= FilteredIds(me, s.cloud)
    ensures var r := PartlyRefreshed(me, Popped(s, key, id), page, failed);
            id in r.pool.ready && id in r.cloud && Owns(r, key, id)
  {
    var p := Popped(s, key, id);
    assert id in p.cloud && PoolTagged(me, p.cloud[id]) && StatusOf(p.cloud[id].tags) == Some(Ready);
    RefreshOne(me, p, page, failed, id);
    RefreshFrame(me, p, page, failed);
    RefreshedInstance(me, p.cloud, page, failed, id);
    hide Good, StatusOf, PoolTagged, RefreshedCloud, PoolOf, FilteredIds;
    assert p.pods[key] == id;
  }

  lemma ReadyOfPodIsNotConserved(s: System, key: PodKey, id: Id)
    requires Owns(s, key, id) && id in s.pool.ready
    ensures !Conserved(s)
  {
    assert id in s.pods.Values;
  }

  /** The pop and the tagging are not one step in the code.  If a refresh that lists the instance
      comes between them, and a complete one always does, the instance goes back to the pool while
      its pod keeps it, and the next pod is given it too. */
  lemma RefreshInWindowAssignsTwice(me: Identity, s: System, key: PodKey, other: PodKey, id: Id, page: set<Id>,
                                    failed: set<Id>)
    requires Good(me, s) && key != other && key !in s.pods && other !in s.pods && id in s.pool.ready
    requires id in page && page <= FilteredIds(me, s.cloud)
    ensures var r := PartlyRefreshed(me, Popped(s, key, id), page, failed);
            && !Conserved(r) && !Exclusive(me, r) && id in r.pool.ready
            && Owns(Popped(r, other, id), key, id) && Owns(Popped(r, other, id), other, id)
  {
    hide PartlyRefreshed, Good, Conserved, FilteredIds;
    RefreshTakesBack(me, s, key, id, page, failed);
    var r := PartlyRefreshed(me, Popped(s, key, id), page, failed);
    ReadyOfPodIsNotConserved(r, key, id);
    assert !OutOfPool(me, r, r.pods[key]);
  }

  lemma ReadyIsKeptIffListed(me: Identity, s: System, page: set<Id>, failed: set<Id>, id: Id)
    requires PoolTagsAgree(me, s) && id in s.pool.ready
    ensures id in s.cloud && (Kept(me, s.cloud, page, failed, id) <==> id in page)
  {
  }

  /** Pop, refresh and tag as three steps: once the instance is tagged for its pod, the pods'
      instances are apart exactly if the refresh in between did not list it. */
  lemma RefreshInWindowKeepsExclusiveIffUnlisted(me: Identity, s: System, key: PodKey, id: Id, page: set<Id>,
                                                 failed: set<Id>, tag: Reason)
    requires Good(me, s) && key !in s.pods && id in s.pool.ready && page <= FilteredIds(me, s.cloud) && tag.SetPod?
    ensures var r := PartlyRefreshed(me, Popped(s, key, id), page, failed);
            id in r.cloud && (Exclusive(me, Retagged(me, r, id, tag)) <==> id !in page)
  {
    var unnoted := Popped(s, key, id).(pods := s.pods);
    var r := PartlyRefreshed(me, unnoted, page, failed);
    GoodIsExclusive(me, s);
    PoppingKeepsExclusive(me, s, key, id);
    RefreshKeepsExclusive(me, unnoted, page, failed);
    ReadyIsKeptIffListed(me, s, page, failed, id);
    RefreshOne(me, unnoted, page, failed, id);
    RetagForPodKeepsExclusive(me, r, id, tag);
    NotingKeepsExclusiveIff(me, Retagged(me, r, id, tag), key, id);
    assert r.(pods := s.pods[key := id]) == PartlyRefreshed(me, Popped(s, key, id), page, failed);
    hide Good, Exclusive, Kept, PoolTagged, PopulateTags, RefreshedCloud, PoolOf, FilteredIds;
    var t := Retagged(me, r, id, tag);
    assert t.(pods := t.pods[key := id]) == Retagged(me, r.(pods := s.pods[key := id]), id, tag);
    assert OutOfPool(me, t, id) <==> id !in page;
  }

  /** And a depth check after such a refresh may terminate the instance of the pod: one that
      wants no instances always does, if EC2 lets it. */
  lemma DepthCheckInWindowKillsPod(me: Identity, s: System, key: PodKey, id: Id, page: set<Id>, failed: set<Id>,
                                   wpc: PoolConfig, o: DepthOutcome, s': System)
    requires Good(me, s) && key !in s.pods && id in s.pool.ready && id in page && page <= FilteredIds(me, s.cloud)
    requires wpc.desired <= 0 && o.terminated
    requires Step(me, PartlyRefreshed(me, Popped(s, key, id), page, failed), DepthCheck(wpc, o), s')
    ensures Owns(s', key, id) && IsDead(s', id)
  {
    RefreshTakesBack(me, s, key, id, page, failed);
    hide PartlyRefreshed, Good, Shrunk, Grown;
    EmptiedPoolReleasesAll(PartlyRefreshed(me, Popped(s, key, id), page, failed).pool, s'.pool, o.released, id);
  }

  lemma EmptiedPoolReleasesAll(p: Pool, p': Pool, released: seq<Id>, id: Id)
    requires id in p.ready
    ensures Depth(p) > 0
    ensures Shrunk(p, p', released) && Depth(p') == 0 ==> id in Elements(released)
  {
    assert p.ready.Keys != {};
    if Shrunk(p, p', released) && Depth(p') == 0 {
      assert p'.ready == map[] && p'.provisioning == map[];
      assert id in Elements(released) + p'.ready.Keys + p'.provisioning.Keys;
    }
  }
}
