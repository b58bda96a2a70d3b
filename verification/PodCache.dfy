/** The pod cache: pods under string keys made of their namespace and name. */
module PodCache {
  import opened Common
  import opened Pods

  function GetPodCacheKey(namespace: string, name: string): string {
    namespace + "-" + name
  }

  // ------------------------------------------------------- when keys collide

  /** `longer` continues `shorter` after a hyphen, and the names make up for it. */
  predicate HyphenOverlap(shorter: string, shortName: string, longer: string, longName: string) {
    && |shorter| < |longer| && shorter <= longer && longer[|shorter|] == '-'
    && shortName == longer[|shorter| + 1..] + "-" + longName
  }

  lemma OverlapCollides(n: string, m: string, n': string, m': string)
    requires HyphenOverlap(n, m, n', m')
    ensures GetPodCacheKey(n, m) == GetPodCacheKey(n', m')
  {
    var x := n'[|n| + 1..];
    assert n' == n + "-" + x;
    assert n + "-" + (x + "-" + m') == n + "-" + x + "-" + m';
  }

  lemma CollisionOverlaps(n: string, m: string, n': string, m': string)
    requires GetPodCacheKey(n, m) == GetPodCacheKey(n', m') && |n| < |n'|
    ensures HyphenOverlap(n, m, n', m')
  {
    var key := GetPodCacheKey(n, m);
    assert key[..|n|] == n && key[|n|] == '-' && key[|n| + 1..] == m;
    assert key[..|n'|] == n';
    assert n'[..|n|] == key[..|n|];
    assert n'[|n|] == key[|n|];
    assert key[|n| + 1..] == n'[|n| + 1..] + "-" + m';
  }

  lemma EqualLengthsEqual(n: string, m: string, n': string, m': string)
    requires GetPodCacheKey(n, m) == GetPodCacheKey(n', m') && |n| == |n'|
    ensures n == n' && m == m'
  {
    var key := GetPodCacheKey(n, m);
    assert key[..|n|] == n && key[|n| + 1..] == m;
    assert key[..|n'|] == n' && key[|n'| + 1..] == m';
  }

  /** Two different pods share a key exactly when one namespace continues the other after a
      hyphen and the names make up for it. */
  lemma KeysCollideIffOverlap(n: string, m: string, n': string, m': string)
    ensures GetPodCacheKey(n, m) == GetPodCacheKey(n', m') <==>
            (n == n' && m == m') || HyphenOverlap(n, m, n', m') || HyphenOverlap(n', m', n, m)
  {
    if GetPodCacheKey(n, m) == GetPodCacheKey(n', m') {
      if |n| == |n'| {
        EqualLengthsEqual(n, m, n', m');
      } else if |n| < |n'| {
        CollisionOverlaps(n, m, n', m');
      } else {
        CollisionOverlaps(n', m', n, m);
      }
    }
    if HyphenOverlap(n, m, n', m') { OverlapCollides(n, m, n', m'); }
    if HyphenOverlap(n', m', n, m) { OverlapCollides(n', m', n, m); }
  }

  /** In particular, namespaces without hyphens keep all pods apart. */
  lemma HyphenFreeKeysAreDistinct(n: string, m: string, n': string, m': string)
    requires '-' !in n && '-' !in n' && GetPodCacheKey(n, m) == GetPodCacheKey(n', m')
    ensures n == n' && m == m'
  {
    KeysCollideIffOverlap(n, m, n', m');
    OverlapNeedsHyphen(n, m, n', m');
    OverlapNeedsHyphen(n', m', n, m);
  }

  lemma OverlapNeedsHyphen(n: string, m: string, n': string, m': string)
    ensures HyphenOverlap(n, m, n', m') ==> '-' in n'
  {
  }

  // ------------------------------------------------------- the cache as a map of pods

  /** What the cache knows of a pod at some moment. */
  datatype PodInfo = PodInfo(namespace: string, name: string, uid: string, instanceId: string, status: PodStatus)

  datatype CacheOp =
    | SetPod(info: PodInfo)
    | UpdateIfPresent(info: PodInfo)
    | DeletePod(namespace: string, name: string)
    | Populate(list: seq<PodInfo>)

  type Contents = map<string, PodInfo>

  function KeyOf(info: PodInfo): string {
    GetPodCacheKey(info.namespace, info.name)
  }

  function SetAll(m: Contents, list: seq<PodInfo>): Contents {
    if list == [] then m else SetAll(m, Front(list))[KeyOf(Last(list)) := Last(list)]
  }

  /** What an operation does to the cache's map. */
  function Perform(m: Contents, op: CacheOp): Contents {
    match op
    case SetPod(info) => m[KeyOf(info) := info]
    case UpdateIfPresent(info) => if KeyOf(info) in m then m[KeyOf(info) := info] else m
    case DeletePod(namespace, name) => m - {GetPodCacheKey(namespace, name)}
    case Populate(list) => SetAll(m, list)
  }

  function PerformAll(ops: seq<CacheOp>): Contents {
    if ops == [] then map[] else Perform(PerformAll(Front(ops)), Last(ops))
  }

  function Get(m: Contents, namespace: string, name: string): Option<PodInfo> {
    if GetPodCacheKey(namespace, name) in m then Some(m[GetPodCacheKey(namespace, name)]) else None
  }

  predicate IsPod(info: PodInfo, namespace: string, name: string) {
    info.namespace == namespace && info.name == name
  }

  function LatestIn(before: Option<PodInfo>, list: seq<PodInfo>, namespace: string, name: string): Option<PodInfo> {
    if list == [] then before
    else if IsPod(Last(list), namespace, name) then Some(Last(list))
    else LatestIn(before, Front(list), namespace, name)
  }

  /** The latest undeleted pod of that namespace and name, in terms of the operations alone. */
  function Latest(ops: seq<CacheOp>, namespace: string, name: string): Option<PodInfo> {
    if ops == [] then None
    else
      var before := Latest(Front(ops), namespace, name);
      match Last(ops)
      case SetPod(info) => if IsPod(info, namespace, name) then Some(info) else before
      case UpdateIfPresent(info) => if IsPod(info, namespace, name) && before.Some? then Some(info) else before
      case DeletePod(ns, nm) => if ns == namespace && nm == name then None else before
      case Populate(list) => LatestIn(before, list, namespace, name)
  }

  /** The operation never touches another pod with the same key. */
  ghost predicate Apart(op: CacheOp, namespace: string, name: string) {
    match op
    case SetPod(info) => KeyOf(info) == GetPodCacheKey(namespace, name) ==> IsPod(info, namespace, name)
    case UpdateIfPresent(info) => KeyOf(info) == GetPodCacheKey(namespace, name) ==> IsPod(info, namespace, name)
    case DeletePod(ns, nm) => GetPodCacheKey(ns, nm) == GetPodCacheKey(namespace, name) ==>
        ns == namespace && nm == name
    case Populate(list) =>
      forall i :: 0 <= i < |list| && KeyOf(list[i]) == GetPodCacheKey(namespace, name) ==>
          IsPod(list[i], namespace, name)
  }

  lemma {:induction false} PopulateIsLatest(m: Contents, list: seq<PodInfo>, namespace: string, name: string)
    requires Apart(Populate(list), namespace, name)
    ensures Get(SetAll(m, list), namespace, name) == LatestIn(Get(m, namespace, name), list, namespace, name)
  {
    if list != [] {
      assert list == Front(list) + [Last(list)];
      assert Apart(Populate(Front(list)), namespace, name) by {
        assert forall i :: 0 <= i < |Front(list)| ==> Front(list)[i] == list[i];
      }
      PopulateIsLatest(m, Front(list), namespace, name);
      assert list[|list| - 1] == Last(list);
    }
  }

  /** After any sequence of operations that keep the pod's key to itself, the cache returns the
      latest undeleted pod of that namespace and name. */
  lemma {:induction false} GetReturnsLatest(ops: seq<CacheOp>, namespace: string, name: string)
    requires forall i :: 0 <= i < |ops| ==> Apart(ops[i], namespace, name)
    ensures Get(PerformAll(ops), namespace, name) == Latest(ops, namespace, name)
  {
    hide GetPodCacheKey;
    if ops != [] {
      var front := Front(ops);
      assert forall i :: 0 <= i < |front| ==> front[i] == ops[i];
      GetReturnsLatest(front, namespace, name);
      var op := ops[|ops| - 1];
      assert Apart(op, namespace, name);
      if op.Populate? {
        PopulateIsLatest(PerformAll(front), op.list, namespace, name);
      }
    }
  }

  /** The operation concerns this key. */
  ghost predicate Touches(op: CacheOp, key: string) {
    match op
    case SetPod(info) => KeyOf(info) == key
    case UpdateIfPresent(info) => KeyOf(info) == key
    case DeletePod(ns, nm) => GetPodCacheKey(ns, nm) == key
    case Populate(list) => exists i :: 0 <= i < |list| && KeyOf(list[i]) == key
  }

  /** The i-th listed pod is the last one with its key. */
  ghost predicate LastOfItsKey(list: seq<PodInfo>, i: nat) {
    i < |list| && forall j :: i < j < |list| ==> KeyOf(list[j]) != KeyOf(list[i])
  }

  lemma {:induction false} LastListedStays(m: Contents, list: seq<PodInfo>, i: nat)
    requires LastOfItsKey(list, i)
    ensures KeyOf(list[i]) in SetAll(m, list) && SetAll(m, list)[KeyOf(list[i])] == list[i]
  {
    hide KeyOf;
    if i < |list| - 1 {
      var front := Front(list);
      assert list == front + [list[|list| - 1]];
      assert LastOfItsKey(front, i);
      LastListedStays(m, front, i);
    }
  }

  lemma {:induction false} UnlistedStays(m: Contents, list: seq<PodInfo>, key: string)
    requires forall i :: 0 <= i < |list| ==> KeyOf(list[i]) != key
    ensures key in SetAll(m, list) <==> key in m
    ensures key in m ==> SetAll(m, list)[key] == m[key]
  {
    hide KeyOf;
    if list != [] {
      var front, last := Front(list), list[|list| - 1];
      assert forall i :: 0 <= i < |front| ==> front[i] == list[i];
      UnlistedStays(m, front, key);
      assert KeyOf(last) != key;
    }
  }

  lemma {:induction false} UntouchedStays(ops: seq<CacheOp>, later: seq<CacheOp>, key: string)
    requires forall i :: 0 <= i < |later| ==> !Touches(later[i], key)
    ensures key in PerformAll(ops + later) <==> key in PerformAll(ops)
    ensures key in PerformAll(ops) ==> PerformAll(ops + later)[key] == PerformAll(ops)[key]
    decreases |later|
  {
    hide GetPodCacheKey;
    if later == [] {
      assert ops + later == ops;
    } else {
      var front, op := Front(later), later[|later| - 1];
      assert Front(ops + later) == ops + front && Last(ops + later) == op;
      assert forall i :: 0 <= i < |front| ==> front[i] == later[i];
      UntouchedStays(ops, front, key);
      if op.Populate? {
        UnlistedStays(PerformAll(ops + front), op.list, key);
      }
    }
  }

  /** What the cache holds under a key is decided by the last operation that concerned it: a set or
      a listing leaves that pod, a deletion none, and an update its pod if there was one. */
  lemma LastTouchDecides(ops: seq<CacheOp>, op: CacheOp, later: seq<CacheOp>, key: string)
    requires Touches(op, key) && forall i :: 0 <= i < |later| ==> !Touches(later[i], key)
    ensures var before, after := PerformAll(ops), PerformAll(ops + [op] + later);
            match op
            case SetPod(info) => key in after && after[key] == info
            case UpdateIfPresent(info) => if key in before then key in after && after[key] == info else key !in after
            case DeletePod(_, _) => key !in after
            case Populate(list) =>
              exists i :: 0 <= i < |list| && LastOfItsKey(list, i) && KeyOf(list[i]) == key
                          && key in after && after[key] == list[i]
  {
    UntouchedStays(ops + [op], later, key);
    FrontAppend(ops, op);
    if op.Populate? {
      var i := LastListed(op.list, key);
      LastListedStays(PerformAll(ops), op.list, i);
    }
    hide GetPodCacheKey, SetAll;
  }

  lemma {:induction false} LastListed(list: seq<PodInfo>, key: string) returns (i: nat)
    requires exists k :: 0 <= k < |list| && KeyOf(list[k]) == key
    ensures LastOfItsKey(list, i) && KeyOf(list[i]) == key
  {
    hide KeyOf;
    var k :| 0 <= k < |list| && KeyOf(list[k]) == key;
    i := LastListedAfter(list, k, key);
  }

  lemma {:induction false} LastListedAfter(list: seq<PodInfo>, k: nat, key: string) returns (i: nat)
    requires k < |list| && KeyOf(list[k]) == key
    ensures LastOfItsKey(list, i) && KeyOf(list[i]) == key
    decreases |list| - k
  {
    hide KeyOf;
    i := k;
    if j :| k < j < |list| && KeyOf(list[j]) == key {
      i := LastListedAfter(list, j, key);
    }
  }

  ghost predicate HyphenFree(op: CacheOp) {
    match op
    case SetPod(info) => '-' !in info.namespace
    case UpdateIfPresent(info) => '-' !in info.namespace
    case DeletePod(ns, _) => '-' !in ns
    case Populate(list) => forall i :: 0 <= i < |list| ==> '-' !in list[i].namespace
  }

  lemma HyphenFreeIsApart(op: CacheOp, namespace: string, name: string)
    requires HyphenFree(op) && '-' !in namespace
    ensures Apart(op, namespace, name)
  {
    match op {
      case SetPod(info) =>
        if KeyOf(info) == GetPodCacheKey(namespace, name) {
          HyphenFreeKeysAreDistinct(info.namespace, info.name, namespace, name);
        }
      case UpdateIfPresent(info) =>
        if KeyOf(info) == GetPodCacheKey(namespace, name) {
          HyphenFreeKeysAreDistinct(info.namespace, info.name, namespace, name);
        }
      case DeletePod(ns, nm) =>
        if GetPodCacheKey(ns, nm) == GetPodCacheKey(namespace, name) {
          HyphenFreeKeysAreDistinct(ns, nm, namespace, name);
        }
      case Populate(list) =>
        forall i | 0 <= i < |list| && KeyOf(list[i]) == GetPodCacheKey(namespace, name)
          ensures IsPod(list[i], namespace, name)
        {
          HyphenFreeKeysAreDistinct(list[i].namespace, list[i].name, namespace, name);
        }
    }
  }

  /** With hyphen-free namespaces the cache is a faithful map from namespace and name to pod. */
  lemma HyphenFreeCacheIsFaithful(ops: seq<CacheOp>, namespace: string, name: string)
    requires '-' !in namespace && forall i :: 0 <= i < |ops| ==> HyphenFree(ops[i])
    ensures Get(PerformAll(ops), namespace, name) == Latest(ops, namespace, name)
  {
    forall i | 0 <= i < |ops| ensures Apart(ops[i], namespace, name) {
      HyphenFreeIsApart(ops[i], namespace, name);
    }
    GetReturnsLatest(ops, namespace, name);
  }

  /** Any two different pods keep out of each other's way in the cache exactly when their
      namespaces and names do not overlap at a hyphen. */
  lemma PodsInterfereIffOverlap(a: PodInfo, b: PodInfo)
    requires !IsPod(b, a.namespace, a.name)
    ensures var ops := [SetPod(a), SetPod(b)];
            Get(PerformAll(ops), a.namespace, a.name) == Latest(ops, a.namespace, a.name) <==>
            !HyphenOverlap(a.namespace, a.name, b.namespace, b.name) &&
            !HyphenOverlap(b.namespace, b.name, a.namespace, a.name)
  {
    KeysCollideIffOverlap(a.namespace, a.name, b.namespace, b.name);
    var ops := [SetPod(a), SetPod(b)];
    assert Front(ops) == [SetPod(a)] && Front([SetPod(a)]) == [];
    assert PerformAll([SetPod(a)]) == map[KeyOf(a) := a];
    assert PerformAll(ops) == map[KeyOf(a) := a][KeyOf(b) := b];
    assert Latest([SetPod(a)], a.namespace, a.name) == Some(a);
    assert Last(ops) == SetPod(b);
    assert Latest(ops, a.namespace, a.name) == Some(a);
  }

  /** A pod "c" in namespace "a-b" and a pod "b-c" in namespace "a" share one cache entry. */
  lemma HyphenatedNamespacesCollide()
    ensures GetPodCacheKey("a-b", "c") == GetPodCacheKey("a", "b-c")
    ensures HyphenOverlap("a", "b-c", "a-b", "c")
  {
    assert GetPodCacheKey("a-b", "c") == "a-b-c";
    assert "a-b"[2..] == "b" && "b" + "-" + "c" == "b-c";
  }
}
