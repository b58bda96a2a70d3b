/** The part of EC2 the provider talks to: instances that carry tags, and calls that may fail. */
module Cloud {
  import opened Common

  type Id = string

  /** Only pending and running instances are live; an instance dies only by being terminated. */
  datatype RunState = Pending | Running | Dead

  datatype PoolStatus = PendingWarmpool | Ready | Unhealthy | PendingPod | PodInUse

  datatype TagKey =
    | NodeName | ClusterName | WarmpoolStatus | WarmpoolPodName | WarmpoolPodNamespace | WarmpoolPodUid
    | UserTag(name: string)

  datatype TagValue = Text(text: string) | Status(status: PoolStatus)

  type Tags = map<TagKey, TagValue>

  datatype Instance = Instance(run: RunState, tags: Tags, ip: string)

  type Instances = map<Id, Instance>

  /** The node and cluster this provider serves. */
  datatype Identity = Identity(node: string, cluster: string)

  predicate Live(x: Instance) {
    !x.run.Dead?
  }

  /** Does the instance pass the filters of a state refresh? */
  predicate Filtered(me: Identity, x: Instance) {
    && Live(x)
    && NodeName in x.tags && x.tags[NodeName] == Text(me.node)
    && ClusterName in x.tags && x.tags[ClusterName] == Text(me.cluster)
  }

  function StatusOf(tags: Tags): Option<PoolStatus> {
    if WarmpoolStatus in tags && tags[WarmpoolStatus].Status? then Some(tags[WarmpoolStatus].status) else None
  }

  /** An instance shows a status exactly when that is the value of its status tag. */
  lemma StatusIsTheTag(tags: Tags, status: PoolStatus)
    ensures StatusOf(tags) == Some(status) <==> WarmpoolStatus in tags && tags[WarmpoolStatus] == Status(status)
    ensures StatusOf(tags).None? <==> WarmpoolStatus in tags ==> tags[WarmpoolStatus].Text?
  {
  }

  function LiveIds(c: Instances): set<Id> {
    set id | id in c && Live(c[id])
  }

  function FilteredIds(me: Identity, c: Instances): set<Id> {
    set id | id in c && Filtered(me, c[id])
  }

  /** A set of filtered instances that may be the first page of a response: it is short of none
      unless it holds at least `pageSize` of them. */
  ghost predicate IsPage(me: Identity, c: Instances, pageSize: nat, page: set<Id>) {
    page <= FilteredIds(me, c) && (|page| < pageSize ==> page == FilteredIds(me, c))
  }

  function Tagged(c: Instances, id: Id, tags: Tags): Instances
    requires id in c
  {
    c[id := c[id].(tags := c[id].tags + tags)]
  }

  function Terminated(c: Instances, ids: set<Id>): Instances {
    map id | id in c :: if id in ids then c[id].(run := Dead) else c[id]
  }

  datatype Tag = Tag(key: TagKey, value: TagValue)

  /** One entry of a describe response. */
  datatype Described = Described(id: Id, run: RunState, tags: seq<Tag>, ip: string)

  /** A list of the tags of an instance, each key once. */
  ghost predicate Lists(s: seq<Tag>, m: Tags) {
    && (forall i :: 0 <= i < |s| ==> s[i].key in m && m[s[i].key] == s[i].value)
    && (forall i, j :: 0 <= i < j < |s| ==> s[i].key != s[j].key)
    && (forall k :: k in m ==> exists i :: 0 <= i < |s| && s[i].key == k)
  }

  ghost predicate Describes(d: Described, c: Instances) {
    d.id in c && d.run == c[d.id].run && d.ip == c[d.id].ip && Lists(d.tags, c[d.id].tags)
  }

  function Ids(page: seq<Described>): set<Id> {
    set i | 0 <= i < |page| :: page[i].id
  }

  ghost predicate Distinct<T>(s: seq<T>) {
    forall i, j :: 0 <= i < j < |s| ==> s[i] != s[j]
  }

  ghost predicate DistinctIds(page: seq<Described>) {
    forall i, j :: 0 <= i < j < |page| ==> page[i].id != page[j].id
  }

  function Elements<T>(s: seq<T>): set<T> {
    set x | x in s
  }

  method ListTags(m: Tags) returns (s: seq<Tag>)
    ensures Lists(s, m)
  {
    s := [];
    var todo := m.Keys;
    while todo != {}
      invariant todo <= m.Keys
      invariant forall i :: 0 <= i < |s| ==> s[i].key in m && s[i].key !in todo && m[s[i].key] == s[i].value
      invariant forall i, j :: 0 <= i < j < |s| ==> s[i].key != s[j].key
      invariant forall k :: k in m && k !in todo ==> exists i :: 0 <= i < |s| && s[i].key == k
      decreases todo
    {
      var k :| k in todo;
      ghost var before := s;
      s := s + [Tag(k, m[k])];
      todo := todo - {k};
      forall j | j in m && j !in todo ensures exists i :: 0 <= i < |s| && s[i].key == j {
        if j == k {
          assert s[|before|].key == j;
        } else {
          var i :| 0 <= i < |before| && before[i].key == j;
          assert s[i].key == j;
        }
      }
    }
  }

  /** The EC2 endpoint.  Whether a call succeeds is not under the caller's control; `faults`
      counts the calls that did not. */
  class Ec2 {
    /** How many instances one page of a describe response holds at least. */
    const pageSize: nat
    var instances: Instances
    ghost var faults: nat

    constructor (pageSize: nat)
      ensures instances == map[] && this.pageSize == pageSize && faults == 0
    {
      instances, faults, this.pageSize := map[], 0, pageSize;
    }

    /** Launches one instance with an id never used before. */
    method RunInstances(tags: Tags) returns (launched: Option<Id>)
      modifies this
      ensures faults == old(faults) + if launched.None? then 1 else 0
      ensures launched.None? ==> instances == old(instances)
      ensures launched.Some? ==>
        && launched.value != "" && launched.value !in old(instances) && launched.value in instances
        && instances == old(instances)[launched.value := Instance(Pending, tags, instances[launched.value].ip)]
    {
      var id: Id, ip: string, ok: bool := *, *, *;
      if ok && id != "" && id !in instances {
        instances := instances[id := Instance(Pending, tags, ip)];
        return Some(id);
      }
      faults := faults + 1;
      return None;
    }

    method CreateTags(id: Id, tags: Tags) returns (ok: bool)
      modifies this
      ensures faults == old(faults) + if ok then 0 else 1
      ensures !ok ==> instances == old(instances)
      ensures ok ==> id in old(instances) && instances == Tagged(old(instances), id, tags)
      ensures ok ==>
        && instances.Keys == old(instances).Keys
        && (forall other :: other in instances && other != id ==> instances[other] == old(instances)[other])
        && instances[id].run == old(instances)[id].run && instances[id].ip == old(instances)[id].ip
        && (forall k :: k in tags ==> k in instances[id].tags && instances[id].tags[k] == tags[k])
        && (forall k :: k !in tags ==>
              if k in old(instances)[id].tags then
                k in instances[id].tags && instances[id].tags[k] == old(instances)[id].tags[k]
              else k !in instances[id].tags)
    {
      ok := *;
      if id !in instances {
        ok := false;
      }
      if ok {
        instances := Tagged(instances, id, tags);
      } else {
        faults := faults + 1;
      }
    }

    /** Terminates all of them or, if one is unknown or the call fails, none. */
    method TerminateInstances(ids: seq<Id>) returns (ok: bool)
      modifies this
      ensures faults == old(faults) + if ok then 0 else 1
      ensures !ok ==> instances == old(instances)
      ensures ok ==> Elements(ids) <= old(instances).Keys && instances == Terminated(old(instances), Elements(ids))
      ensures ok ==>
        && instances.Keys == old(instances).Keys
        && (forall id :: id in instances ==>
              && instances[id].tags == old(instances)[id].tags && instances[id].ip == old(instances)[id].ip
              && (id in ids ==> instances[id].run == Dead)
              && (id !in ids ==> instances[id] == old(instances)[id]))
    {
      ok := *;
      if exists i :: 0 <= i < |ids| && ids[i] !in instances {
        ok := false;
      }
      if ok {
        instances := Terminated(instances, Elements(ids));
      } else {
        faults := faults + 1;
      }
    }

    /** The first page of the filtered instances; `more` tells whether there are further pages. */
    method DescribeInstances(me: Identity) returns (page: Option<seq<Described>>, more: bool)
      modifies this`faults
      ensures faults == old(faults) + if page.None? then 1 else 0
      ensures page.Some? ==>
        && DistinctIds(page.value) && IsPage(me, instances, pageSize, Ids(page.value))
        && (forall i :: 0 <= i < |page.value| ==> Describes(page.value[i], instances))
        && (more <==> Ids(page.value) != FilteredIds(me, instances))
    {
      hide Lists, FilteredIds, DistinctIds, Ids;
      var ok: bool := *;
      if !ok {
        faults := faults + 1;
        return None, false;
      }
      var all := FilteredIds(me, instances);
      FilteredAreKnown(me, instances);
      var todo := all;
      var out: seq<Described> := [];
      var room: bool := *;
      NoIds();
      while todo != {} && (|out| < pageSize || room)
        invariant todo <= all && |out| + |todo| == |all| && faults == old(faults)
        invariant DistinctIds(out) && Ids(out) == all - todo
        invariant forall i :: 0 <= i < |out| ==> Describes(out[i], instances)
        decreases todo
      {
        var id :| id in todo;
        var x := instances[id];
        var tags := ListTags(x.tags);
        IdsExtend(out, Described(id, x.run, tags, x.ip));
        out := out + [Described(id, x.run, tags, x.ip)];
        todo := todo - {id};
        room := *;
      }
      return Some(out), todo != {};
    }

    /** The status call of `podHasInstance`: it can only confirm an instance that is running. */
    method DescribeInstanceStatus(id: Id) returns (running: bool)
      modifies this`faults
      ensures faults >= old(faults)
      ensures running ==> id in instances && instances[id].run.Running?
      ensures faults == old(faults) && id in instances && instances[id].run.Running? ==> running
    {
      var ok: bool := *;
      if !ok || id !in instances {
        faults := faults + 1;
        return false;
      }
      return instances[id].run.Running?;
    }

    /** The wait for a private address; it fails or finds the instance running. */
    method WaitUntilRunning(id: Id) returns (ip: Option<string>)
      modifies this
      ensures faults == old(faults) + if ip.None? then 1 else 0
      ensures ip.None? ==> instances == old(instances)
      ensures ip.Some? ==>
        && id in old(instances) && old(instances)[id].run != Dead && ip.value == old(instances)[id].ip
        && instances == old(instances)[id := old(instances)[id].(run := Running)]
    {
      var ok: bool := *;
      if !ok || id !in instances || instances[id].run.Dead? {
        faults := faults + 1;
        return None;
      }
      instances := instances[id := instances[id].(run := Running)];
      return Some(instances[id].ip);
    }
  }

  lemma FilteredAreKnown(me: Identity, c: Instances)
    ensures FilteredIds(me, c) <= c.Keys
  {
  }

  lemma NoIds()
    ensures Ids([]) == {} && DistinctIds([])
  {
  }

  lemma IdsExtend(page: seq<Described>, d: Described)
    ensures Ids(page + [d]) == Ids(page) + {d.id}
    ensures DistinctIds(page) && d.id !in Ids(page) ==> DistinctIds(page + [d])
  {
    var s := page + [d];
    assert s[|page|] == d;
    assert forall i :: 0 <= i < |page| ==> page[i].id in Ids(page);
    forall id ensures id in Ids(s) <==> id in Ids(page) || id == d.id {
      if id in Ids(page) {
        var i :| 0 <= i < |page| && page[i].id == id;
        assert s[i].id == id;
      }
    }
  }
}
