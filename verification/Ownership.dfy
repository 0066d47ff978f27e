/** From workloads to their pods and back: owner references followed in both directions. */
module Ownership {
  import opened Strings
  import opened Kubernetes

  datatype Ref = Ref(kind: string, name: string, uid: string)

  /** A workload. `selector` is None where the object has none; `external` marks ExternalName services. */
  datatype Obj = Obj(kind: string, ns: string, name: string, uid: string, labels: Labels,
                     selector: Option<Labels>, external: bool, owners: seq<Ref>)

  datatype Phase = Pending | Running | PhaseFailed | OtherPhase

  datatype Pod = Pod(ns: string, name: string, labels: Labels, owners: seq<Ref>, phase: Phase, terminating: bool)

  /** What the informers hold, or what the API server holds. */
  datatype Store = Store(objects: seq<Obj>, pods: seq<Pod>)

  const JOB := "Job"
  const REPLICA_SET := "ReplicaSet"
  const CRON_JOB := "CronJob"
  const DEPLOYMENT := "Deployment"
  const DAEMON_SET := "DaemonSet"
  const STATEFUL_SET := "StatefulSet"
  const REPLICATION_CONTROLLER := "ReplicationController"
  const SERVICE := "Service"
  const NAMESPACE := "Namespace"
  const POD := "Pod"

  function LowerChar(c: char): char {
    if 'A' <= c <= 'Z' then c - 'A' + 'a' else c
  }

  function Lower(s: string): string {
    seq(|s|, i requires 0 <= i < |s| => LowerChar(s[i]))
  }

  const CAPITALS := "ABCDEFGHIJKLMNOPQRSTUVWXYZ"

  lemma LowerIsExact(s: string, i: nat)
    requires i < |s|
    ensures |Lower(s)| == |s|
    ensures s[i] in CAPITALS ==> Lower(s)[i] as int == s[i] as int + 32
    ensures s[i] !in CAPITALS ==> Lower(s)[i] == s[i]
  {
    if 'A' <= s[i] <= 'Z' {
      assert CAPITALS[s[i] as int - 65] == s[i];
    }
  }

  /* ---------- lookups ---------- */

  predicate Is(o: Obj, kind: string, ns: string, name: string) {
    o.kind == kind && o.ns == ns && o.name == name
  }

  function Find(objects: seq<Obj>, kind: string, ns: string, name: string): (r: Option<Obj>)
    ensures r.Some? ==> r.value in objects && Is(r.value, kind, ns, name)
    ensures r.None? ==> forall o :: o in objects ==> !Is(o, kind, ns, name)
  {
    if objects == [] then None
    else if Is(objects[0], kind, ns, name) then Some(objects[0])
    else Find(objects[1..], kind, ns, name)
  }

  function FindPod(pods: seq<Pod>, ns: string, name: string): (r: Option<Pod>)
    ensures r.Some? ==> r.value in pods && r.value.ns == ns && r.value.name == name
    ensures r.None? ==> forall p :: p in pods ==> !(p.ns == ns && p.name == name)
  {
    if pods == [] then None
    else if pods[0].ns == ns && pods[0].name == name then Some(pods[0])
    else FindPod(pods[1..], ns, name)
  }

  predicate Owned(uid: string, owners: seq<Ref>) {
    exists i :: 0 <= i < |owners| && owners[i].uid == uid
  }

  method IsOwner(uid: string, owners: seq<Ref>) returns (r: bool)
    ensures r <==> Owned(uid, owners)
  {
    for i := 0 to |owners|
      invariant forall j :: 0 <= j < i ==> owners[j].uid != uid
    {
      if uid == owners[i].uid {
        return true;
      }
    }
    return false;
  }

  predicate Distinct<T(==)>(s: seq<T>) {
    forall i, j :: 0 <= i < j < |s| ==> s[i] != s[j]
  }

  lemma DistinctTogether<T>(s: seq<T>, t: seq<T>)
    requires Distinct(s) && Distinct(t) && forall x :: x in s ==> x !in t
    ensures Distinct(s + t)
  {
    forall i, j | 0 <= i < j < |s + t| ensures (s + t)[i] != (s + t)[j] {
      if i < |s| <= j {
        assert (s + t)[i] in s && (s + t)[j] in t;
      }
    }
  }

  lemma DistinctWhenShort<T>(s: seq<T>)
    requires |s| <= 1
    ensures Distinct(s)
  {
  }

  lemma DistinctFromPrefix<T>(s: seq<T>, i: nat)
    requires Distinct(s) && i < |s|
    ensures s[i] !in s[..i]
  {
  }

  predicate Matches(selector: Labels, labels: Labels) {
    forall k :: k in selector ==> k in labels && labels[k] == selector[k]
  }

  /* ---------- from a workload to its pods ---------- */

  predicate Live(p: Pod, includeFailed: bool) {
    || ((p.phase == Pending || p.phase == Running) && !p.terminating)
    || (includeFailed && p.phase == PhaseFailed)
  }

  predicate Direct(kind: string) {
    kind in {DAEMON_SET, REPLICA_SET, JOB, REPLICATION_CONTROLLER, STATEFUL_SET}
  }

  /** The pods of a workload that owns its pods itself. An object without a UID owns whatever it selects. */
  predicate Selects(o: Obj, includeFailed: bool, p: Pod) {
    && p.ns == o.ns && o.selector.Some? && Matches(o.selector.value, p.labels)
    && Live(p, includeFailed) && (o.uid == "" || Owned(o.uid, p.owners))
  }

  /** The objects between a workload and its pods. */
  predicate Between(o: Obj, mid: Obj) {
    && mid.ns == o.ns && Owned(o.uid, mid.owners)
    && (o.kind == CRON_JOB ==> mid.kind == JOB)
    && (o.kind == DEPLOYMENT ==> mid.kind == REPLICA_SET && o.selector.Some? && Matches(o.selector.value, mid.labels))
  }

  /** A pod is associated with an object. */
  ghost predicate PodOf(s: Store, o: Obj, includeFailed: bool, p: Pod) {
    p in s.pods &&
    if o.kind == CRON_JOB || o.kind == DEPLOYMENT then
      exists mid :: mid in s.objects && Between(o, mid) && Selects(mid, includeFailed, p)
    else if o.kind == POD then FindPod(s.pods, o.ns, o.name) == Some(p) && Live(p, includeFailed)
    else if Direct(o.kind) then Selects(o, includeFailed, p)
    else if o.kind == NAMESPACE then p.ns == o.name && Live(p, includeFailed)
    else
      && o.kind == SERVICE && !o.external && p.ns == o.ns && Live(p, includeFailed)
      && o.selector.Some? && Matches(o.selector.value, p.labels)
  }

  /** A pod that a workload selects and owns, whatever became of the pod. */
  ghost predicate BelongsDirectly(o: Obj, p: Pod) {
    && p.ns == o.ns && o.selector.Some? && o.selector.value.Items <= p.labels.Items
    && (o.uid == "" || exists r :: r in p.owners && r.uid == o.uid)
  }

  ghost predicate BelongsThrough(o: Obj, mid: Obj, p: Pod) {
    && mid.ns == o.ns && (exists r :: r in mid.owners && r.uid == o.uid) && BelongsDirectly(mid, p)
    && (o.kind == CRON_JOB ==> mid.kind == JOB)
    && (o.kind == DEPLOYMENT ==>
          mid.kind == REPLICA_SET && o.selector.Some? && o.selector.value.Items <= mid.labels.Items)
  }

  /** Which pods are an object's, by kind: through its Jobs or ReplicaSets, itself, its own, all in it, or selected. */
  ghost predicate Belongs(s: Store, o: Obj, p: Pod) {
    && p in s.pods
    && (o.kind == CRON_JOB || o.kind == DEPLOYMENT ==> exists mid :: mid in s.objects && BelongsThrough(o, mid, p))
    && (o.kind == POD ==> FindPod(s.pods, o.ns, o.name) == Some(p))
    && (o.kind in {DAEMON_SET, REPLICA_SET, JOB, REPLICATION_CONTROLLER, STATEFUL_SET} ==> BelongsDirectly(o, p))
    && (o.kind == NAMESPACE ==> p.ns == o.name)
    && (o.kind == SERVICE ==>
          !o.external && p.ns == o.ns && o.selector.Some? && o.selector.value.Items <= p.labels.Items)
  }

  /** Pending and running pods are returned unless they are terminating, failed ones on request, others never. */
  predicate Returned(p: Pod, includeFailed: bool) {
    match p.phase
    case Pending => !p.terminating
    case Running => !p.terminating
    case PhaseFailed => includeFailed
    case OtherPhase => false
  }

  predicate HasPods(kind: string) {
    || kind == CRON_JOB || kind == DEPLOYMENT || kind == NAMESPACE || kind == SERVICE || kind == POD
    || kind == DAEMON_SET || kind == REPLICA_SET || kind == JOB || kind == REPLICATION_CONTROLLER
    || kind == STATEFUL_SET
  }

  lemma MatchesIsInclusion(selector: Labels, labels: Labels)
    ensures Matches(selector, labels) <==> selector.Items <= labels.Items
  {
    if Matches(selector, labels) {
      forall i | i in selector.Items ensures i in labels.Items {
        assert i.0 in selector && selector[i.0] == i.1;
      }
    }
    if selector.Items <= labels.Items {
      forall k | k in selector ensures k in labels && labels[k] == selector[k] {
        assert (k, selector[k]) in selector.Items;
      }
    }
  }

  lemma SelectsIsExact(o: Obj, includeFailed: bool, p: Pod)
    ensures Selects(o, includeFailed, p) <==> BelongsDirectly(o, p) && Returned(p, includeFailed)
  {
    hide Matches;
    if o.selector.Some? {
      MatchesIsInclusion(o.selector.value, p.labels);
    }
  }

  lemma BetweenIsExact(o: Obj, mid: Obj, includeFailed: bool, p: Pod)
    ensures Between(o, mid) && Selects(mid, includeFailed, p) <==>
              BelongsThrough(o, mid, p) && Returned(p, includeFailed)
  {
    hide Matches, Selects, BelongsDirectly, Returned;
    SelectsIsExact(mid, includeFailed, p);
    if o.selector.Some? {
      MatchesIsInclusion(o.selector.value, mid.labels);
    }
  }

  /** A pod that belongs to an object is returned or not by its phase and whether it is terminating. */
  lemma PodOfIsExact(s: Store, o: Obj, includeFailed: bool, p: Pod)
    requires HasPods(o.kind)
    ensures PodOf(s, o, includeFailed, p) <==> Belongs(s, o, p) && Returned(p, includeFailed)
  {
    hide Matches, Selects, BelongsDirectly, BelongsThrough, Between;
    SelectsIsExact(o, includeFailed, p);
    forall mid: Obj
      ensures Between(o, mid) && Selects(mid, includeFailed, p) <==>
                BelongsThrough(o, mid, p) && Returned(p, includeFailed)
    {
      BetweenIsExact(o, mid, includeFailed, p);
    }
    if o.selector.Some? {
      MatchesIsInclusion(o.selector.value, p.labels);
    }
  }

  method PodsOwnedBy(s: Store, o: Obj, includeFailed: bool) returns (pods: seq<Pod>)
    ensures forall p :: p in pods <==> p in s.pods && Selects(o, includeFailed, p)
    ensures Distinct(s.pods) ==> Distinct(pods)
  {
    pods := [];
    for i := 0 to |s.pods|
      invariant Distinct(s.pods) ==> Distinct(pods)
      invariant forall p :: p in pods <==> p in s.pods[..i] && Selects(o, includeFailed, p)
    {
      var pod := s.pods[i];
      if pod.ns == o.ns && o.selector.Some? && Matches(o.selector.value, pod.labels) && Live(pod, includeFailed) {
        var owner := IsOwner(o.uid, pod.owners);
        if o.uid == "" || owner {
          if Distinct(s.pods) {
            DistinctFromPrefix(s.pods, i);
            DistinctTogether(pods, [pod]);
          }
          pods := pods + [pod];
        }
      }
    }
    assert s.pods[..|s.pods|] == s.pods;
  }

  /** Different ReplicaSets or Jobs of a single-owner cluster have different pods. */
  lemma PodsOfDifferentOwners(s: Store, o: Obj, i: nat, before: seq<Pod>, more: seq<Pod>, includeFailed: bool)
    requires WellFormed(s) && Distinct(s.objects) && i < |s.objects|
    requires Between(o, s.objects[i])
    requires forall p :: p in more ==> p in s.pods && Selects(s.objects[i], includeFailed, p)
    requires forall p :: p in before ==>
      p in s.pods && exists mid :: mid in s.objects[..i] && Between(o, mid) && Selects(mid, includeFailed, p)
    ensures forall p :: p in before ==> p !in more
  {
    hide Selects, Between;
    forall p | p in before ensures p !in more {
      if p in more {
        var mid :| mid in s.objects[..i] && Between(o, mid) && Selects(mid, includeFailed, p);
        SameParent(s, o, mid, s.objects[i], p, includeFailed);
        DistinctFromPrefix(s.objects, i);
        assert false;
      }
    }
  }

  lemma SameParent(s: Store, o: Obj, mid: Obj, other: Obj, p: Pod, includeFailed: bool)
    requires WellFormed(s) && mid in s.objects && other in s.objects && p in s.pods
    requires Between(o, mid) && Between(o, other)
    requires Selects(mid, includeFailed, p) && Selects(other, includeFailed, p)
    ensures mid == other
  {
    hide Selects;
    DirectlyOwned(s, mid, p, includeFailed);
    DirectlyOwned(s, other, p, includeFailed);
  }

  /** Kinds without a case are an error, and so is a pod that is not there. */
  method GetPodsFor(s: Store, o: Obj, includeFailed: bool) returns (r: Option<seq<Pod>>)
    ensures r.Some? <==> || o.kind in {CRON_JOB, DEPLOYMENT, NAMESPACE, SERVICE} || Direct(o.kind)
                         || (o.kind == POD && exists p :: p in s.pods && p.ns == o.ns && p.name == o.name)
    ensures r.Some? ==> forall p :: p in r.value <==> PodOf(s, o, includeFailed, p)
    ensures r.Some? ==> forall p :: p in r.value <==> Belongs(s, o, p) && Returned(p, includeFailed)
    ensures r.Some? && WellFormed(s) && Distinct(s.pods) && Distinct(s.objects) ==> Distinct(r.value)
  {
    hide Selects, Matches, Live, WellFormed, Belongs, Returned, Distinct;
    forall p: Pod | HasPods(o.kind)
      ensures PodOf(s, o, includeFailed, p) <==> Belongs(s, o, p) && Returned(p, includeFailed)
    {
      PodOfIsExact(s, o, includeFailed, p);
    }
    if o.kind == CRON_JOB || o.kind == DEPLOYMENT {
      var pods: seq<Pod> := [];
      DistinctWhenShort(pods);
      for i := 0 to |s.objects|
        invariant WellFormed(s) && Distinct(s.pods) && Distinct(s.objects) ==> Distinct(pods)
        invariant forall p :: p in pods <==>
          p in s.pods && exists mid :: mid in s.objects[..i] && Between(o, mid) && Selects(mid, includeFailed, p)
      {
        assert s.objects[..i + 1] == s.objects[..i] + [s.objects[i]];
        var mid := s.objects[i];
        var owner := IsOwner(o.uid, mid.owners);
        var candidate := if o.kind == CRON_JOB then mid.kind == JOB
                         else mid.kind == REPLICA_SET && o.selector.Some? && Matches(o.selector.value, mid.labels);
        if mid.ns == o.ns && candidate && owner {
          var more := PodsOwnedBy(s, mid, includeFailed);
          if WellFormed(s) && Distinct(s.pods) && Distinct(s.objects) {
            PodsOfDifferentOwners(s, o, i, pods, more, includeFailed);
            DistinctTogether(pods, more);
          }
          pods := pods + more;
        }
      }
      assert s.objects[..|s.objects|] == s.objects;
      return Some(pods);
    }
    if Direct(o.kind) {
      var pods := PodsOwnedBy(s, o, includeFailed);
      return Some(pods);
    }
    if o.kind == POD {
      var pod := FindPod(s.pods, o.ns, o.name);
      if pod.None? {
        return None;
      }
      var pods := if Live(pod.value, includeFailed) then [pod.value] else [];
      DistinctWhenShort(pods);
      return Some(pods);
    }
    if o.kind != NAMESPACE && o.kind != SERVICE {
      return None;
    }
    var pods: seq<Pod> := [];
    DistinctWhenShort(pods);
    if o.kind == SERVICE && o.external {
      return Some(pods);
    }
    for i := 0 to |s.pods|
      invariant Distinct(s.pods) ==> Distinct(pods)
      invariant forall p :: p in pods <==> p in s.pods[..i] && PodOf(s, o, includeFailed, p)
    {
      assert s.pods[i] in s.pods;
      var pod := s.pods[i];
      var selected := if o.kind == NAMESPACE then pod.ns == o.name
                      else pod.ns == o.ns && o.selector.Some? && Matches(o.selector.value, pod.labels);
      if selected && Live(pod, includeFailed) {
        if Distinct(s.pods) {
          DistinctFromPrefix(s.pods, i);
          DistinctWhenShort([pod]);
          DistinctTogether(pods, [pod]);
        }
        pods := pods + [pod];
      }
    }
    assert s.pods[..|s.pods|] == s.pods;
    return Some(pods);
  }

  /* ---------- from a pod to its owner ---------- */

  predicate ValidParent(owners: seq<Ref>) {
    |owners| == 1 && Lower(owners[0].kind) in {"job", "statefulset", "daemonset", "deployment"}
  }

  method IsValidRSParent(rs: Obj) returns (r: bool)
    ensures r <==> ValidParent(rs.owners)
  {
    if |rs.owners| != 1 {
      return false;
    }
    var kinds := ["job", "statefulset", "daemonset", "deployment"];
    var kind := Lower(rs.owners[0].kind);
    for i := 0 to |kinds|
      invariant kind !in kinds[..i]
    {
      if kind == kinds[i] {
        return true;
      }
    }
    assert kinds[..4] == kinds;
    assert forall k :: k in {"job", "statefulset", "daemonset", "deployment"} ==> k in kinds;
    return false;
  }

  /** Where a lookup looks: the cache, then, with retry, the API server unless it cannot be reached. */
  function Lookup(cache: Store, server: Store, reachable: bool, retry: bool, kind: string, ns: string,
                  name: string): Option<Obj> {
    var cached := Find(cache.objects, kind, ns, name);
    if cached.Some? || !retry || !reachable then cached else Find(server.objects, kind, ns, name)
  }

  /** The owner that a pod resolves to: kind and name. */
  function OwnerOf(cache: Store, server: Store, reachable: bool, pod: Pod, retry: bool): (string, string) {
    if |pod.owners| != 1 then ("pod", pod.name)
    else
      var parent := pod.owners[0];
      var direct := (Lower(parent.kind), parent.name);
      if parent.kind != JOB && parent.kind != REPLICA_SET then direct
      else
        var found := Lookup(cache, server, reachable, retry, parent.kind, pod.ns, parent.name);
        if found.None? || |found.value.owners| != 1
           || (parent.kind == REPLICA_SET && !ValidParent(found.value.owners)) then direct
        else (Lower(found.value.owners[0].kind), found.value.owners[0].name)
  }

  /** A pod with one owner resolves to it, unless that is a Job with one owner itself, or a ReplicaSet whose one owner
      is a Job, a StatefulSet, a DaemonSet or a Deployment: then it resolves to that one. */
  lemma OwnerIsExact(cache: Store, server: Store, reachable: bool, pod: Pod, retry: bool)
    ensures var r, asks := OwnerOf(cache, server, reachable, pod, retry), retry && reachable;
            if |pod.owners| != 1 then r == ("pod", pod.name)
            else if exists o :: Climbs(cache, server, asks, pod, o) then
              exists o :: Climbs(cache, server, asks, pod, o) && r == (Lower(o.owners[0].kind), o.owners[0].name)
            else r == (Lower(pod.owners[0].kind), pod.owners[0].name)
  {
    hide Lower, Find;
    if |pod.owners| == 1 {
      var parent := pod.owners[0];
      var found := Lookup(cache, server, reachable, retry, parent.kind, pod.ns, parent.name);
      if found.Some? {
        assert Climbs(cache, server, retry && reachable, pod, found.value) <==>
                 |found.value.owners| == 1
                 && (parent.kind == JOB || (parent.kind == REPLICA_SET && ValidParent(found.value.owners)));
      }
    }
  }

  /** The object is the pod's one owner, as the cache or, failing that, the server has it, and is not the last. */
  ghost predicate Climbs(cache: Store, server: Store, asks: bool, pod: Pod, o: Obj)
    requires |pod.owners| == 1
  {
    var parent := pod.owners[0];
    var cached := Find(cache.objects, parent.kind, pod.ns, parent.name);
    && (if cached.Some? then cached.value == o
        else asks && Find(server.objects, parent.kind, pod.ns, parent.name) == Some(o))
    && |o.owners| == 1
    && (parent.kind == JOB ||
        (parent.kind == REPLICA_SET
         && var kind := Lower(o.owners[0].kind);
            kind == "job" || kind == "statefulset" || kind == "daemonset" || kind == "deployment"))
  }

  /** The API version. Inside its ReplicaSet case `err` is a new variable, so the one looked at in the end
      stays nil there. */
  method ApiGetOwnerKindAndName(cache: Store, server: Store, reachable: bool, pod: Pod, retry: bool)
    returns (kind: string, name: string)
    ensures (kind, name) == OwnerOf(cache, server, reachable, pod, retry)
  {
    hide Find;
    if |pod.owners| == 0 {
      return "pod", pod.name;
    } else if |pod.owners| > 1 {
      return "pod", pod.name;
    }
    var parent := pod.owners[0];
    var parentObj: Option<Obj> := None;
    var failed := false;
    if parent.kind == JOB {
      parentObj := Find(cache.objects, JOB, pod.ns, parent.name);
      failed := parentObj.None?;
      if failed && retry && reachable {
        parentObj := Find(server.objects, JOB, pod.ns, parent.name);
        failed := parentObj.None?;
      }
    } else if parent.kind == REPLICA_SET {
      var rs := Find(cache.objects, REPLICA_SET, pod.ns, parent.name);
      if rs.None? && retry && reachable {
        rs := Find(server.objects, REPLICA_SET, pod.ns, parent.name);
      }
      if rs.None? {
        return Lower(parent.kind), parent.name;
      }
      var valid := IsValidRSParent(rs.value);
      if !valid {
        return Lower(parent.kind), parent.name;
      }
      parentObj := rs;
    } else {
      return Lower(parent.kind), parent.name;
    }
    if !failed && |parentObj.value.owners| == 1 {
      var grandParent := parentObj.value.owners[0];
      return Lower(grandParent.kind), grandParent.name;
    }
    return Lower(parent.kind), parent.name;
  }

  /** The metadata version: one `err` throughout. */
  method MetadataGetOwnerKindAndName(cache: Store, server: Store, reachable: bool, pod: Pod, retry: bool)
    returns (kind: string, name: string)
    ensures (kind, name) == OwnerOf(cache, server, reachable, pod, retry)
  {
    hide Find;
    if |pod.owners| != 1 {
      return "pod", pod.name;
    }
    var parent := pod.owners[0];
    if parent.kind != JOB && parent.kind != REPLICA_SET {
      return Lower(parent.kind), parent.name;
    }
    var parentObj := Find(cache.objects, parent.kind, pod.ns, parent.name);
    var err := parentObj.None?;
    if err && retry && reachable {
      parentObj := Find(server.objects, parent.kind, pod.ns, parent.name);
      err := parentObj.None?;
    }
    if parent.kind == REPLICA_SET {
      if parentObj.None? {
        return Lower(parent.kind), parent.name;
      }
      var valid := IsValidRSParent(parentObj.value);
      if !valid {
        return Lower(parent.kind), parent.name;
      }
    }
    if !err && |parentObj.value.owners| == 1 {
      return Lower(parentObj.value.owners[0].kind), parentObj.value.owners[0].name;
    }
    return Lower(parent.kind), parent.name;
  }

  /* ---------- the two directions agree ---------- */

  /** Kind, namespace and name identify an object, UIDs are present and a reference with an object's UID
      names that object; nothing has two owners. */
  ghost predicate WellFormed(s: Store) {
    && (forall a, b :: a in s.objects && b in s.objects && a.kind == b.kind && a.ns == b.ns && a.name == b.name ==>
          a == b)
    && (forall o :: o in s.objects ==> o.uid != "" && |o.owners| <= 1)
    && (forall p :: p in s.pods ==> |p.owners| <= 1)
    && (forall o, mid, i :: o in s.objects && mid in s.objects && 0 <= i < |mid.owners| ==>
          NamesItsUid(mid.owners[i], o))
    && (forall o, p, i :: o in s.objects && p in s.pods && 0 <= i < |p.owners| ==> NamesItsUid(p.owners[i], o))
  }

  predicate NamesItsUid(r: Ref, o: Obj) {
    r.uid == o.uid ==> r.kind == o.kind && r.name == o.name
  }

  ghost predicate CachedFrom(cache: Store, server: Store) {
    (forall o :: o in cache.objects ==> o in server.objects) && (forall p :: p in cache.pods ==> p in server.pods)
  }

  /** With retry, any part of the server's contents serves as a cache. */
  lemma RetryHidesTheCache(cache: Store, server: Store, pod: Pod)
    requires WellFormed(server) && CachedFrom(cache, server)
    ensures OwnerOf(cache, server, true, pod, true) == OwnerOf(server, server, true, pod, true)
  {
    hide Find, Lower, ValidParent, NamesItsUid;
    if |pod.owners| == 1 {
      var parent := pod.owners[0];
      var cached := Find(cache.objects, parent.kind, pod.ns, parent.name);
      var stored := Find(server.objects, parent.kind, pod.ns, parent.name);
      if cached.Some? {
        assert stored.Some?;
        assert cached.value == stored.value;
      }
    }
  }

  predicate OwnsThroughOthers(kind: string) {
    kind == CRON_JOB || kind == DEPLOYMENT
  }

  predicate Resolvable(kind: string) {
    OwnsThroughOthers(kind) || kind in {DAEMON_SET, STATEFUL_SET, REPLICATION_CONTROLLER}
  }

  lemma SoleOwner(s: Store, o: Obj, owners: seq<Ref>)
    requires WellFormed(s) && o in s.objects && |owners| <= 1 && Owned(o.uid, owners)
    requires forall i :: 0 <= i < |owners| ==> NamesItsUid(owners[i], o)
    ensures |owners| == 1 && owners[0].kind == o.kind && owners[0].name == o.name
  {
  }

  lemma DirectlyOwned(s: Store, w: Obj, p: Pod, includeFailed: bool)
    requires WellFormed(s) && w in s.objects && p in s.pods && Selects(w, includeFailed, p)
    ensures |p.owners| == 1 && p.owners[0].kind == w.kind && p.owners[0].name == w.name && p.ns == w.ns
  {
    hide Owned;
    SoleOwner(s, w, p.owners);
  }

  /** Every pod that GetPodsFor associates with a Deployment, CronJob, DaemonSet, StatefulSet or
      ReplicationController resolves back to exactly that object, in its namespace. */
  lemma LookupsAgree(server: Store, w: Obj, p: Pod, includeFailed: bool)
    requires WellFormed(server) && w in server.objects && Resolvable(w.kind) && PodOf(server, w, includeFailed, p)
    ensures OwnerOf(server, server, true, p, true) == (Lower(w.kind), w.name) && p.ns == w.ns
  {
    hide Lower, Selects, Find;
    if OwnsThroughOthers(w.kind) {
      var mid :| mid in server.objects && Between(w, mid) && Selects(mid, includeFailed, p);
      DirectlyOwned(server, mid, p, includeFailed);
      SoleOwner(server, w, mid.owners);
      KindsInLower();
      var found := Find(server.objects, mid.kind, mid.ns, mid.name);
      assert found.Some?;
      assert found.value == mid;
    } else {
      DirectlyOwned(server, w, p, includeFailed);
    }
  }

  /** The same through any cache, for the pods the cache knows and with retry on. */
  lemma CachedLookupsAgree(cache: Store, server: Store, w: Obj, p: Pod, includeFailed: bool)
    requires WellFormed(server) && CachedFrom(cache, server)
    requires w in server.objects && Resolvable(w.kind) && PodOf(cache, w, includeFailed, p)
    ensures OwnerOf(cache, server, true, p, true) == (Lower(w.kind), w.name) && p.ns == w.ns
  {
    hide WellFormed, OwnerOf, Selects, Between, Lower;
    assert PodOf(server, w, includeFailed, p) by {
      if OwnsThroughOthers(w.kind) {
        var mid :| mid in cache.objects && Between(w, mid) && Selects(mid, includeFailed, p);
        assert mid in server.objects;
      }
    }
    LookupsAgree(server, w, p, includeFailed);
    RetryHidesTheCache(cache, server, p);
  }

  /** No other resolvable object of the cluster claims the pod. */
  lemma OwnerIsUnique(server: Store, v: Obj, w: Obj, p: Pod, includeFailed: bool)
    requires WellFormed(server) && v in server.objects && w in server.objects && Resolvable(v.kind)
    requires Resolvable(w.kind)
    requires PodOf(server, v, includeFailed, p) && PodOf(server, w, includeFailed, p)
    ensures v == w
  {
    hide PodOf, OwnerOf;
    LookupsAgree(server, v, p, includeFailed);
    LookupsAgree(server, w, p, includeFailed);
    KindsDifferInLower(v.kind, w.kind);
  }

  lemma KindsDifferInLower(a: string, b: string)
    requires Resolvable(a) && Resolvable(b) && Lower(a) == Lower(b)
    ensures a == b
  {
    hide Lower;
    KindsInLower();
    NamesInLowerDiffer();
  }

  lemma KindsInLower()
    ensures Lower(CRON_JOB) == "cronjob" && Lower(DEPLOYMENT) == "deployment" && Lower(DAEMON_SET) == "daemonset"
    ensures Lower(STATEFUL_SET) == "statefulset" && Lower(REPLICATION_CONTROLLER) == "replicationcontroller"
    ensures Lower(JOB) == "job" && Lower(REPLICA_SET) == "replicaset"
  {
  }

  lemma NamesInLowerDiffer()
    ensures "cronjob" != "deployment" && "cronjob" != "daemonset" && "cronjob" != "statefulset"
    ensures "cronjob" != "replicationcontroller" && "deployment" != "daemonset" && "deployment" != "statefulset"
    ensures "deployment" != "replicationcontroller" && "daemonset" != "statefulset"
    ensures "daemonset" != "replicationcontroller" && "statefulset" != "replicationcontroller"
  {
    assert |"cronjob"| == 7 && |"deployment"| == 10 && |"daemonset"| == 9 && |"statefulset"| == 11;
    assert |"replicationcontroller"| == 21;
  }

  /** No resolvable kind reads like a pod, a Job or a ReplicaSet. */
  lemma ResolvableInLower(kind: string)
    requires Resolvable(kind)
    ensures Lower(kind) != "pod" && Lower(kind) != Lower(JOB) && Lower(kind) != Lower(REPLICA_SET)
  {
    hide Lower;
    KindsInLower();
    assert |"cronjob"| == 7 && |"deployment"| == 10 && |"daemonset"| == 9 && |"statefulset"| == 11;
    assert |"replicationcontroller"| == 21 && |"pod"| == 3 && |"job"| == 3 && |"replicaset"| == 10;
    assert "replicaset"[0] == 'r' && "deployment"[0] == 'd';
  }

  /* ---------- from the owner back to the pod ---------- */

  /** No reference is to an object that has since been replaced by another of its name. */
  ghost predicate NoStaleReference(s: Store) {
    && (forall o, mid, i :: o in s.objects && mid in s.objects && 0 <= i < |mid.owners| && mid.ns == o.ns ==>
          CarriesItsUid(mid.owners[i], o))
    && (forall o, p, i :: o in s.objects && p in s.pods && 0 <= i < |p.owners| && p.ns == o.ns ==>
          CarriesItsUid(p.owners[i], o))
  }

  predicate CarriesItsUid(r: Ref, o: Obj) {
    Lower(r.kind) == Lower(o.kind) && r.name == o.name ==> r.uid == o.uid
  }

  /** The way from a pod to a workload is the usual one, and the selectors on it match: a CronJob's Job, a
      Deployment's ReplicaSet, and nothing in between for the others. */
  ghost predicate SelectedOnTheWay(s: Store, w: Obj, p: Pod) {
    |p.owners| == 1 &&
    if OwnsThroughOthers(w.kind) then
      var kind := if w.kind == CRON_JOB then JOB else REPLICA_SET;
      var mid := Find(s.objects, kind, p.ns, p.owners[0].name);
      && p.owners[0].kind == kind && mid.Some?
      && mid.value.selector.Some? && mid.value.selector.value.Items <= p.labels.Items
      && (w.kind == DEPLOYMENT ==> w.selector.Some? && w.selector.value.Items <= mid.value.labels.Items)
    else
      && p.owners[0].kind != JOB && p.owners[0].kind != REPLICA_SET
      && w.selector.Some? && w.selector.value.Items <= p.labels.Items
  }

  lemma SoleOwnerBelongs(s: Store, o: Obj, p: Pod)
    requires WellFormed(s) && NoStaleReference(s) && o in s.objects && p in s.pods && p.ns == o.ns && |p.owners| == 1
    requires Lower(p.owners[0].kind) == Lower(o.kind) && p.owners[0].name == o.name
    requires o.selector.Some? && o.selector.value.Items <= p.labels.Items
    ensures BelongsDirectly(o, p) && p.owners[0].kind == o.kind
  {
    hide Lower;
    assert CarriesItsUid(p.owners[0], o) && NamesItsUid(p.owners[0], o);
    assert p.owners[0] in p.owners;
  }

  lemma ResolvedBelongs(s: Store, w: Obj, p: Pod)
    requires WellFormed(s) && NoStaleReference(s) && w in s.objects && p in s.pods && Resolvable(w.kind)
    requires OwnerOf(s, s, true, p, true) == (Lower(w.kind), w.name) && p.ns == w.ns && SelectedOnTheWay(s, w, p)
    ensures Belongs(s, w, p)
  {
    hide Lower, Find, WellFormed, NoStaleReference, ValidParent, BelongsDirectly;
    ResolvableInLower(w.kind);
    if OwnsThroughOthers(w.kind) {
      var mid := Find(s.objects, p.owners[0].kind, p.ns, p.owners[0].name).value;
      SoleOwnerBelongs(s, mid, p);
      assert |mid.owners| == 1 && Lower(mid.owners[0].kind) == Lower(w.kind) && mid.owners[0].name == w.name;
      SoleOwnerCarries(s, w, mid);
      assert mid.owners[0] in mid.owners;
      assert BelongsThrough(w, mid, p);
    } else {
      SoleOwnerBelongs(s, w, p);
    }
  }

  lemma SoleOwnerCarries(s: Store, w: Obj, mid: Obj)
    requires NoStaleReference(s) && w in s.objects && mid in s.objects && mid.ns == w.ns && |mid.owners| == 1
    requires Lower(mid.owners[0].kind) == Lower(w.kind) && mid.owners[0].name == w.name
    ensures mid.owners[0].uid == w.uid
  {
    hide Lower;
    assert CarriesItsUid(mid.owners[0], w);
  }

  lemma BelongingIsOnTheWay(s: Store, w: Obj, p: Pod)
    requires WellFormed(s) && w in s.objects && p in s.pods && Resolvable(w.kind) && Belongs(s, w, p)
    ensures SelectedOnTheWay(s, w, p)
  {
    hide Find, NamesItsUid;
    if OwnsThroughOthers(w.kind) {
      var mid :| mid in s.objects && BelongsThrough(w, mid, p);
      NamedByOwner(s, mid, p);
      var found := Find(s.objects, mid.kind, mid.ns, mid.name);
      assert found.Some?;
      assert found.value == mid;
    } else {
      NamedByOwner(s, w, p);
    }
  }

  lemma NamedByOwner(s: Store, o: Obj, p: Pod)
    requires WellFormed(s) && o in s.objects && p in s.pods && BelongsDirectly(o, p)
    ensures |p.owners| == 1 && p.owners[0].kind == o.kind && p.owners[0].name == o.name && p.ns == o.ns
  {
    var r :| r in p.owners && r.uid == o.uid;
    assert r == p.owners[0];
    assert NamesItsUid(p.owners[0], o);
  }

  /** In a cluster without stale references, a workload's pods are exactly those that resolve to it on the usual way,
      match the selectors on that way, and are not over. */
  lemma LookupsAreInverse(s: Store, w: Obj, p: Pod, includeFailed: bool)
    requires WellFormed(s) && NoStaleReference(s) && w in s.objects && p in s.pods && Resolvable(w.kind)
    ensures PodOf(s, w, includeFailed, p) <==>
              && OwnerOf(s, s, true, p, true) == (Lower(w.kind), w.name) && p.ns == w.ns
              && SelectedOnTheWay(s, w, p) && Returned(p, includeFailed)
  {
    hide PodOf, OwnerOf, SelectedOnTheWay, Returned, Belongs, WellFormed, NoStaleReference, Lower;
    PodOfIsExact(s, w, includeFailed, p);
    if PodOf(s, w, includeFailed, p) {
      LookupsAgree(s, w, p, includeFailed);
      BelongingIsOnTheWay(s, w, p);
    } else if OwnerOf(s, s, true, p, true) == (Lower(w.kind), w.name) && p.ns == w.ns && SelectedOnTheWay(s, w, p) {
      ResolvedBelongs(s, w, p);
    }
  }

  /** A running pod that a Deployment owns without a ReplicaSet in between resolves to it, and is not among its pods. */
  lemma DirectPodIsMissed() returns (s: Store, w: Obj, p: Pod)
    ensures WellFormed(s) && NoStaleReference(s) && w in s.objects && p in s.pods && w.kind == DEPLOYMENT
    ensures OwnerOf(s, s, true, p, true) == (Lower(w.kind), w.name) && p.ns == w.ns && Returned(p, false)
    ensures forall includeFailed :: !PodOf(s, w, includeFailed, p)
  {
    w := Obj(DEPLOYMENT, "ns", "web", "1", map[], Some(map[]), false, []);
    p := Pod("ns", "web-0", map[], [Ref(DEPLOYMENT, "web", "1")], Running, false);
    s := Store([w], [p]);
  }

  /** So does a pod of a DaemonSet that was deleted and made again, until the pod goes too. */
  lemma StalePodIsMissed() returns (s: Store, w: Obj, p: Pod)
    ensures WellFormed(s) && w in s.objects && p in s.pods && w.kind == DAEMON_SET
    ensures OwnerOf(s, s, true, p, true) == (Lower(w.kind), w.name) && p.ns == w.ns && Returned(p, false)
    ensures SelectedOnTheWay(s, w, p)
    ensures forall includeFailed :: !PodOf(s, w, includeFailed, p)
  {
    w := Obj(DAEMON_SET, "ns", "web", "2", map[], Some(map[]), false, []);
    p := Pod("ns", "web-0", map[], [Ref(DAEMON_SET, "web", "1")], Running, false);
    s := Store([w], [p]);
    assert "1"[0] != "2"[0];
  }
}
