/** The per-service status lists of a Link resource: lists in the API, maps in meaning. */
module StatusList {
  import opened Strings
  import opened Kubernetes

  datatype Condition = Condition(mirrored: bool, reason: string, localRef: Option<Key>)

  datatype Status = Status(remoteRef: Key, condition: Condition)

  const REASON_MIRRORED := "Mirrored"
  const REASON_INVALID_SERVICE := "InvalidService"
  const REASON_ERROR := "Error"
  const REASON_MISSING_NAMESPACE := "MissingNamespace"

  function Failure(reason: string): Condition {
    Condition(false, reason, None)
  }

  function Mirrored(local: Key): Condition {
    Condition(true, REASON_MIRRORED, Some(local))
  }

  /** At most one entry per (name, namespace). */
  predicate Unique(list: seq<Status>) {
    forall i, j :: 0 <= i < j < |list| ==> list[i].remoteRef != list[j].remoteRef
  }

  /** The list read as a map. */
  function AsMap(list: seq<Status>): map<Key, Condition> {
    if list == [] then map[]
    else
      var n := |list| - 1;
      AsMap(list[..n])[list[n].remoteRef := list[n].condition]
  }

  lemma {:induction false} AsMapDomain(list: seq<Status>, k: Key)
    ensures k in AsMap(list) <==> exists i :: 0 <= i < |list| && list[i].remoteRef == k
  {
    if list != [] {
      var n := |list| - 1;
      AsMapDomain(list[..n], k);
      assert forall i :: 0 <= i < n ==> list[..n][i] == list[i];
    }
  }

  function Replace(list: seq<Status>, k: Key, c: Condition): (r: seq<Status>)
    ensures |r| == |list|
  {
    seq(|list|, i requires 0 <= i < |list| => if list[i].remoteRef == k then list[i].(condition := c) else list[i])
  }

  function Update(list: seq<Status>, k: Key, c: Condition): seq<Status> {
    var replaced := Replace(list, k, c);
    if exists i :: 0 <= i < |list| && list[i].remoteRef == k then replaced else replaced + [Status(k, c)]
  }

  method UpdateServiceStatus(list: seq<Status>, k: Key, c: Condition) returns (out: seq<Status>)
    ensures out == Update(list, k, c)
  {
    var found := false;
    out := list;
    for i := 0 to |list|
      invariant |out| == |list|
      invariant forall j :: 0 <= j < i ==> out[j] == Replace(list, k, c)[j]
      invariant forall j :: i <= j < |list| ==> out[j] == list[j]
      invariant found <==> exists j :: 0 <= j < i && list[j].remoteRef == k
    {
      if list[i].remoteRef == k {
        found := true;
        out := out[i := out[i].(condition := c)];
      }
    }
    assert out == Replace(list, k, c);
    if !found {
      out := out + [Status(k, c)];
    }
  }

  function Delete(list: seq<Status>, k: Key): seq<Status> {
    if list == [] then []
    else
      var n := |list| - 1;
      Delete(list[..n], k) + if list[n].remoteRef == k then [] else [list[n]]
  }

  method DeleteServiceStatus(list: seq<Status>, k: Key) returns (out: seq<Status>)
    ensures out == Delete(list, k)
  {
    out := [];
    for i := 0 to |list|
      invariant out == Delete(list[..i], k)
    {
      assert list[..i + 1][..i] == list[..i];
      if list[i].remoteRef == k {
        continue;
      }
      out := out + [list[i]];
    }
    assert list[..|list|] == list;
  }

  lemma {:induction false} ReplaceRefines(list: seq<Status>, k: Key, c: Condition)
    ensures AsMap(Replace(list, k, c)) == if k in AsMap(list) then AsMap(list)[k := c] else AsMap(list)
  {
    if list != [] {
      var n := |list| - 1;
      ReplaceRefines(list[..n], k, c);
      assert Replace(list, k, c)[..n] == Replace(list[..n], k, c);
    }
  }

  /** updateServiceStatus is map update, and keeps one entry per key. */
  lemma UpdateRefines(list: seq<Status>, k: Key, c: Condition)
    ensures AsMap(Update(list, k, c)) == AsMap(list)[k := c]
    ensures Unique(list) ==> Unique(Update(list, k, c))
  {
    AsMapDomain(list, k);
    ReplaceRefines(list, k, c);
    var replaced := Replace(list, k, c);
    assert (replaced + [Status(k, c)])[..|list|] == replaced;
  }

  lemma {:induction false} DeleteMembers(list: seq<Status>, k: Key, i: nat)
    requires i < |Delete(list, k)|
    ensures Delete(list, k)[i].remoteRef != k
    ensures exists j :: 0 <= j < |list| && list[j] == Delete(list, k)[i]
  {
    var n := |list| - 1;
    if i < |Delete(list[..n], k)| {
      DeleteMembers(list[..n], k, i);
      var j :| 0 <= j < n && list[..n][j] == Delete(list[..n], k)[i];
      assert list[j] == Delete(list, k)[i];
    } else {
      assert list[n] == Delete(list, k)[i];
    }
  }

  lemma {:induction false} DeleteKeepsUnique(list: seq<Status>, k: Key)
    requires Unique(list)
    ensures Unique(Delete(list, k))
  {
    if list != [] {
      var n := |list| - 1;
      var front := Delete(list[..n], k);
      DeleteKeepsUnique(list[..n], k);
      forall i | 0 <= i < |front| ensures front[i].remoteRef != list[n].remoteRef {
        DeleteMembers(list[..n], k, i);
        var j :| 0 <= j < n && list[..n][j] == front[i];
        assert list[j].remoteRef != list[n].remoteRef;
      }
    }
  }

  lemma {:induction false} DeleteIsRemoval(list: seq<Status>, k: Key)
    ensures AsMap(Delete(list, k)) == AsMap(list) - {k}
  {
    if list != [] {
      var n := |list| - 1;
      var front := Delete(list[..n], k);
      DeleteIsRemoval(list[..n], k);
      if list[n].remoteRef != k {
        assert Delete(list, k) == front + [list[n]];
        assert (front + [list[n]])[..|front|] == front;
      } else {
        assert Delete(list, k) == front;
      }
    }
  }

  /** deleteServiceStatus is map removal, and keeps one entry per key. */
  lemma DeleteRefines(list: seq<Status>, k: Key)
    ensures AsMap(Delete(list, k)) == AsMap(list) - {k}
    ensures Unique(list) ==> Unique(Delete(list, k))
  {
    DeleteIsRemoval(list, k);
    if Unique(list) { DeleteKeepsUnique(list, k); }
  }

  /** Entries keep their places: an update replaces its own or goes last, a deletion closes the gap. */
  lemma PlacesAreKept(list: seq<Status>, k: Key, c: Condition, more: seq<Status>)
    ensures var r := Update(list, k, c);
            && (forall i :: 0 <= i < |list| ==> r[i] == if list[i].remoteRef == k then Status(k, c) else list[i])
            && (r == r[..|list|] || r == r[..|list|] + [Status(k, c)])
    ensures Delete(list + more, k) == Delete(list, k) + Delete(more, k)
    ensures |list| == 1 ==> Delete(list, k) == if list[0].remoteRef == k then [] else list
  {
    DeleteOfConcat(list, more, k);
    hide Delete;
    if |list| == 1 {
      DeleteOfOne(list, k);
    }
  }

  lemma DeleteOfOne(list: seq<Status>, k: Key)
    requires |list| == 1
    ensures Delete(list, k) == if list[0].remoteRef == k then [] else list
  {
    assert Delete(list[..0], k) == [];
  }

  lemma {:induction false} DeleteOfConcat(list: seq<Status>, more: seq<Status>, k: Key)
    ensures Delete(list + more, k) == Delete(list, k) + Delete(more, k)
    decreases |more|
  {
    if more == [] {
      assert list + more == list;
    } else {
      var n := |more| - 1;
      DeleteOfConcat(list, more[..n], k);
      assert (list + more)[..|list| + n] == list + more[..n];
    }
  }

  datatype StatusOp = SetStatus(key: Key, condition: Condition) | EraseStatus(key: Key)

  function RunList(list: seq<Status>, ops: seq<StatusOp>): seq<Status>
    decreases |ops|
  {
    if ops == [] then list
    else
      match ops[0]
      case SetStatus(k, c) => RunList(Update(list, k, c), ops[1..])
      case EraseStatus(k) => RunList(Delete(list, k), ops[1..])
  }

  function RunMap(m: map<Key, Condition>, ops: seq<StatusOp>): map<Key, Condition>
    decreases |ops|
  {
    if ops == [] then m
    else
      match ops[0]
      case SetStatus(k, c) => RunMap(m[k := c], ops[1..])
      case EraseStatus(k) => RunMap(m - {k}, ops[1..])
  }

  /** Under any sequence of updates and deletes the list is a map with one entry per key. */
  lemma {:induction false} ListRefinesMap(list: seq<Status>, ops: seq<StatusOp>)
    requires Unique(list)
    ensures Unique(RunList(list, ops))
    ensures AsMap(RunList(list, ops)) == RunMap(AsMap(list), ops)
    decreases |ops|
  {
    if ops != [] {
      match ops[0]
      case SetStatus(k, c) =>
        UpdateRefines(list, k, c);
        ListRefinesMap(Update(list, k, c), ops[1..]);
      case EraseStatus(k) =>
        DeleteRefines(list, k);
        ListRefinesMap(Delete(list, k), ops[1..]);
    }
  }
}
