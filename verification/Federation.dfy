/** The discovery annotations of a federated service: one local service that lists the clusters behind it. */
module Federation {
  import opened Strings
  import opened Kubernetes
  import opened Mirror

  /* ---------- the annotation ---------- */

  function Target(name: string, cluster: string): string {
    name + "@" + cluster
  }

  /** Go map indexing: a missing annotation reads as "". */
  function Get(a: Labels, key: string): string {
    if key in a then a[key] else ""
  }

  method RemoteDiscoveryContains(list: string, target: string) returns (found: bool)
    ensures found <==> target in Split(list, ',')
  {
    var members := Split(list, ',');
    for i := 0 to |members|
      invariant target !in members[..i]
    {
      if members[i] == target {
        return true;
      }
    }
    return false;
  }

  function Without(s: seq<string>, x: string): seq<string> {
    if s == [] then []
    else
      var n := |s| - 1;
      Without(s[..n], x) + if s[n] == x then [] else [s[n]]
  }

  method RemoveMember(list: string, target: string) returns (out: string)
    ensures out == Join(Without(Split(list, ','), target), ',')
  {
    var members := Split(list, ',');
    var kept: seq<string> := [];
    for i := 0 to |members|
      invariant kept == Without(members[..i], target)
    {
      assert members[..i + 1][..i] == members[..i];
      if members[i] == target {
        continue;
      }
      kept := kept + [members[i]];
    }
    assert members[..|members|] == members;
    out := Join(kept, ',');
  }

  /** Annotations of a federated service created for its first member. */
  function CreatedAnnotations(cluster: string, name: string, remote: Labels): Labels {
    if cluster == "" then CommonAnnotations(remote)[LOCAL_DISCOVERY := name]
    else CommonAnnotations(remote)[REMOTE_DISCOVERY := Target(name, cluster)]
  }

  /** Annotations after a join; None when the member is already listed and nothing is written. */
  function JoinedAnnotations(cluster: string, name: string, a: Labels): Option<Labels> {
    if cluster == "" then Some(a[LOCAL_DISCOVERY := name])
    else
      var list := Get(a, REMOTE_DISCOVERY);
      var target := Target(name, cluster);
      if target in Split(list, ',') then None
      else if list == "" then Some(a[REMOTE_DISCOVERY := target])
      else Some(a[REMOTE_DISCOVERY := list + "," + target])
  }

  /** Annotations after a leave; None when the member is not listed and nothing is written. */
  function LeftAnnotations(cluster: string, name: string, a: Labels): Option<Labels> {
    if cluster == "" then Some(a - {LOCAL_DISCOVERY})
    else
      var list := Get(a, REMOTE_DISCOVERY);
      var target := Target(name, cluster);
      if target !in Split(list, ',') then None
      else Some(a[REMOTE_DISCOVERY := Join(Without(Split(list, ','), target), ',')])
  }

  predicate NoMembers(a: Labels) {
    Get(a, REMOTE_DISCOVERY) == "" && Get(a, LOCAL_DISCOVERY) == ""
  }
}
