/** Names, labels, annotations, ports and readiness of the objects that one link's watcher maintains. */
module Mirror {
  import opened Strings
  import opened Kubernetes

  datatype Link = Link(
    cluster: string,
    domain: string,
    gatewayAddress: string,
    gatewayPort: string,
    gatewayIdentity: string,
    probePort: string,
    selector: Option<Selector>,
    discoverySelector: Option<Selector>,
    federatedSelector: Option<Selector>)

  const SVC_MIRROR_PREFIX := "mirror.linkerd.io"
  const MULTICLUSTER_PREFIX := "multicluster.linkerd.io"
  const MIRRORED_RESOURCE := SVC_MIRROR_PREFIX + "/mirrored-service"
  const CLUSTER_NAME := SVC_MIRROR_PREFIX + "/cluster-name"
  const HEADLESS_NAME := SVC_MIRROR_PREFIX + "/headless-mirror-svc-name"
  const REMOTE_DISCOVERY := MULTICLUSTER_PREFIX + "/remote-discovery"
  const REMOTE_SERVICE := MULTICLUSTER_PREFIX + "/remote-service"
  const LOCAL_DISCOVERY := MULTICLUSTER_PREFIX + "/local-discovery"
  const REMOTE_VERSION := SVC_MIRROR_PREFIX + "/remote-resource-version"
  const REMOTE_FQ_NAME := SVC_MIRROR_PREFIX + "/remote-svc-fq-name"
  const GATEWAY_IDENTITY := SVC_MIRROR_PREFIX + "/remote-gateway-identity"
  const TOPOLOGY_HINTS := "service.kubernetes.io/topology-aware-hints"
  const TOPOLOGY_MODE := "service.kubernetes.io/topology-mode"

  lemma ReservedKeys()
    ensures MIRRORED_RESOURCE != CLUSTER_NAME && CLUSTER_NAME != HEADLESS_NAME && MIRRORED_RESOURCE != HEADLESS_NAME
    ensures REMOTE_DISCOVERY != REMOTE_SERVICE
    ensures HasPrefix(MIRRORED_RESOURCE, SVC_MIRROR_PREFIX) && HasPrefix(CLUSTER_NAME, SVC_MIRROR_PREFIX)
    ensures HasPrefix(HEADLESS_NAME, SVC_MIRROR_PREFIX)
    ensures !HasPrefix(REMOTE_DISCOVERY, SVC_MIRROR_PREFIX) && !HasPrefix(REMOTE_SERVICE, SVC_MIRROR_PREFIX)
  {
    assert MIRRORED_RESOURCE[18] == 'm' && CLUSTER_NAME[18] == 'c' && HEADLESS_NAME[18] == 'h';
    assert REMOTE_DISCOVERY[31] == 'd' && REMOTE_SERVICE[31] == 's';
    assert REMOTE_DISCOVERY[1] == 'u' && REMOTE_SERVICE[1] == 'u' && SVC_MIRROR_PREFIX[1] == 'i';
  }

  /* ---------- names ---------- */

  function MirrorName(link: Link, remoteName: string): string {
    remoteName + "-" + link.cluster
  }

  function FederatedName(remoteName: string): string {
    remoteName + "-federated"
  }

  function OriginalName(link: Link, mirrorName: string): string {
    TrimSuffix(mirrorName, "-" + link.cluster)
  }

  function MirrorKey(link: Link, k: Key): Key {
    Key(k.ns, MirrorName(link, k.name))
  }

  function FederatedKey(k: Key): Key {
    Key(k.ns, FederatedName(k.name))
  }

  function OriginalKey(link: Link, k: Key): Key {
    Key(k.ns, OriginalName(link, k.name))
  }

  function ProbeGatewayName(link: Link): string {
    "probe-gateway-" + link.cluster
  }

  /** originalResourceName and targetResourceName invert mirrorServiceName, for every name. */
  lemma OriginalInvertsMirror(link: Link, k: Key)
    ensures OriginalKey(link, MirrorKey(link, k)) == k
  {
    assert MirrorName(link, k.name) == k.name + ("-" + link.cluster);
    TrimOfAppend(k.name, "-" + link.cluster);
  }

  lemma MirrorKeyInjective(link: Link, j: Key, k: Key)
    ensures MirrorKey(link, j) == MirrorKey(link, k) ==> j == k
  {
    OriginalInvertsMirror(link, j);
    OriginalInvertsMirror(link, k);
  }

  /** The cluster names whose mirrors can be mistaken for federated services. */
  predicate FederatedLike(cluster: string) {
    cluster == "federated" || HasSuffix(cluster, "-federated")
  }

  /** A mirror name equals some federated name exactly when the cluster name is, or ends in, "-federated". */
  lemma MirrorMeetsFederated(link: Link)
    ensures FederatedLike(link.cluster) <==> exists x, y :: MirrorName(link, x) == FederatedName(y)
  {
    hide HasSuffix, MirrorName, FederatedName;
    if FederatedLike(link.cluster) {
      var x, y := MeetingNames(link);
    }
    forall x, y | MirrorName(link, x) == FederatedName(y) ensures FederatedLike(link.cluster) {
      MirrorMeetsFederatedAt(link, x, y);
    }
  }

  lemma MeetingNames(link: Link) returns (x: string, y: string)
    requires FederatedLike(link.cluster)
    ensures MirrorName(link, x) == FederatedName(y)
  {
    var c := link.cluster;
    x := "a";
    if c == "federated" {
      y := "a";
    } else {
      y := "a-" + c[..|c| - 10];
      assert c == c[..|c| - 10] + "-federated";
    }
  }

  lemma MirrorMeetsFederatedAt(link: Link, x: string, y: string)
    requires MirrorName(link, x) == FederatedName(y)
    ensures FederatedLike(link.cluster)
  {
    var c := link.cluster;
    var s := MirrorName(link, x);
    assert s[|s| - 10..] == "-federated";
    assert s[|x|] == '-';
    assert s[|x| + 1..] == c;
    if |c| == 9 {
      assert c == s[|s| - 9..] == "-federated"[1..];
    } else if |c| > 9 {
      assert c[|c| - 10..] == s[|s| - 10..];
    }
  }

  lemma MirrorAvoidsFederated(link: Link, j: Key, k: Key)
    requires !FederatedLike(link.cluster)
    ensures MirrorKey(link, j) != FederatedKey(k)
  {
    if MirrorName(link, j.name) == FederatedName(k.name) {
      MirrorMeetsFederatedAt(link, j.name, k.name);
    }
  }

  /* ---------- selectors ---------- */

  predicate IsExported(link: Link, labels: Labels) {
    Selects(link.selector, labels)
  }

  predicate IsRemoteDiscovery(link: Link, labels: Labels) {
    Selects(link.discoverySelector, labels)
  }

  predicate IsFederatedMember(link: Link, labels: Labels) {
    Selects(link.federatedSelector, labels)
  }

  /** The remote service should have a local mirror, in either mode. */
  predicate Desired(link: Link, labels: Labels) {
    IsExported(link, labels) || IsRemoteDiscovery(link, labels)
  }

  /** Each mode has its own selector. */
  lemma SelectorsDecide(link: Link, labels: Labels)
    ensures IsExported(link, labels) <==> Chosen(link.selector, labels)
    ensures IsRemoteDiscovery(link, labels) <==> Chosen(link.discoverySelector, labels)
    ensures IsFederatedMember(link, labels) <==> Chosen(link.federatedSelector, labels)
    ensures Desired(link, labels) <==> Chosen(link.selector, labels) || Chosen(link.discoverySelector, labels)
  {
    hide Selects, Chosen;
    SelectsIsExact(link.selector, labels);
    SelectsIsExact(link.discoverySelector, labels);
    SelectsIsExact(link.federatedSelector, labels);
  }

  /* ---------- labels and annotations ---------- */

  function CommonLabels(remote: Labels): Labels {
    map[MIRRORED_RESOURCE := "true"] + (map k | k in remote && !HasPrefix(k, SVC_MIRROR_PREFIX) :: remote[k])
  }

  method ComputeCommonLabels(remote: Labels) returns (labels: Labels)
    ensures labels == CommonLabels(remote)
  {
    ReservedKeys();
    labels := map[MIRRORED_RESOURCE := "true"];
    var remaining := remote.Keys;
    while remaining != {}
      invariant remaining <= remote.Keys
      invariant labels == map[MIRRORED_RESOURCE := "true"]
                          + (map k | k in remote && k !in remaining && !HasPrefix(k, SVC_MIRROR_PREFIX) :: remote[k])
      decreases remaining
    {
      var key :| key in remaining;
      remaining := remaining - {key};
      if !HasPrefix(key, SVC_MIRROR_PREFIX) {
        labels := labels[key := remote[key]];
      }
    }
  }

  function MirrorLabels(link: Link, k: Key, remote: Labels): Labels {
    var labels := CommonLabels(remote)[CLUSTER_NAME := link.cluster];
    if IsRemoteDiscovery(link, remote)
    then labels[REMOTE_DISCOVERY := link.cluster][REMOTE_SERVICE := k.name]
    else labels
  }

  function EndpointLabels(link: Link, remote: Labels): Labels {
    CommonLabels(remote)[CLUSTER_NAME := link.cluster]
  }

  function CommonAnnotations(remote: Labels): Labels {
    map k | k in remote && k != TOPOLOGY_HINTS && k != TOPOLOGY_MODE :: remote[k]
  }

  method ComputeCommonAnnotations(remote: Labels) returns (annotations: Labels)
    ensures annotations == CommonAnnotations(remote)
  {
    annotations := map[];
    var remaining := remote.Keys;
    while remaining != {}
      invariant remaining <= remote.Keys
      invariant annotations ==
                map k | k in remote && k !in remaining && k != TOPOLOGY_HINTS && k != TOPOLOGY_MODE :: remote[k]
      decreases remaining
    {
      var key :| key in remaining;
      remaining := remaining - {key};
      if key == TOPOLOGY_HINTS || key == TOPOLOGY_MODE {
        continue;
      }
      annotations := annotations[key := remote[key]];
    }
  }

  function FqName(link: Link, k: Key): string {
    k.name + "." + k.ns + ".svc." + link.domain
  }

  function MirrorAnnotations(link: Link, k: Key, remote: Service): Labels {
    CommonAnnotations(remote.annotations)
      [REMOTE_FQ_NAME := FqName(link, k)]
      [REMOTE_VERSION := FormatNat(remote.version)]
  }

  /** The labels that tie a local object to this link. */
  predicate OfLink(link: Link, labels: Labels) {
    MIRRORED_RESOURCE in labels && labels[MIRRORED_RESOURCE] == "true" &&
    CLUSTER_NAME in labels && labels[CLUSTER_NAME] == link.cluster
  }

  /** The link's services that answer under a cluster IP. The endpoints of its headless ones point at these. */
  predicate Fronts(link: Link, svc: Service) {
    OfLink(link, svc.labels) && !Headless(svc)
  }

  /** The services repairEndpoints does not skip. */
  predicate GatewayMirror(link: Link, svc: Service) {
    Fronts(link, svc) && REMOTE_DISCOVERY !in svc.labels
  }

  /** Some remote service could be mirrored by discovery. */
  ghost predicate Discoverable(link: Link) {
    exists labels :: IsRemoteDiscovery(link, labels)
  }

  /** An object is the link's by two label pairs. */
  lemma LinkLabels(link: Link, labels: Labels)
    ensures OfLink(link, labels) <==> {(MIRRORED_RESOURCE, "true"), (CLUSTER_NAME, link.cluster)} <= labels.Items
  {
    if OfLink(link, labels) {
      assert (MIRRORED_RESOURCE, "true") in labels.Items && (CLUSTER_NAME, link.cluster) in labels.Items;
    }
    if {(MIRRORED_RESOURCE, "true"), (CLUSTER_NAME, link.cluster)} <= labels.Items {
      assert (MIRRORED_RESOURCE, "true") in labels.Items && (CLUSTER_NAME, link.cluster) in labels.Items;
    }
  }

  lemma MirrorLabelFacts(link: Link, k: Key, remote: Labels)
    ensures OfLink(link, MirrorLabels(link, k, remote)) && OfLink(link, EndpointLabels(link, remote))
    ensures HEADLESS_NAME !in MirrorLabels(link, k, remote)
    ensures REMOTE_DISCOVERY in MirrorLabels(link, k, remote)
            <==> IsRemoteDiscovery(link, remote) || REMOTE_DISCOVERY in remote
  {
    ReservedKeys();
  }

  /** A federated service carries no cluster label, so it belongs to no link. */
  lemma FederatedOfNoLink(link: Link, remote: Labels)
    ensures !OfLink(link, CommonLabels(remote))
    ensures MIRRORED_RESOURCE in CommonLabels(remote)
  {
    ReservedKeys();
  }

  lemma RecordedVersion(link: Link, k: Key, remote: Service)
    ensures var a := MirrorAnnotations(link, k, remote);
            REMOTE_VERSION in a && a[REMOTE_VERSION] == FormatNat(remote.version)
  {
  }

  /* ---------- ports ---------- */

  function RemapPort(p: ServicePort): ServicePort {
    p.(nodePort := 0)
  }

  function RemapPorts(ports: seq<ServicePort>): seq<ServicePort> {
    seq(|ports|, i requires 0 <= i < |ports| => RemapPort(ports[i]))
  }

  method ComputeRemappedPorts(ports: seq<ServicePort>) returns (out: seq<ServicePort>)
    ensures out == RemapPorts(ports)
  {
    out := [];
    for i := 0 to |ports|
      invariant out == RemapPorts(ports)[..i]
    {
      var port := ports[i];
      out := out + [ServicePort(port.name, port.protocol, port.port, port.targetPort, 0)];
    }
  }

  /** Every service port keeps its name and protocol and is sent to the one gateway port. */
  function EndpointPorts(link: Link, ports: seq<ServicePort>): (r: Option<seq<EndpointPort>>)
  {
    match ParseInt(link.gatewayPort, HALF_32)
    case None => None
    case Some(gateway) =>
      Some(seq(|ports|, i requires 0 <= i < |ports| => EndpointPort(ports[i].name, ports[i].protocol, gateway)))
  }

  /** One entry per service port, in order, under that port's name and protocol and the one number. */
  predicate SentTo(number: int, ports: seq<ServicePort>, sent: seq<EndpointPort>) {
    |sent| == |ports| && forall i :: 0 <= i < |ports| ==>
      sent[i].name == ports[i].name && sent[i].protocol == ports[i].protocol && sent[i].port == number
  }

  /** The gateway port is written as an int32. */
  predicate HasGatewayPort(link: Link, number: int) {
    ParseInt(link.gatewayPort, 0x8000_0000) == Some(number)
  }

  /** There are endpoint ports exactly if the gateway port is an int32, and then they are all sent there. */
  lemma EndpointPortsAreExact(link: Link, ports: seq<ServicePort>)
    ensures EndpointPorts(link, ports).None? <==> forall number :: !HasGatewayPort(link, number)
    ensures forall number :: HasGatewayPort(link, number) ==>
              EndpointPorts(link, ports).Some? && SentTo(number, ports, EndpointPorts(link, ports).value)
  {
    hide ParseInt;
    if EndpointPorts(link, ports).Some? {
      assert HasGatewayPort(link, ParseInt(link.gatewayPort, HALF_32).value);
    }
  }

  method ComputeEndpointPorts(link: Link, ports: seq<ServicePort>) returns (r: Option<seq<EndpointPort>>)
    ensures r == EndpointPorts(link, ports)
    ensures match r
            case None => forall number :: !HasGatewayPort(link, number)
            case Some(sent) => exists number :: HasGatewayPort(link, number) && SentTo(number, ports, sent)
  {
    hide ParseInt;
    EndpointPortsAreExact(link, ports);
    var gateway := ParseInt(link.gatewayPort, HALF_32);
    if gateway.None? {
      return None;
    }
    var out: seq<EndpointPort> := [];
    for i := 0 to |ports|
      invariant out == EndpointPorts(link, ports).value[..i]
    {
      out := out + [EndpointPort(ports[i].name, ports[i].protocol, gateway.value)];
    }
    assert EndpointPorts(link, ports).value[..|ports|] == EndpointPorts(link, ports).value;
    assert HasGatewayPort(link, gateway.value);
    return Some(out);
  }

  /** Key by key, what a mirror takes from its remote service: labels except those under the mirror prefix,
      annotations except topology hints, ports without node ports; and what it adds: whose mirror it is, and
      which version of what. */
  lemma MirrorContents(link: Link, k: Key, remote: Service, key: string)
    ensures var labels := MirrorLabels(link, k, remote.labels); var discovery := IsRemoteDiscovery(link, remote.labels);
            if key == MIRRORED_RESOURCE then Lookup(labels, key) == Some("true")
            else if key == CLUSTER_NAME then Lookup(labels, key) == Some(link.cluster)
            else if key == REMOTE_DISCOVERY && discovery then Lookup(labels, key) == Some(link.cluster)
            else if key == REMOTE_SERVICE && discovery then Lookup(labels, key) == Some(k.name)
            else Lookup(labels, key) == if HasPrefix(key, SVC_MIRROR_PREFIX) then None else Lookup(remote.labels, key)
    ensures var labels := EndpointLabels(link, remote.labels);
            if key == MIRRORED_RESOURCE then Lookup(labels, key) == Some("true")
            else if key == CLUSTER_NAME then Lookup(labels, key) == Some(link.cluster)
            else Lookup(labels, key) == if HasPrefix(key, SVC_MIRROR_PREFIX) then None else Lookup(remote.labels, key)
    ensures var annotations := MirrorAnnotations(link, k, remote);
            if key == REMOTE_VERSION then Lookup(annotations, key) == Some(FormatNat(remote.version))
            else if key == REMOTE_FQ_NAME then
              Lookup(annotations, key) == Some(k.name + "." + k.ns + ".svc." + link.domain)
            else if key == TOPOLOGY_HINTS || key == TOPOLOGY_MODE then Lookup(annotations, key) == None
            else Lookup(annotations, key) == Lookup(remote.annotations, key)
    ensures var ports := RemapPorts(remote.ports);
            |ports| == |remote.ports| && forall i :: 0 <= i < |ports| ==>
              && ports[i].name == remote.ports[i].name && ports[i].protocol == remote.ports[i].protocol
              && ports[i].port == remote.ports[i].port && ports[i].targetPort == remote.ports[i].targetPort
              && ports[i].nodePort == 0
  {
    hide IsRemoteDiscovery, FormatNat, HasPrefix;
    ReservedKeys();
    AnnotationKeysDiffer();
  }

  function Lookup(m: Labels, key: string): Option<string> {
    if key in m then Some(m[key]) else None
  }

  lemma AnnotationKeysDiffer()
    ensures REMOTE_VERSION != REMOTE_FQ_NAME && REMOTE_VERSION != TOPOLOGY_HINTS && REMOTE_VERSION != TOPOLOGY_MODE
    ensures REMOTE_FQ_NAME != TOPOLOGY_HINTS && REMOTE_FQ_NAME != TOPOLOGY_MODE
  {
    assert REMOTE_VERSION[25] == 'r' && REMOTE_FQ_NAME[25] == 's';
    assert REMOTE_VERSION[0] == 'm' && REMOTE_FQ_NAME[0] == 'm' && TOPOLOGY_HINTS[0] == 's' && TOPOLOGY_MODE[0] == 's';
  }

  /* ---------- emptiness and readiness ---------- */

  method IsEmptyEndpoints(ep: Endpoints) returns (empty: bool)
    ensures empty <==> !HasReady(ep.subsets)
    ensures empty <==> forall s :: s in ep.subsets ==> s.addresses == []
  {
    for i := 0 to |ep.subsets|
      invariant forall j :: 0 <= j < i ==> |ep.subsets[j].addresses| == 0
    {
      if |ep.subsets[i].addresses| > 0 {
        return false;
      }
    }
    return true;
  }

  function Demote(s: Subset): Subset {
    Subset([], s.notReady + s.addresses, s.ports)
  }

  function Readiness(alive: bool, subsets: seq<Subset>): seq<Subset> {
    if alive then subsets
    else seq(|subsets|, i requires 0 <= i < |subsets| => Demote(subsets[i]))
  }

  method UpdateReadiness(alive: bool, subsets: seq<Subset>) returns (out: seq<Subset>)
    ensures out == Readiness(alive, subsets)
  {
    out := subsets;
    if !alive {
      for i := 0 to |out|
        invariant |out| == |subsets|
        invariant forall j :: 0 <= j < i ==> out[j] == Demote(subsets[j])
        invariant forall j :: i <= j < |out| ==> out[j] == subsets[j]
      {
        out := out[i := out[i].(notReady := out[i].notReady + out[i].addresses)];
        out := out[i := out[i].(addresses := [])];
      }
    }
  }

  function AllAddresses(s: Subset): multiset<Address> {
    multiset(s.addresses) + multiset(s.notReady)
  }

  /** updateReadiness loses and invents no address and no port; a dead gateway leaves nothing ready;
      doing it twice is doing it once. */
  lemma ReadinessLaws(alive: bool, subsets: seq<Subset>)
    ensures var r := Readiness(alive, subsets);
            && |r| == |subsets|
            && (forall i :: 0 <= i < |r| ==>
                  AllAddresses(r[i]) == AllAddresses(subsets[i]) && r[i].ports == subsets[i].ports)
            && (!alive ==> !HasReady(r))
            && (alive ==> r == subsets)
            && (!alive ==> forall i :: 0 <= i < |r| ==> subsets[i].notReady <= r[i].notReady)
            && (HasReady(r) <==> alive && HasReady(subsets))
            && Readiness(alive, r) == r
  {
    if !alive {
      var r := Readiness(alive, subsets);
      forall i | 0 <= i < |r| ensures AllAddresses(r[i]) == AllAddresses(subsets[i]) && Demote(r[i]) == r[i] {
        assert multiset(subsets[i].notReady + subsets[i].addresses)
            == multiset(subsets[i].notReady) + multiset(subsets[i].addresses);
      }
    }
  }

  /* ---------- gateway resolution ---------- */

  type Resolver = string -> Option<seq<string>>

  function GatherIPs(hosts: seq<string>, lookup: Resolver): seq<string> {
    if hosts == [] then []
    else
      var n := |hosts| - 1;
      GatherIPs(hosts[..n], lookup) + (match lookup(hosts[n]) case None => [] case Some(ips) => ips)
  }

  function ToAddress(ip: string): Address {
    Address(ip, "", None)
  }

  function ToAddresses(ips: seq<string>): seq<Address> {
    seq(|ips|, i requires 0 <= i < |ips| => ToAddress(ips[i]))
  }

  function ResolveGateway(link: Link, lookup: Resolver): (r: Option<seq<Address>>)
    ensures r.Some? ==> |r.value| > 0
  {
    var ips := GatherIPs(Split(link.gatewayAddress, ','), lookup);
    if ips == [] then None
    else
      assert |multiset(Sort(ips))| == |multiset(ips)|;
      Some(ToAddresses(Sort(ips)))
  }

  /** All addresses that DNS gives for the hosts. */
  function Answered(hosts: seq<string>, lookup: Resolver): multiset<string> {
    if hosts == [] then multiset{}
    else
      var own := if lookup(hosts[0]).Some? then multiset(lookup(hosts[0]).value) else multiset{};
      own + Answered(hosts[1..], lookup)
  }

  lemma {:induction false} AnsweredAppends(hosts: seq<string>, more: seq<string>, lookup: Resolver)
    ensures Answered(hosts + more, lookup) == Answered(hosts, lookup) + Answered(more, lookup)
  {
    if hosts == [] {
      assert hosts + more == more;
    } else {
      assert (hosts + more)[1..] == hosts[1..] + more;
      AnsweredAppends(hosts[1..], more, lookup);
    }
  }

  lemma {:induction false} GatheredIsAnswered(hosts: seq<string>, lookup: Resolver)
    ensures multiset(GatherIPs(hosts, lookup)) == Answered(hosts, lookup)
  {
    if hosts != [] {
      var n := |hosts| - 1;
      GatheredIsAnswered(hosts[..n], lookup);
      assert hosts == hosts[..n] + [hosts[n]];
      AnsweredAppends(hosts[..n], [hosts[n]], lookup);
      assert [hosts[n]][1..] == [];
    }
  }

  function IPs(addresses: seq<Address>): (ips: seq<string>)
    ensures |ips| == |addresses| && forall i :: 0 <= i < |addresses| ==> ips[i] == addresses[i].ip
  {
    seq(|addresses|, i requires 0 <= i < |addresses| => addresses[i].ip)
  }

  /** The addresses are those that DNS gives for the hosts of the link, sorted, and nothing but addresses. */
  ghost predicate Resolution(link: Link, lookup: Resolver, addresses: seq<Address>) {
    && multiset(IPs(addresses)) == Answered(Split(link.gatewayAddress, ','), lookup) && Sorted(IPs(addresses))
    && forall a :: a in addresses ==> a.hostname == "" && a.targetRef == None
  }

  /** Resolving fails exactly if no host has an address, and otherwise gives all of them in order. */
  lemma ResolveGatewayIsExact(link: Link, lookup: Resolver)
    ensures ResolveGateway(link, lookup).None? <==> Answered(Split(link.gatewayAddress, ','), lookup) == multiset{}
    ensures ResolveGateway(link, lookup).Some? ==> Resolution(link, lookup, ResolveGateway(link, lookup).value)
  {
    hide Split, Sort, Sorted, GatherIPs, Answered;
    var ips := GatherIPs(Split(link.gatewayAddress, ','), lookup);
    GatheredIsAnswered(Split(link.gatewayAddress, ','), lookup);
    assert ips == [] <==> multiset(ips) == multiset{} by { assert |multiset(ips)| == |ips|; }
    SortSorts(ips);
    assert IPs(ToAddresses(Sort(ips))) == Sort(ips);
  }

  method ResolveGatewayAddress(link: Link, lookup: Resolver) returns (r: Option<seq<Address>>)
    ensures r == ResolveGateway(link, lookup)
    ensures match r
            case None => Answered(Split(link.gatewayAddress, ','), lookup) == multiset{}
            case Some(addresses) => addresses != [] && Resolution(link, lookup, addresses)
  {
    hide Answered, Resolution, Sort, Split, ToAddresses;
    ResolveGatewayIsExact(link, lookup);
    var hosts := Split(link.gatewayAddress, ',');
    var ips: seq<string> := [];
    for i := 0 to |hosts|
      invariant ips == GatherIPs(hosts[..i], lookup)
    {
      assert hosts[..i + 1][..i] == hosts[..i];
      var answer := lookup(hosts[i]);
      if answer.None? {
        continue;
      }
      ips := ips + answer.value;
    }
    assert hosts[..|hosts|] == hosts;
    if ips == [] {
      return None;
    }
    return Some(ToAddresses(Sort(ips)));
  }

  /** Two sets of DNS answers that hold the same addresses, in whatever order and under whichever host,
      resolve to the identical list. */
  lemma ResolutionIgnoresOrder(link: Link, first: Resolver, second: Resolver)
    requires multiset(GatherIPs(Split(link.gatewayAddress, ','), first))
          == multiset(GatherIPs(Split(link.gatewayAddress, ','), second))
    ensures ResolveGateway(link, first) == ResolveGateway(link, second)
  {
    var hosts := Split(link.gatewayAddress, ',');
    var a, b := GatherIPs(hosts, first), GatherIPs(hosts, second);
    assert |multiset(a)| == |multiset(b)|;
    SortIsCanonical(a, b);
  }
}
