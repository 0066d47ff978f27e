/** Whether the configured cluster networks cover the pod networks of the nodes. */
module Cidr {
  import opened Strings

  /** An address is its bits, most significant first: 32 of them or 128. */
  type Bits = seq<bool>

  /** A CIDR as parsed: the address it was written with, and the length of the prefix. */
  datatype Prefix = Prefix(ip: Bits, ones: nat)

  predicate WellFormed(p: Prefix) {
    p.ones <= |p.ip|
  }

  function Mask(width: nat, ones: nat): Bits {
    seq(width, i => i < ones)
  }

  /** The network of a CIDR, with the host bits cleared. */
  datatype Network = Network(base: Bits, mask: Bits, ones: nat)

  function NetworkOf(p: Prefix): Network
    requires WellFormed(p)
  {
    Network(seq(|p.ip|, i requires 0 <= i < |p.ip| => p.ip[i] && i < p.ones), Mask(|p.ip|, p.ones), p.ones)
  }

  predicate ValidNetwork(n: Network) {
    |n.mask| == |n.base| && n.ones <= |n.base| && n.mask == Mask(|n.base|, n.ones)
  }

  /** The addresses that share the prefix; an address of the other family shares none. */
  predicate Covers(n: Network, ip: Bits) {
    |ip| == |n.base| && n.ones <= |n.base| && ip[..n.ones] == n.base[..n.ones]
  }

  /** IPNet.Contains compares masked addresses. */
  method Contains(n: Network, ip: Bits) returns (r: bool)
    requires ValidNetwork(n)
    ensures r <==> Covers(n, ip)
  {
    if |ip| != |n.base| {
      return false;
    }
    for i := 0 to |ip|
      invariant forall j :: 0 <= j < i && j < n.ones ==> ip[j] == n.base[j]
    {
      if (n.base[i] && n.mask[i]) != (ip[i] && n.mask[i]) {
        assert ip[..n.ones][i] != n.base[..n.ones][i];
        return false;
      }
    }
    return true;
  }

  /* ---------- containment of whole prefixes ---------- */

  ghost predicate CoversAll(n: Network, p: Prefix)
    requires WellFormed(p)
  {
    forall ip :: Covers(NetworkOf(p), ip) ==> Covers(n, ip)
  }

  predicate PassesTest(n: Network, p: Prefix) {
    Covers(n, p.ip) && p.ones >= n.ones
  }

  lemma CoversItself(p: Prefix)
    requires WellFormed(p)
    ensures ValidNetwork(NetworkOf(p)) && Covers(NetworkOf(p), p.ip)
  {
  }

  /** A network contains every address of a CIDR exactly when it contains the CIDR's own address and its
      prefix is not the longer one. */
  lemma PrefixTestIsExact(n: Network, p: Prefix)
    requires ValidNetwork(n) && WellFormed(p)
    ensures PassesTest(n, p) <==> CoversAll(n, p)
  {
    CoversItself(p);
    var net := NetworkOf(p);
    if PassesTest(n, p) {
      forall ip | Covers(net, ip) ensures Covers(n, ip) {
        forall i | 0 <= i < n.ones ensures ip[i] == n.base[i] {
          assert ip[..net.ones][i] == net.base[..net.ones][i] == p.ip[i];
          assert p.ip[..n.ones][i] == n.base[..n.ones][i];
        }
      }
    }
    if !PassesTest(n, p) && Covers(n, p.ip) {
      // the address with the first free bit flipped is in the CIDR but not in the network
      var other := p.ip[p.ones := !p.ip[p.ones]];
      assert other[..p.ones] == p.ip[..p.ones];
      assert Covers(net, other);
      assert other[..n.ones][p.ones] != p.ip[..n.ones][p.ones];
      assert !Covers(n, other);
    }
  }

  method ClusterNetworksContainCIDR(nets: seq<Network>, p: Prefix) returns (r: bool)
    requires WellFormed(p) && forall i :: 0 <= i < |nets| ==> ValidNetwork(nets[i])
    ensures r <==> exists i :: 0 <= i < |nets| && CoversAll(nets[i], p)
  {
    for i := 0 to |nets|
      invariant forall j :: 0 <= j < i ==> !CoversAll(nets[j], p)
    {
      PrefixTestIsExact(nets[i], p);
      var contains := Contains(nets[i], p.ip);
      if contains && p.ones >= nets[i].ones {
        return true;
      }
    }
    return false;
  }

  method ClusterNetworksContainIP(nets: seq<Network>, ip: Option<Bits>) returns (r: bool)
    requires forall i :: 0 <= i < |nets| ==> ValidNetwork(nets[i])
    ensures r <==> AnyCovers(nets, ip)
  {
    for i := 0 to |nets|
      invariant forall j :: 0 <= j < i ==> !(ip.Some? && Covers(nets[j], ip.value))
    {
      if ip.Some? {
        var contains := Contains(nets[i], ip.value);
        if contains {
          return true;
        }
      }
    }
    return false;
  }

  /** An address that does not parse is in no network. */
  predicate AnyCovers(nets: seq<Network>, ip: Option<Bits>) {
    ip.Some? && exists i :: 0 <= i < |nets| && Covers(nets[i], ip.value)
  }

  /* ---------- the check ---------- */

  type Parser = string -> Option<Prefix>

  ghost predicate ValidParser(parse: Parser) {
    forall s :: parse(s).Some? ==> WellFormed(parse(s).value)
  }

  datatype Verdict = Passed | Skipped | Unparsable(cidr: string) | NotContained(podCIDRs: seq<string>)

  ghost predicate AllParse(parse: Parser, list: seq<string>) {
    forall i :: 0 <= i < |list| ==> parse(list[i]).Some?
  }

  function Networks(parse: Parser, list: seq<string>): seq<Network>
    requires AllParse(parse, list) && ValidParser(parse)
  {
    seq(|list|, i requires 0 <= i < |list| => NetworkOf(parse(list[i]).value))
  }

  /** The pod CIDR is exposed, parses, and no single network contains all of it. */
  ghost predicate IsBad(parse: Parser, nets: seq<Network>, podCIDR: string)
    requires ValidParser(parse)
  {
    podCIDR != "" && parse(podCIDR).Some? && !exists i :: 0 <= i < |nets| && CoversAll(nets[i], parse(podCIDR).value)
  }

  ghost function BadOnes(parse: Parser, nets: seq<Network>, podCIDRs: seq<string>): seq<string>
    requires ValidParser(parse)
  {
    if podCIDRs == [] then []
    else
      var n := |podCIDRs| - 1;
      BadOnes(parse, nets, podCIDRs[..n]) + if IsBad(parse, nets, podCIDRs[n]) then [podCIDRs[n]] else []
  }

  /** The first loop: the first cluster network that does not parse, or all of them parsed. */
  method ParseNetworks(parse: Parser, list: seq<string>) returns (nets: seq<Network>, wrong: Option<string>)
    requires ValidParser(parse)
    ensures wrong.None? <==> AllParse(parse, list)
    ensures wrong.None? ==> nets == Networks(parse, list) && forall i :: 0 <= i < |nets| ==> ValidNetwork(nets[i])
  {
    nets := [];
    for i := 0 to |list|
      invariant |nets| == i
      invariant forall j :: 0 <= j < i ==> parse(list[j]).Some? && nets[j] == NetworkOf(parse(list[j]).value)
      invariant forall j :: 0 <= j < i ==> ValidNetwork(nets[j])
    {
      var p := parse(list[i]);
      if p.None? {
        return nets, Some(list[i]);
      }
      CoversItself(p.value);
      nets := nets + [NetworkOf(p.value)];
    }
    return nets, None;
  }

  /** The second loop: which exposed pod CIDRs no network contains. */
  method FindBadOnes(parse: Parser, nets: seq<Network>, podCIDRs: seq<string>)
    returns (bad: seq<string>, exposed: bool, wrong: Option<string>)
    requires ValidParser(parse) && forall i :: 0 <= i < |nets| ==> ValidNetwork(nets[i])
    ensures wrong.None? <==> PodsParse(parse, podCIDRs)
    ensures wrong.None? ==> bad == BadOnes(parse, nets, podCIDRs) && (exposed <==> Exposed(podCIDRs))
  {
    bad, exposed, wrong := [], false, None;
    for i := 0 to |podCIDRs|
      invariant wrong.None?
      invariant exposed <==> exists j :: 0 <= j < i && podCIDRs[j] != ""
      invariant forall j :: 0 <= j < i && podCIDRs[j] != "" ==> parse(podCIDRs[j]).Some?
      invariant bad == BadOnes(parse, nets, podCIDRs[..i])
    {
      assert podCIDRs[..i + 1][..i] == podCIDRs[..i];
      if podCIDRs[i] == "" {
        continue;
      }
      exposed := true;
      var p := parse(podCIDRs[i]);
      if p.None? {
        return bad, exposed, Some(podCIDRs[i]);
      }
      var contained := ClusterNetworksContainCIDR(nets, p.value);
      if !contained {
        bad := bad + [podCIDRs[i]];
      }
    }
    assert podCIDRs[..|podCIDRs|] == podCIDRs;
  }

  ghost predicate PodsParse(parse: Parser, podCIDRs: seq<string>) {
    forall i :: 0 <= i < |podCIDRs| && podCIDRs[i] != "" ==> parse(podCIDRs[i]).Some?
  }

  predicate Exposed(podCIDRs: seq<string>) {
    exists i :: 0 <= i < |podCIDRs| && podCIDRs[i] != ""
  }

  method CheckClusterNetworks(parse: Parser, clusterNetworks: string, podCIDRs: seq<string>) returns (v: Verdict)
    requires ValidParser(parse)
    ensures v.Unparsable? <==> !AllParse(parse, Split(clusterNetworks, ',')) || !PodsParse(parse, podCIDRs)
    ensures v == Skipped <==> AllParse(parse, Split(clusterNetworks, ',')) && !Exposed(podCIDRs)
    ensures v == Passed <==> Passes(parse, clusterNetworks, podCIDRs)
    ensures v.NotContained? ==>
              v.podCIDRs == Sort(BadOnes(parse, Networks(parse, Split(clusterNetworks, ',')), podCIDRs))
  {
    hide BadOnes, Split, Networks, Sort;
    var nets, wrong := ParseNetworks(parse, Split(clusterNetworks, ','));
    if wrong.Some? {
      return Unparsable(wrong.value);
    }
    var bad, exposed, unparsable := FindBadOnes(parse, nets, podCIDRs);
    if unparsable.Some? {
      return Unparsable(unparsable.value);
    }
    NoneBad(parse, nets, podCIDRs);
    if !exposed {
      return Skipped;
    }
    if |bad| > 0 {
      return NotContained(Sort(bad));
    }
    return Passed;
  }

  lemma NoneBad(parse: Parser, nets: seq<Network>, podCIDRs: seq<string>)
    requires ValidParser(parse)
    ensures BadOnes(parse, nets, podCIDRs) == [] <==>
              forall i :: 0 <= i < |podCIDRs| ==> !IsBad(parse, nets, podCIDRs[i])
  {
    hide IsBad;
    if BadOnes(parse, nets, podCIDRs) == [] {
      forall i | 0 <= i < |podCIDRs| ensures !IsBad(parse, nets, podCIDRs[i]) {
        NoBadOnes(parse, nets, podCIDRs, i);
      }
    }
    if forall i :: 0 <= i < |podCIDRs| ==> !IsBad(parse, nets, podCIDRs[i]) {
      BadOnesAreBad(parse, nets, podCIDRs);
    }
  }

  lemma {:induction false} NoBadOnes(parse: Parser, nets: seq<Network>, podCIDRs: seq<string>, i: nat)
    requires ValidParser(parse) && BadOnes(parse, nets, podCIDRs) == [] && i < |podCIDRs|
    ensures !IsBad(parse, nets, podCIDRs[i])
    decreases |podCIDRs|
  {
    var n := |podCIDRs| - 1;
    if i < n {
      NoBadOnes(parse, nets, podCIDRs[..n], i);
    }
  }

  /** When the check passes: the networks parse, some pod CIDR is exposed, and each exposed one lies within
      a single network. */
  ghost predicate Passes(parse: Parser, clusterNetworks: string, podCIDRs: seq<string>)
    requires ValidParser(parse)
  {
    && AllParse(parse, Split(clusterNetworks, ','))
    && Exposed(podCIDRs) && PodsParse(parse, podCIDRs)
    && (forall i :: 0 <= i < |podCIDRs| ==> !IsBad(parse, Networks(parse, Split(clusterNetworks, ',')), podCIDRs[i]))
  }

  lemma {:induction false} BadOnesAreBad(parse: Parser, nets: seq<Network>, podCIDRs: seq<string>)
    requires ValidParser(parse) && forall i :: 0 <= i < |podCIDRs| ==> !IsBad(parse, nets, podCIDRs[i])
    ensures BadOnes(parse, nets, podCIDRs) == []
  {
    if podCIDRs != [] {
      BadOnesAreBad(parse, nets, podCIDRs[..|podCIDRs| - 1]);
    }
  }

  /** If the check passes, the test on single IPs accepts every IP inside every node's pod CIDR. */
  lemma PassingCoversEveryPod(parse: Parser, clusterNetworks: string, podCIDRs: seq<string>, node: nat, ip: Bits)
    requires ValidParser(parse) && Passes(parse, clusterNetworks, podCIDRs)
    requires node < |podCIDRs| && podCIDRs[node] != "" && Covers(NetworkOf(parse(podCIDRs[node]).value), ip)
    ensures AnyCovers(Networks(parse, Split(clusterNetworks, ',')), Some(ip))
  {
    var nets := Networks(parse, Split(clusterNetworks, ','));
    assert !IsBad(parse, nets, podCIDRs[node]);
    var i :| 0 <= i < |nets| && CoversAll(nets[i], parse(podCIDRs[node]).value);
    assert Covers(nets[i], ip);
  }
}
