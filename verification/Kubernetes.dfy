/** The Kubernetes objects the service mirror reads and writes, reduced to the fields it uses. */
module Kubernetes {
  import opened Strings

  type Labels = map<string, string>

  /** Namespace and name of an object. */
  datatype Key = Key(ns: string, name: string)

  datatype ServicePort = ServicePort(name: string, protocol: string, port: int, targetPort: string, nodePort: int)

  datatype EndpointPort = EndpointPort(name: string, protocol: string, port: int)

  datatype Address = Address(ip: string, hostname: string, targetRef: Option<string>)

  datatype Subset = Subset(addresses: seq<Address>, notReady: seq<Address>, ports: seq<EndpointPort>)

  /** `version` stands for the resourceVersion that the API server stamps on every write. */
  datatype Service = Service(
    labels: Labels, annotations: Labels, ports: seq<ServicePort>, clusterIP: string, version: nat)

  datatype Endpoints = Endpoints(labels: Labels, annotations: Labels, subsets: seq<Subset>, version: nat)

  const CLUSTER_IP_NONE := "None"
  const IS_HEADLESS_SERVICE := "service.kubernetes.io/headless"

  predicate Headless(svc: Service) {
    svc.clusterIP == CLUSTER_IP_NONE
  }

  /** At least one subset holds a ready address. */
  predicate HasReady(subsets: seq<Subset>) {
    exists i :: 0 <= i < |subsets| && |subsets[i].addresses| > 0
  }

  /* ---------- label selectors ---------- */

  datatype Operator = In | NotIn | Exists | DoesNotExist

  datatype Requirement = Requirement(key: string, op: Operator, values: seq<string>)

  datatype Selector = Selector(matchLabels: Labels, matchExpressions: seq<Requirement>)

  predicate WellFormed(r: Requirement) {
    if r.op.In? || r.op.NotIn? then r.values != [] else r.values == []
  }

  predicate Satisfies(labels: Labels, r: Requirement) {
    match r.op
    case In => r.key in labels && labels[r.key] in r.values
    case NotIn => r.key !in labels || labels[r.key] !in r.values
    case Exists => r.key in labels
    case DoesNotExist => r.key !in labels
  }

  predicate MatchesSet(labels: Labels, wanted: Labels) {
    forall k :: k in wanted ==> k in labels && labels[k] == wanted[k]
  }

  ghost predicate Chosen(selector: Option<Selector>, labels: Labels) {
    exists s :: selector == Some(s) && (s.matchLabels != map[] || s.matchExpressions != [])
      && s.matchLabels.Items <= labels.Items && forall r :: r in s.matchExpressions ==> Meets(labels, r)
  }

  /** A selector that is set, is not empty and can be parsed selects the labels that have all its pairs and meet all
      its expressions. */
  lemma SelectsIsExact(selector: Option<Selector>, labels: Labels)
    ensures Selects(selector, labels) <==> Chosen(selector, labels)
  {
    if selector.Some? {
      var s := selector.value;
      assert |s.matchLabels| == 0 <==> s.matchLabels == map[];
      forall r ensures Meets(labels, r) <==> WellFormed(r) && Satisfies(labels, r) {
        MeetsIsExact(labels, r);
      }
      if s.matchLabels.Items <= labels.Items {
        forall k | k in s.matchLabels ensures k in labels && labels[k] == s.matchLabels[k] {
          assert (k, s.matchLabels[k]) in s.matchLabels.Items;
        }
      }
    }
  }

  /** In and NotIn need values, Exists and DoesNotExist must not have any. */
  predicate Meets(labels: Labels, r: Requirement) {
    || (r.op == In && exists v :: v in r.values && (r.key, v) in labels.Items)
    || (r.op == NotIn && r.values != [] && forall v :: v in r.values ==> (r.key, v) !in labels.Items)
    || (r.op == Exists && r.values == [] && r.key in labels.Keys)
    || (r.op == DoesNotExist && r.values == [] && r.key !in labels.Keys)
  }

  lemma MeetsIsExact(labels: Labels, r: Requirement)
    ensures Meets(labels, r) <==> WellFormed(r) && Satisfies(labels, r)
  {
    if r.key in labels {
      assert forall v :: (r.key, v) in labels.Items <==> labels[r.key] == v;
    } else {
      assert forall v :: (r.key, v) !in labels.Items;
    }
  }

  /** An unset or empty selector selects nothing, and so does one that cannot be parsed. */
  predicate Selects(selector: Option<Selector>, labels: Labels) {
    && selector.Some?
    && |selector.value.matchLabels| + |selector.value.matchExpressions| != 0
    && (forall i :: 0 <= i < |selector.value.matchExpressions| ==> WellFormed(selector.value.matchExpressions[i]))
    && MatchesSet(labels, selector.value.matchLabels)
    && (forall i :: 0 <= i < |selector.value.matchExpressions| ==>
          Satisfies(labels, selector.value.matchExpressions[i]))
  }
}
