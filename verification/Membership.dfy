/** The membership protocol of a federated service. Several watchers, one per cluster and one for the
    local cluster (cluster name ""), create, join and leave the one local object. */
module Membership {
  import opened Strings
  import opened Kubernetes
  import opened Mirror
  import opened Federation

  /* ---------- the protocol ---------- */

  /** A join event waits in its watcher's queue with the copy of the service it was queued with. */
  datatype PendingJoin = PendingJoin(cluster: string, snapshot: Service)

  /** The federated service of one remote name, the API server's version stamp, and all queued joins. */
  datatype State = State(svc: Option<Service>, now: nat, joins: seq<PendingJoin>)

  /** `ok` is false when the API call of the step fails for a reason of its own. */
  datatype Step =
    | Observe(cluster: string)
    | TryCreate(cluster: string, remote: Service, ip: string, ok: bool)
    | TryJoin(index: nat, ok: bool)
    | TryLeave(cluster: string, ok: bool)

  datatype Commit = Nothing | Entered(cluster: string) | Exited(cluster: string)

  function Remove<T>(s: seq<T>, i: nat): seq<T>
    requires i < |s|
  {
    s[..i] + s[i + 1..]
  }

  function Exec(name: string, st: State, step: Step): (State, Commit) {
    var (svc, joins, commit) := Effect(name, st, step);
    (State(svc, st.now + 1, joins), commit)
  }

  /** What a step makes of the object and of the queued joins; whatever it writes gets the version `now`. */
  function Effect(name: string, st: State, step: Step): (Option<Service>, seq<PendingJoin>, Commit) {
    match step
    case Observe(c) =>
      (st.svc, if st.svc.None? then st.joins else st.joins + [PendingJoin(c, st.svc.value)], Nothing)
    case TryCreate(c, remote, ip, ok) =>
      if !ok || st.svc.Some? then (st.svc, st.joins, Nothing)
      else
        var svc := Service(CommonLabels(remote.labels), CreatedAnnotations(c, name, remote.annotations),
                           RemapPorts(remote.ports), ip, st.now);
        (Some(svc), st.joins, Entered(c))
    case TryJoin(i, ok) =>
      if i >= |st.joins| then (st.svc, st.joins, Nothing)
      else
        var c, snapshot := st.joins[i].cluster, st.joins[i].snapshot;
        match JoinedAnnotations(c, name, snapshot.annotations) {
          case None => (st.svc, Remove(st.joins, i), Nothing)
          case Some(a) =>
            var edited := snapshot.(annotations := a);
            // the write goes into a nil map, and the watcher is lost with its join
            if snapshot.annotations == map[] then (st.svc, Remove(st.joins, i), Nothing)
            else if ok && st.svc.Some? && st.svc.value.version == snapshot.version
            then (Some(edited.(version := st.now)), Remove(st.joins, i), Entered(c))
            else (st.svc, st.joins[i := PendingJoin(c, edited)], Nothing)
        }
    case TryLeave(c, ok) =>
      if st.svc.None? then (st.svc, st.joins, Nothing)
      else
        match LeftAnnotations(c, name, st.svc.value.annotations) {
          case None => (st.svc, st.joins, Nothing)
          case Some(a) =>
            if !ok then (st.svc, st.joins, Nothing)
            else if NoMembers(a) then (None, st.joins, Exited(c))
            else (Some(st.svc.value.(annotations := a, version := st.now)), st.joins, Exited(c))
        }
  }

  /** Which clusters' last committed step was a create or a join. */
  function Record(last: set<string>, c: Commit): set<string> {
    match c
    case Nothing => last
    case Entered(cluster) => last + {cluster}
    case Exited(cluster) => last - {cluster}
  }

  function Run(name: string, st: State, last: set<string>, steps: seq<Step>): (State, set<string>)
    decreases |steps|
  {
    if steps == [] then (st, last)
    else
      var (st', commit) := Exec(name, st, steps[0]);
      Run(name, st', Record(last, commit), steps[1..])
  }

  /* ---------- reading the members back ---------- */

  /** The remote targets an object lists, in order. */
  function Listed(svc: Option<Service>): seq<string> {
    if svc.None? || Get(svc.value.annotations, REMOTE_DISCOVERY) == "" then []
    else Split(Get(svc.value.annotations, REMOTE_DISCOVERY), ',')
  }

  predicate Member(name: string, svc: Option<Service>, cluster: string) {
    svc.Some? &&
    if cluster == "" then Get(svc.value.annotations, LOCAL_DISCOVERY) != ""
    else Target(name, cluster) in Listed(svc)
  }

  predicate NoDuplicates(s: seq<string>) {
    forall i, j :: 0 <= i < j < |s| ==> s[i] != s[j]
  }

  /** Names in which the annotation's separator does not occur. */
  predicate ValidName(s: string) {
    s != "" && ',' !in s
  }

  predicate ValidStep(step: Step) {
    match step
    case Observe(c) => ',' !in c
    case TryCreate(c, remote, _, _) => ',' !in c && CarriesNoDiscovery(remote.annotations)
    case TryJoin(_, _) => true
    case TryLeave(c, _) => ',' !in c
  }

  predicate CarriesNoDiscovery(a: Labels) {
    REMOTE_DISCOVERY !in a && LOCAL_DISCOVERY !in a
  }

  /* ---------- the annotation as an encoded list ---------- */

  function Targets(name: string, clusters: seq<string>): (r: seq<string>)
    ensures |r| == |clusters|
  {
    seq(|clusters|, i requires 0 <= i < |clusters| => Target(name, clusters[i]))
  }

  /** The annotations encode exactly these remote clusters, in this order, and this local membership. */
  predicate Encodes(name: string, a: Labels, clusters: seq<string>, local: bool) {
    && Get(a, REMOTE_DISCOVERY) == Join(Targets(name, clusters), ',')
    && NoDuplicates(clusters)
    && (forall i :: 0 <= i < |clusters| ==> ValidName(clusters[i]))
    && (Get(a, LOCAL_DISCOVERY) != "" <==> local)
  }

  lemma DiscoveryKeysDiffer()
    ensures REMOTE_DISCOVERY != LOCAL_DISCOVERY
  {
    assert REMOTE_DISCOVERY[24] == 'r' && LOCAL_DISCOVERY[24] == 'l';
  }

  lemma TargetInjective(name: string, c: string, d: string)
    ensures Target(name, c) == Target(name, d) ==> c == d
  {
    assert Target(name, c)[|name| + 1..] == c;
    assert Target(name, d)[|name| + 1..] == d;
  }

  lemma TargetsLackComma(name: string, clusters: seq<string>)
    requires ValidName(name) && forall i :: 0 <= i < |clusters| ==> ValidName(clusters[i])
    ensures NoneContains(Targets(name, clusters), ',')
    ensures clusters != [] ==> Join(Targets(name, clusters), ',') != ""
  {
  }

  /** What Split reads off an encoded annotation. */
  lemma EncodedSplit(name: string, a: Labels, clusters: seq<string>, local: bool, c: string)
    requires ValidName(name) && Encodes(name, a, clusters, local)
    ensures clusters != [] ==> Split(Get(a, REMOTE_DISCOVERY), ',') == Targets(name, clusters)
    ensures clusters == [] ==> Get(a, REMOTE_DISCOVERY) == "" && Split(Get(a, REMOTE_DISCOVERY), ',') == [""]
    ensures Target(name, c) in Split(Get(a, REMOTE_DISCOVERY), ',') <==> c in clusters
  {
    TargetsLackComma(name, clusters);
    if clusters != [] {
      SplitOfJoin(Targets(name, clusters), ',');
      if Target(name, c) in Targets(name, clusters) {
        var i :| 0 <= i < |clusters| && Targets(name, clusters)[i] == Target(name, c);
        TargetInjective(name, c, clusters[i]);
      }
      if c in clusters {
        var i :| 0 <= i < |clusters| && clusters[i] == c;
        assert Targets(name, clusters)[i] == Target(name, c);
      }
    }
  }

  lemma MembersOfEncoded(name: string, svc: Service, clusters: seq<string>, local: bool, c: string)
    requires ValidName(name) && Encodes(name, svc.annotations, clusters, local)
    ensures Listed(Some(svc)) == Targets(name, clusters)
    ensures Member(name, Some(svc), c) <==> if c == "" then local else c in clusters
  {
    EncodedSplit(name, svc.annotations, clusters, local, c);
    TargetsLackComma(name, clusters);
  }

  lemma JoinEncodes(name: string, c: string, a: Labels, clusters: seq<string>, local: bool)
    requires ValidName(name) && ',' !in c && Encodes(name, a, clusters, local)
    ensures c == "" ==>
              (JoinedAnnotations(c, name, a).Some?
               && Encodes(name, JoinedAnnotations(c, name, a).value, clusters, true))
    ensures c != "" && c in clusters ==> JoinedAnnotations(c, name, a).None?
    ensures c != "" && c !in clusters ==>
              (JoinedAnnotations(c, name, a).Some?
               && Encodes(name, JoinedAnnotations(c, name, a).value, clusters + [c], local))
  {
    DiscoveryKeysDiffer();
    EncodedSplit(name, a, clusters, local, c);
    TargetsLackComma(name, clusters);
    if c != "" && c !in clusters {
      var ts := Targets(name, clusters);
      assert Targets(name, clusters + [c]) == ts + [Target(name, c)];
      if ts != [] { JoinOfAppend(ts, Target(name, c), ','); }
    }
  }

  lemma {:induction false} WithoutFacts(s: seq<string>, x: string)
    ensures forall y :: y in Without(s, x) <==> y in s && y != x
    ensures NoDuplicates(s) ==> NoDuplicates(Without(s, x))
    ensures x !in s ==> Without(s, x) == s
  {
    if s != [] {
      var n := |s| - 1;
      WithoutFacts(s[..n], x);
      assert s == s[..n] + [s[n]];
      forall y ensures y in s <==> y in s[..n] || y == s[n] {
        assert s == s[..n] + [s[n]];
      }
      if NoDuplicates(s) {
        assert NoDuplicates(s[..n]);
        var front := Without(s[..n], x);
        forall i | 0 <= i < |front| ensures front[i] != s[n] {
          assert front[i] in front;
          var j :| 0 <= j < n && s[j] == front[i];
        }
      }
    }
  }

  /** A join writes nothing exactly if the cluster is listed already. It puts the service's name into the local
      annotation, or adds the cluster to the end of the remote one, and leaves the rest. */
  lemma JoinedContents(cluster: string, name: string, a: Labels, key: string)
    ensures var r, list := JoinedAnnotations(cluster, name, a), Get(a, REMOTE_DISCOVERY);
            && (r.None? <==> cluster != "" && name + "@" + cluster in Split(list, ','))
            && (r.Some? ==>
                  Lookup(r.value, key) ==
                    if cluster == "" && key == LOCAL_DISCOVERY then Some(name)
                    else if cluster != "" && key == REMOTE_DISCOVERY then
                      Some(if list == "" then name + "@" + cluster else list + "," + name + "@" + cluster)
                    else Lookup(a, key))
  {
    hide Split;
    var list := Get(a, REMOTE_DISCOVERY);
    assert list + "," + (name + "@" + cluster) == list + "," + name + "@" + cluster;
    DiscoveryKeysDiffer();
  }

  /** A leave writes nothing exactly if the cluster is not listed. It takes away the local annotation, or every
      mention of the cluster from the remote one, and leaves the rest. */
  lemma LeftContents(cluster: string, name: string, a: Labels, key: string)
    ensures var r, list := LeftAnnotations(cluster, name, a), Get(a, REMOTE_DISCOVERY);
            var target := name + "@" + cluster;
            && (r.None? <==> cluster != "" && target !in Split(list, ','))
            && (r.Some? && cluster == "" && key == LOCAL_DISCOVERY ==> Lookup(r.value, key) == None)
            && (r.Some? && (if cluster == "" then key != LOCAL_DISCOVERY else key != REMOTE_DISCOVERY) ==>
                  Lookup(r.value, key) == Lookup(a, key))
            && (r.Some? && cluster != "" ==>
                  exists kept :: && Lookup(r.value, REMOTE_DISCOVERY) == Some(Join(kept, ','))
                                 && (forall y :: y in kept <==> y in Split(list, ',') && y != target)
                                 && (NoDuplicates(Split(list, ',')) ==> NoDuplicates(kept)))
  {
    hide Split, Join, Without, NoDuplicates;
    DiscoveryKeysDiffer();
    var list, target := Get(a, REMOTE_DISCOVERY), Target(name, cluster);
    WithoutFacts(Split(list, ','), target);
    if cluster != "" && target in Split(list, ',') {
      var kept := Without(Split(list, ','), target);
      assert LeftAnnotations(cluster, name, a).value[REMOTE_DISCOVERY] == Join(kept, ',');
    }
  }

  lemma {:induction false} WithoutTargets(name: string, clusters: seq<string>, c: string)
    ensures Without(Targets(name, clusters), Target(name, c)) == Targets(name, Without(clusters, c))
  {
    if clusters != [] {
      var n := |clusters| - 1;
      var front := clusters[..n];
      WithoutTargets(name, front, c);
      assert Targets(name, clusters)[..n] == Targets(name, front);
      TargetInjective(name, c, clusters[n]);
      assert Targets(name, Without(front, c) + [clusters[n]])
               == Targets(name, Without(front, c)) + [Target(name, clusters[n])];
    }
  }

  lemma LeaveEncodes(name: string, c: string, a: Labels, clusters: seq<string>, local: bool)
    requires ValidName(name) && ',' !in c && Encodes(name, a, clusters, local)
    ensures c == "" ==>
              (LeftAnnotations(c, name, a).Some? && Encodes(name, LeftAnnotations(c, name, a).value, clusters, false))
    ensures c != "" && c !in clusters ==> LeftAnnotations(c, name, a).None?
    ensures c != "" && c in clusters ==>
              (LeftAnnotations(c, name, a).Some?
               && Encodes(name, LeftAnnotations(c, name, a).value, Without(clusters, c), local))
  {
    hide Split, Without, ValidName, Target;
    DiscoveryKeysDiffer();
    EncodedSplit(name, a, clusters, local, c);
    if c != "" && c in clusters {
      WithoutTargets(name, clusters, c);
      WithoutFacts(clusters, c);
      var rest := Without(clusters, c);
      forall i | 0 <= i < |rest| ensures ValidName(rest[i]) {
        assert rest[i] in rest;
      }
    }
  }

  lemma EncodedNoMembers(name: string, a: Labels, clusters: seq<string>, local: bool)
    requires ValidName(name) && Encodes(name, a, clusters, local)
    ensures NoMembers(a) <==> clusters == [] && !local
  {
    TargetsLackComma(name, clusters);
  }

  lemma CreateEncodes(name: string, c: string, remote: Labels)
    requires ValidName(name) && ',' !in c && CarriesNoDiscovery(remote)
    ensures Encodes(name, CreatedAnnotations(c, name, remote), if c == "" then [] else [c], c == "")
  {
    DiscoveryKeysDiffer();
    if c != "" {
      assert Targets(name, [c]) == [Target(name, c)];
    }
  }

  /** A created federated service lists its creator alone, exactly when the remote service does not
      itself carry a non-empty discovery annotation of the other kind. */
  lemma CreateListsCreatorAlone(name: string, c: string, remote: Service, ip: string, now: nat)
    requires ValidName(name) && ',' !in c
    ensures var svc := Exec(name, State(None, now, []), TryCreate(c, remote, ip, true)).0.svc;
            (forall d :: Member(name, svc, d) ==> d == c) && (c == "" ==> Listed(svc) == [])
            <==> Get(CommonAnnotations(remote.annotations), if c == "" then REMOTE_DISCOVERY else LOCAL_DISCOVERY) == ""
  {
    DiscoveryKeysDiffer();
    var svc := Exec(name, State(None, now, []), TryCreate(c, remote, ip, true)).0.svc;
    if c == "" {
      var list := Get(CommonAnnotations(remote.annotations), REMOTE_DISCOVERY);
      assert Get(svc.value.annotations, REMOTE_DISCOVERY) == list;
    } else {
      assert Get(svc.value.annotations, LOCAL_DISCOVERY) == Get(CommonAnnotations(remote.annotations), LOCAL_DISCOVERY);
      if Get(svc.value.annotations, LOCAL_DISCOVERY) != "" {
        assert Member(name, svc, "");
      }
      SplitWithoutSeparator(Target(name, c), ',');
      forall d | d != "" && Member(name, svc, d) ensures d == c {
        TargetInjective(name, c, d);
      }
    }
  }

  /* ---------- the invariant ---------- */

  ghost predicate EncodesSet(name: string, a: Labels, clusters: seq<string>, members: set<string>) {
    && Encodes(name, a, clusters, "" in members)
    && (forall c :: c in clusters <==> c in members && c != "")
  }

  /** A queued join is stale, or its copy is the current object, possibly with its own join already applied. No
      copy is without annotations. */
  predicate Genuine(name: string, st: State, p: PendingJoin) {
    && ',' !in p.cluster
    && p.snapshot.annotations != map[]
    && p.snapshot.version < st.now
    && (st.svc.Some? && st.svc.value.version == p.snapshot.version ==>
          || p.snapshot.annotations == st.svc.value.annotations
          || Some(p.snapshot.annotations) == JoinedAnnotations(p.cluster, name, st.svc.value.annotations))
  }

  ghost predicate Invariant(name: string, st: State, last: set<string>) {
    && (st.svc.None? ==> last == {})
    && (st.svc.Some? ==>
          && st.svc.value.version < st.now
          && last != {}
          && exists clusters :: EncodesSet(name, st.svc.value.annotations, clusters, last))
    && (forall i :: 0 <= i < |st.joins| ==> Genuine(name, st, st.joins[i]))
  }

  lemma MembersNeedAnnotations(name: string, st: State, last: set<string>)
    requires ValidName(name) && Invariant(name, st, last) && st.svc.Some?
    ensures st.svc.value.annotations != map[]
  {
    var clusters :| EncodesSet(name, st.svc.value.annotations, clusters, last);
    EncodedNoMembers(name, st.svc.value.annotations, clusters, "" in last);
    if clusters != [] {
      assert clusters[0] in clusters;
    }
  }

  lemma JoinStep(name: string, st: State, last: set<string>, i: nat, ok: bool)
    requires ValidName(name) && Invariant(name, st, last)
    ensures var (st', commit) := Exec(name, st, TryJoin(i, ok)); Invariant(name, st', Record(last, commit))
  {
    hide Encodes, Split, Join, Targets, ValidName;
    var (st', commit) := Exec(name, st, TryJoin(i, ok));
    if i < |st.joins| && st.svc.Some? {
      var p := st.joins[i];
      var svc := st.svc.value;
      var clusters :| EncodesSet(name, svc.annotations, clusters, last);
      JoinEncodes(name, p.cluster, svc.annotations, clusters, "" in last);
      if commit.Entered? {
        if p.snapshot.annotations != svc.annotations && p.cluster != "" {
          // the retried copy already lists the cluster, so the retry would not have written
          JoinEncodes(name, p.cluster, p.snapshot.annotations, clusters + [p.cluster], "" in last);
        }
        var a := JoinedAnnotations(p.cluster, name, p.snapshot.annotations).value;
        if p.cluster == "" {
          assert a == JoinedAnnotations("", name, svc.annotations).value;
          assert EncodesSet(name, a, clusters, last + {""});
        } else {
          assert EncodesSet(name, a, clusters + [p.cluster], last + {p.cluster});
        }
        assert st'.svc.value.annotations == a;
      } else if p.snapshot.version == svc.version && p.cluster == "" {
        var a := p.snapshot.annotations;
        assert a == svc.annotations || a == svc.annotations[LOCAL_DISCOVERY := name];
        assert a[LOCAL_DISCOVERY := name] == svc.annotations[LOCAL_DISCOVERY := name];
      } else if p.snapshot.version == svc.version && p.snapshot.annotations != svc.annotations {
        JoinEncodes(name, p.cluster, p.snapshot.annotations, clusters + [p.cluster], "" in last);
      }
    }
  }

  lemma LeaveStep(name: string, st: State, last: set<string>, c: string, ok: bool)
    requires ValidName(name) && ',' !in c && Invariant(name, st, last)
    ensures var (st', commit) := Exec(name, st, TryLeave(c, ok)); Invariant(name, st', Record(last, commit))
  {
    hide LeftAnnotations, JoinedAnnotations, Encodes, Split, Join, Targets, NoMembers, Without, ValidName;
    var (st', commit) := Exec(name, st, TryLeave(c, ok));
    if commit.Exited? {
      var a := LeftAnnotations(c, name, st.svc.value.annotations).value;
      var clusters :| EncodesSet(name, st.svc.value.annotations, clusters, last);
      LeaveEncodes(name, c, st.svc.value.annotations, clusters, "" in last);
      WithoutFacts(clusters, c);
      var rest := if c == "" then clusters else Without(clusters, c);
      assert EncodesSet(name, a, rest, last - {c});
      EncodedNoMembers(name, a, rest, "" in last - {c});
      if NoMembers(a) {
        forall d | d in last ensures d == c { }
        assert last - {c} == {};
      } else if rest != [] {
        assert rest[0] in last - {c};
      }
    }
  }

  lemma CreateStep(name: string, st: State, last: set<string>, c: string, remote: Service, ip: string, ok: bool)
    requires ValidName(name) && Invariant(name, st, last)
    requires ValidStep(TryCreate(c, remote, ip, ok))
    ensures var (st', commit) := Exec(name, st, TryCreate(c, remote, ip, ok));
            Invariant(name, st', Record(last, commit))
  {
    var (st', commit) := Exec(name, st, TryCreate(c, remote, ip, ok));
    if commit.Entered? {
      CreateEncodes(name, c, remote.annotations);
      var clusters := if c == "" then [] else [c];
      assert EncodesSet(name, st'.svc.value.annotations, clusters, last + {c});
    }
  }

  lemma StepKeepsInvariant(name: string, st: State, last: set<string>, step: Step)
    requires ValidName(name) && Invariant(name, st, last) && ValidStep(step)
    ensures var (st', commit) := Exec(name, st, step); Invariant(name, st', Record(last, commit))
  {
    match step
    case Observe(c) => if st.svc.Some? { MembersNeedAnnotations(name, st, last); }
    case TryCreate(c, remote, ip, ok) => CreateStep(name, st, last, c, remote, ip, ok);
    case TryJoin(i, ok) => JoinStep(name, st, last, i, ok);
    case TryLeave(c, ok) => LeaveStep(name, st, last, c, ok);
  }

  lemma {:induction false} RunKeepsInvariant(name: string, st: State, last: set<string>, steps: seq<Step>)
    requires ValidName(name) && Invariant(name, st, last)
    requires forall i :: 0 <= i < |steps| ==> ValidStep(steps[i])
    ensures var (st', last') := Run(name, st, last, steps); Invariant(name, st', last')
    decreases |steps|
  {
    if steps != [] {
      StepKeepsInvariant(name, st, last, steps[0]);
      var (st', commit) := Exec(name, st, steps[0]);
      RunKeepsInvariant(name, st', Record(last, commit), steps[1..]);
    }
  }

  /** The membership protocol: after any interleaving of observations, creates, joins and leaves, with
      any of their API calls failing, the annotation holds no duplicate, the members are exactly the
      clusters whose last committed step was a create or a join, and the service exists iff it has one. */
  lemma MembershipProtocol(name: string, steps: seq<Step>, now: nat)
    requires ValidName(name)
    requires forall i :: 0 <= i < |steps| ==> ValidStep(steps[i])
    ensures var (st, last) := Run(name, State(None, now, []), {}, steps);
            && NoDuplicates(Listed(st.svc))
            && (forall c :: Member(name, st.svc, c) <==> c in last)
            && (st.svc.Some? <==> last != {})
  {
    RunKeepsInvariant(name, State(None, now, []), {}, steps);
    var (st, last) := Run(name, State(None, now, []), {}, steps);
    InvariantMeans(name, st, last);
  }

  lemma InvariantMeans(name: string, st: State, last: set<string>)
    requires ValidName(name) && Invariant(name, st, last)
    ensures NoDuplicates(Listed(st.svc)) && (forall c :: Member(name, st.svc, c) <==> c in last)
            && (st.svc.Some? <==> last != {})
  {
    if st.svc.Some? {
      var clusters :| EncodesSet(name, st.svc.value.annotations, clusters, last);
      forall c ensures Member(name, st.svc, c) <==> c in last {
        MembersOfEncoded(name, st.svc.value, clusters, "" in last, c);
      }
      MembersOfEncoded(name, st.svc.value, clusters, "" in last, "");
      var ts := Targets(name, clusters);
      forall i, j | 0 <= i < j < |ts| ensures ts[i] != ts[j] {
        TargetInjective(name, clusters[i], clusters[j]);
      }
    }
  }

  /** A step commits exactly when it changes the object. */
  lemma CommitShows(name: string, st: State, step: Step)
    requires st.svc.Some? ==> st.svc.value.version < st.now
    ensures var (st', commit) := Exec(name, st, step);
            commit == if st'.svc == st.svc then Nothing
                      else if step.TryLeave? then Exited(step.cluster)
                      else Entered(if step.TryJoin? then st.joins[step.index].cluster else step.cluster)
  {
    hide JoinedAnnotations, LeftAnnotations, CreatedAnnotations, CommonLabels, RemapPorts, NoMembers;
  }

  /** After every run, a step of one cluster never moves, adds or drops another cluster's entry. */
  lemma OthersKeepTheirOrder(name: string, steps: seq<Step>, now: nat, step: Step)
    requires ValidName(name) && ValidStep(step)
    requires forall i :: 0 <= i < |steps| ==> ValidStep(steps[i])
    ensures var (st, _) := Run(name, State(None, now, []), {}, steps); var (st', commit) := Exec(name, st, step);
            && (commit.Nothing? ==> st'.svc == st.svc)
            && (!commit.Nothing? ==>
                  Without(Listed(st'.svc), Target(name, commit.cluster))
                    == Without(Listed(st.svc), Target(name, commit.cluster)))
  {
    hide Run, Exec, Listed, Without, Invariant;
    var start := State(None, now, []);
    assert Invariant(name, start, {}) by { EmptyInvariant(name, now); }
    RunKeepsInvariant(name, start, {}, steps);
    var (st, last) := Run(name, start, {}, steps);
    StepKeepsOrder(name, st, last, step);
  }

  lemma EmptyInvariant(name: string, now: nat)
    ensures Invariant(name, State(None, now, []), {})
  {
  }

  lemma StepKeepsOrder(name: string, st: State, last: set<string>, step: Step)
    requires ValidName(name) && Invariant(name, st, last) && ValidStep(step)
    ensures var (st', commit) := Exec(name, st, step);
            && (commit.Nothing? ==> st'.svc == st.svc)
            && (!commit.Nothing? ==>
                  Without(Listed(st'.svc), Target(name, commit.cluster))
                    == Without(Listed(st.svc), Target(name, commit.cluster)))
  {
    hide JoinedAnnotations, LeftAnnotations, CreatedAnnotations, Encodes, Split, Join, ValidName;
    StepKeepsInvariant(name, st, last, step);
    var (st', commit) := Exec(name, st, step);
    if !commit.Nothing? {
      var c := commit.cluster;
      var t := Target(name, c);
      if st.svc.None? {
        assert step.TryCreate?;
        CreateEncodes(name, c, step.remote.annotations);
        MembersOfEncoded(name, st'.svc.value, if c == "" then [] else [c], c == "", c);
        WithoutTargets(name, if c == "" then [] else [c], c);
      } else {
        var svc := st.svc.value;
        var clusters :| EncodesSet(name, svc.annotations, clusters, last);
        MembersOfEncoded(name, svc, clusters, "" in last, c);
        WithoutTargets(name, clusters, c);
        if commit.Entered? {
          JoinOrder(name, st, last, step.index, step.ok, clusters);
        } else {
          LeaveEncodes(name, c, svc.annotations, clusters, "" in last);
          WithoutFacts(clusters, c);
          var a := LeftAnnotations(c, name, svc.annotations).value;
          var rest := if c == "" then clusters else Without(clusters, c);
          EncodedNoMembers(name, a, rest, "" in last - {c});
          WithoutFacts(rest, c);
          WithoutTargets(name, rest, c);
          if st'.svc.Some? {
            MembersOfEncoded(name, st'.svc.value, rest, "" in last - {c}, c);
          }
        }
      }
    }
  }

  lemma JoinOrder(name: string, st: State, last: set<string>, i: nat, ok: bool, clusters: seq<string>)
    requires ValidName(name) && Invariant(name, st, last) && st.svc.Some?
    requires EncodesSet(name, st.svc.value.annotations, clusters, last)
    requires Exec(name, st, TryJoin(i, ok)).1.Entered?
    ensures var (st', commit) := Exec(name, st, TryJoin(i, ok));
            Without(Listed(st'.svc), Target(name, commit.cluster))
              == Without(Listed(st.svc), Target(name, commit.cluster))
  {
    hide Encodes, Split, Join, Listed, ValidName, Target;
    var (st', commit) := Exec(name, st, TryJoin(i, ok));
    var p := st.joins[i];
    var c := p.cluster;
    var svc := st.svc.value;
    var local := "" in last;
    JoinEncodes(name, c, svc.annotations, clusters, local);
    MembersOfEncoded(name, svc, clusters, local, c);
    if c == "" {
      var a := p.snapshot.annotations;
      assert a[LOCAL_DISCOVERY := name] == svc.annotations[LOCAL_DISCOVERY := name];
      MembersOfEncoded(name, st'.svc.value, clusters, true, c);
    } else {
      if p.snapshot.annotations != svc.annotations {
        JoinEncodes(name, c, p.snapshot.annotations, clusters + [c], local);
      }
      MembersOfEncoded(name, st'.svc.value, clusters + [c], local, c);
      var t := Target(name, c);
      assert Targets(name, clusters + [c]) == Targets(name, clusters) + [t];
      assert (Targets(name, clusters) + [t])[..|clusters|] == Targets(name, clusters);
    }
  }
}
