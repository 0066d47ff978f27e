/** When the cluster of a service that matches the federated selector is listed by the federated service. */
module Enrolment {
  import opened Strings
  import opened Kubernetes
  import opened Mirror
  import opened StatusList
  import opened Federation
  import opened Api
  import opened Handlers
  import opened Machine
  import opened Liveness
  import opened Refinement
  import opened Drained
  import opened Overlaps
  import FederatedHandlers
  import Fleet
  import M = Membership

  type State = Api.State

  /* ---------- what the annotations list ---------- */

  predicate Lists(cluster: string, name: string, a: Labels) {
    if cluster == "" then Get(a, LOCAL_DISCOVERY) != ""
    else Get(a, REMOTE_DISCOVERY) != "" && Target(name, cluster) in Split(Get(a, REMOTE_DISCOVERY), ',')
  }

  lemma CreateLists(cluster: string, name: string, remote: Labels)
    requires M.ValidName(name) && ',' !in cluster
    ensures Lists(cluster, name, CreatedAnnotations(cluster, name, remote))
  {
    hide CommonAnnotations;
    if cluster != "" {
      SplitWithoutSeparator(Target(name, cluster), ',');
    }
  }

  /** A join has nothing to write exactly when the cluster of another cluster's link is listed; what it writes lists
      the cluster. */
  lemma JoinLists(cluster: string, name: string, a: Labels)
    requires M.ValidName(name) && ',' !in cluster
    ensures var joined := JoinedAnnotations(cluster, name, a);
            && (joined.None? <==> cluster != "" && Lists(cluster, name, a))
            && (joined.Some? ==> Lists(cluster, name, joined.value))
  {
    if cluster != "" {
      var list, target := Get(a, REMOTE_DISCOVERY), Target(name, cluster);
      SplitWithoutSeparator(target, ',');
      if list == "" {
        SplitWithoutSeparator(list, ',');
        assert |target| > 0;
      } else {
        JoinOfSplit(list, ',');
        JoinOfAppend(Split(list, ','), target, ',');
        SplitOfJoin(Split(list, ',') + [target], ',');
      }
    }
  }

  lemma LeaveUnlists(cluster: string, name: string, a: Labels)
    requires M.ValidName(name) && ',' !in cluster
    ensures var left := LeftAnnotations(cluster, name, a);
            !Lists(cluster, name, if left.Some? then left.value else a)
  {
    if cluster != "" {
      var list, target := Get(a, REMOTE_DISCOVERY), Target(name, cluster);
      if target in Split(list, ',') {
        var rest := Without(Split(list, ','), target);
        M.WithoutFacts(Split(list, ','), target);
        JoinOfSplit(list, ',');
        if rest != [] {
          forall i | 0 <= i < |rest| ensures ',' !in rest[i] {
            assert rest[i] in rest;
          }
          SplitOfJoin(rest, ',');
        }
      }
    }
  }

  /* ---------- one handler ---------- */

  predicate Enlisted(cfg: Config, st: State, k: Key) {
    FederatedKey(k) in st.services && Lists(cfg.link.cluster, k.name, st.services[FederatedKey(k)].annotations)
  }

  /** The namespace is, or can be made, there. */
  predicate Available(cfg: Config, st: State, ns: string) {
    cfg.namespaceCreation || ns in st.namespaces
  }

  predicate Named(cfg: Config, k: Key) {
    M.ValidName(k.name) && ',' !in cfg.link.cluster
  }

  lemma EnlistedIsMember(cfg: Config, st: State, k: Key)
    ensures Enlisted(cfg, st, k) <==>
              M.Member(k.name, if FederatedKey(k) in st.services then Some(st.services[FederatedKey(k)]) else None,
                       cfg.link.cluster)
  {
    hide FederatedKey;
  }

  /** With every call going through, a create lists the cluster exactly when there was no such object and its
      namespace can be used. Where an object was there already, the member is reported all the same. */
  lemma CreateEnrols(cfg: Config, env: Env, st: State, k: Key, svc: Service)
    requires Named(cfg, k) && Succeeds(env) && !Headless(svc)
    ensures var (post, outcome) := HandleCreateFederated(cfg, env, st, k, svc);
            && outcome == Done
            && (Enlisted(cfg, post, k) <==>
                  Enlisted(cfg, st, k) || (FederatedKey(k) !in st.services && Available(cfg, st, k.ns)))
            && (cfg.link.cluster != "" ==> (Reported(post.federatedStatus, k) <==> Available(cfg, st, k.ns)))
  {
    hide FederatedKey, CommonLabels, CreatedAnnotations, RemapPorts, Update, AsMap, Lists, Headless, M.ValidName;
    assert FederatedKey(k).ns == k.ns by { FederatedHandlers.FederatedNamespace(k); }
    assert forall c :: env.ok(c);
    CreateLists(cfg.link.cluster, k.name, svc.annotations);
    UpdateRefines(st.federatedStatus, k, Mirrored(FederatedKey(k)));
    UpdateRefines(st.federatedStatus, k, Failure(REASON_MISSING_NAMESPACE));
  }

  /** The join finds the object as its copy has it, and has something to write. */
  predicate Commits(cfg: Config, st: State, ev: Event)
    requires ev.JoinFederated?
  {
    var fk := FederatedKey(ev.key);
    && !Headless(ev.svc) && ev.local.annotations != map[]
    && JoinedAnnotations(cfg.link.cluster, ev.key.name, ev.local.annotations).Some?
    && fk in st.services && st.services[fk].version == ev.local.version
  }

  /** With every call going through, a join lists the cluster exactly when it was listed before or the object is
      still the one that was copied and the copy does not list it. */
  lemma JoinEnrols(cfg: Config, env: Env, st: State, ev: Event)
    requires ev.JoinFederated? && Named(cfg, ev.key) && Succeeds(env)
    ensures var out := HandleJoin(cfg, env, st, ev);
            && (Enlisted(cfg, out.st, ev.key) <==> Enlisted(cfg, st, ev.key) || Commits(cfg, st, ev))
            && (Commits(cfg, st, ev) ==> out.outcome == Done)
  {
    hide FederatedKey, JoinedAnnotations, Update, Mirrored, Failure, Lists, Headless, M.ValidName;
    assert env.ok(UpdateServiceCall(FederatedKey(ev.key))) by {
      CallSucceeds(env, UpdateServiceCall(FederatedKey(ev.key)));
    }
    JoinLists(cfg.link.cluster, ev.key.name, ev.local.annotations);
  }

  /** A join that came too late for the object is retried with its own edits in the copy. Where another cluster is
      to be listed, the retry takes them for the listing, ends without an error and writes nothing. */
  lemma LateJoinEnds(cfg: Config, env: Env, st: State, ev: Event, env': Env, later: State)
    requires ev.JoinFederated? && Named(cfg, ev.key) && Succeeds(env) && cfg.link.cluster != ""
    requires !Headless(ev.svc) && ev.local.annotations != map[]
    requires JoinedAnnotations(cfg.link.cluster, ev.key.name, ev.local.annotations).Some? && !Commits(cfg, st, ev)
    ensures var out := HandleJoin(cfg, env, st, ev);
            && out.outcome == Retry && out.event.JoinFederated?
            && HandleJoin(cfg, env', later, out.event) == Out(later, [], Done, out.event)
  {
    hide FederatedKey, JoinedAnnotations, Update, Mirrored, Failure, Headless, Lists, M.ValidName;
    var joined := JoinedAnnotations(cfg.link.cluster, ev.key.name, ev.local.annotations).value;
    JoinLists(cfg.link.cluster, ev.key.name, ev.local.annotations);
    JoinLists(cfg.link.cluster, ev.key.name, joined);
  }

  lemma LeaveEnds(cfg: Config, env: Env, st: State, k: Key)
    requires Named(cfg, k) && Succeeds(env)
    ensures var (post, outcome) := HandleLeave(cfg, env, st, k); outcome == Done && !Enlisted(cfg, post, k)
  {
    hide FederatedKey, LeftAnnotations, NoMembers, Delete, Lists, M.ValidName;
    var fk := FederatedKey(k);
    assert forall c :: env.ok(c);
    if fk in st.services {
      LeaveUnlists(cfg.link.cluster, k.name, st.services[fk].annotations);
    }
  }

  /* ---------- what a decision rules ---------- */

  /** The decision queues a new export and nothing else. */
  predicate ExportsFirst(cfg: Config, st: State, k: Key, svc: Service) {
    Desired(cfg.link, svc.labels) && MirrorKey(cfg.link, k) !in st.services
  }

  /** Whether k is to be listed once what the event queues has been handled. */
  predicate Ruling(cfg: Config, st: State, ev: Event, k: Key) {
    var fk := FederatedKey(k);
    if DecidesOn(ev, k) && !ExportsFirst(cfg, st, k, ev.svc) then
      if IsFederatedMember(cfg.link, ev.svc.labels) then
        if fk in st.services then st.services[fk].annotations != map[] else Available(cfg, st, k.ns)
      else Enlisted(cfg, st, k) && MIRRORED_RESOURCE !in st.services[fk].labels
    else if ev.OnDelete? && ev.key == k && IsFederatedMember(cfg.link, ev.svc.labels) then false
    else Enlisted(cfg, st, k)
  }

  /** The event is a federated one for k. */
  predicate Enrols(ev: Event, k: Key) {
    Neutral(ev) && ev.key == k
  }

  /** The event, handled now, makes the listing of k what was ruled. */
  predicate Delivers(cfg: Config, st: State, ev: Event, k: Key, ruled: bool) {
    var fk := FederatedKey(k);
    match ev
    case CreateFederated(_, svc) => fk !in st.services && !Headless(svc) && ruled == Available(cfg, st, k.ns)
    case JoinFederated(_, local, svc) =>
      fk in st.services && local == st.services[fk] && !Headless(svc) && ruled == (local.annotations != map[])
    case LeaveFederated(_) => !ruled
    case _ => false
  }

  lemma DeliveryEnds(cfg: Config, remote: Remote, env: Env, st: State, ev: Event, k: Key, ruled: bool)
    requires Enrols(ev, k) && Named(cfg, k) && Succeeds(env) && Delivers(cfg, st, ev, k, ruled)
    ensures var out := Handle(cfg, remote, env, st, ev);
            Enlisted(cfg, out.st, k) == ruled && out.outcome != Retry && out.spawned == []
  {
    hide HandleCreateFederated, HandleJoin, HandleLeave, FederatedKey, Lists, Succeeds, Headless;
    match ev
    case CreateFederated(_, svc) => CreateEnrols(cfg, env, st, k, svc);
    case JoinFederated(_, local, svc) => CopyEnrols(cfg, env, st, ev);
    case LeaveFederated(_) => LeaveEnds(cfg, env, st, k);
  }

  lemma CopyEnrols(cfg: Config, env: Env, st: State, ev: Event)
    requires ev.JoinFederated? && Named(cfg, ev.key) && Succeeds(env) && !Headless(ev.svc)
    requires FederatedKey(ev.key) in st.services && ev.local == st.services[FederatedKey(ev.key)]
    ensures var out := HandleJoin(cfg, env, st, ev);
            && Enlisted(cfg, out.st, ev.key) == (ev.local.annotations != map[])
            && out.outcome != Retry && out.spawned == []
  {
    hide FederatedKey, JoinedAnnotations, HandleJoin, Headless, Split, M.ValidName;
    JoinEnrols(cfg, env, st, ev);
    JoinLists(cfg.link.cluster, ev.key.name, ev.local.annotations);
    CopyEnds(cfg, env, st, ev);
  }

  lemma CopyEnds(cfg: Config, env: Env, st: State, ev: Event)
    requires ev.JoinFederated? && Succeeds(env)
    requires FederatedKey(ev.key) in st.services && ev.local == st.services[FederatedKey(ev.key)]
    ensures var out := HandleJoin(cfg, env, st, ev); out.outcome != Retry && out.spawned == []
  {
    hide FederatedKey, JoinedAnnotations, Update, Mirrored, Failure, Headless;
    CallSucceeds(env, UpdateServiceCall(FederatedKey(ev.key)));
  }

  /* ---------- what an event queues ---------- */

  predicate NoneEnrols(events: seq<Event>, k: Key) {
    forall i :: 0 <= i < |events| ==> !Enrols(events[i], k)
  }

  /** At most one federated event for k is queued. It delivers what was ruled; without one, that is delivered. */
  ghost predicate Settling(cfg: Config, st: State, events: seq<Event>, k: Key, ruled: bool) {
    && (forall i, j :: 0 <= i < j < |events| ==> !(Enrols(events[i], k) && Enrols(events[j], k)))
    && (forall i :: 0 <= i < |events| && Enrols(events[i], k) ==> Delivers(cfg, st, events[i], k, ruled))
    && (NoneEnrols(events, k) ==> Enlisted(cfg, st, k) == ruled)
  }

  lemma SettlesWith(cfg: Config, st: State, first: seq<Event>, second: seq<Event>, k: Key, ruled: bool)
    requires NoneEnrols(first, k) && |second| <= 1
    requires if second == [] then Enlisted(cfg, st, k) == ruled
             else Enrols(second[0], k) && Delivers(cfg, st, second[0], k, ruled)
    ensures Settling(cfg, st, first + second, k, ruled)
  {
    hide Enrols, Delivers, Enlisted;
    var events := first + second;
    assert forall i :: 0 <= i < |first| ==> events[i] == first[i];
    if second != [] {
      assert events[|first|] == second[0];
    }
  }

  lemma FederatedDecisionDelivers(cfg: Config, env: Env, st: State, ev: Event, k: Key)
    requires DecidesOn(ev, k) && Succeeds(env) && !Headless(ev.svc) && !ExportsFirst(cfg, st, k, ev.svc)
    ensures var (st', second, outcome) := FederatedDecision(cfg, env, st, k, ev.svc);
            && st' == st && outcome == Done && |second| <= 1
            && (if second == [] then Enlisted(cfg, st, k) == Ruling(cfg, st, ev, k)
                else Enrols(second[0], k) && Delivers(cfg, st, second[0], k, Ruling(cfg, st, ev, k)))
  {
    hide FederatedKey, IsFederatedMember, Lists, PutFederatedStatus, Headless, Available, ExportsFirst;
    CallSucceeds(env, GetService(FederatedKey(k)));
  }

  lemma DecisionSettles(cfg: Config, env: Env, st: State, ev: Event, k: Key)
    requires DecidesOn(ev, k) && Succeeds(env) && !Headless(ev.svc)
    ensures var out := CreateOrUpdate(cfg, env, st, ev);
            out.st == st && out.outcome == Done && Settling(cfg, st, out.spawned, k, Ruling(cfg, st, ev, k))
  {
    hide MirrorDecision, FederatedDecision, Enlisted, Headless, Settling, Delivers, Succeeds, ExportsFirst;
    MirrorDecisionIsMirror(cfg, env, st, k, ev.svc);
    var first := MirrorDecision(cfg, env, st, k, ev.svc).0;
    if ExportsFirst(cfg, st, k, ev.svc) {
      SettlesWith(cfg, st, first, [], k, Ruling(cfg, st, ev, k));
      assert first + [] == first;
    } else {
      FederatedDecisionDelivers(cfg, env, st, ev, k);
      SettlesWith(cfg, st, first, FederatedDecision(cfg, env, st, k, ev.svc).1, k, Ruling(cfg, st, ev, k));
    }
  }

  lemma MirrorDecisionIsMirror(cfg: Config, env: Env, st: State, k: Key, svc: Service)
    requires Succeeds(env)
    ensures var (first, outcome) := MirrorDecision(cfg, env, st, k, svc);
            && outcome == Done && |first| <= 1 && (first != [] ==> !Neutral(first[0]))
            && (first != [] && first[0].Exported? <==> ExportsFirst(cfg, st, k, svc))
  {
    hide MirrorKey, Desired, FormatNat;
    assert forall c :: env.ok(c);
  }

  lemma DeletionSettles(cfg: Config, st: State, ev: Event, k: Key)
    requires ev.OnDelete? && ev.key == k
    ensures var out := HandleDelete(cfg, st, ev);
            out.st == st && out.outcome == Done && Settling(cfg, st, out.spawned, k, Ruling(cfg, st, ev, k))
  {
    hide FederatedKey, Desired, IsFederatedMember, Enlisted, MirrorKey, Settling;
    var first := if Desired(cfg.link, ev.svc.labels) then [Unexported(k)] else [];
    var second := if IsFederatedMember(cfg.link, ev.svc.labels) then [LeaveFederated(k)] else [];
    SettlesWith(cfg, st, first, second, k, Ruling(cfg, st, ev, k));
  }

  lemma RulingSettles(cfg: Config, remote: Remote, env: Env, st: State, ev: Event, k: Key)
    requires Asks(ev, k) && Succeeds(env) && (Decides(ev) ==> !Headless(ev.svc))
    ensures var out := Handle(cfg, remote, env, st, ev);
            out.st == st && out.outcome == Done && Settling(cfg, st, out.spawned, k, Ruling(cfg, st, ev, k))
  {
    hide CreateOrUpdate, HandleDelete, Settling, Ruling, Headless, Succeeds;
    if ev.OnDelete? {
      DeletionSettles(cfg, st, ev, k);
    } else {
      DecisionSettles(cfg, env, st, ev, k);
    }
  }

  lemma OthersQueueNothing(cfg: Config, remote: Remote, env: Env, st: State, ev: Event, k: Key)
    requires ValidEnv(env) && Expected(ev) && !Asks(ev, k)
    ensures NoneEnrols(Handle(cfg, remote, env, st, ev).spawned, k)
  {
    hide CreateOrUpdate, HandleDelete, HandleExported, HandleUpdated, HandleUnexported, HandleNamespaceAdded, ValidEnv;
    hide HandleCreateFederated, HandleJoin, HandleLeave, HandleCleanup, HandleGc, HandleRepair, HandleEndpoints;
    SpawnShape(cfg, remote, env, st, ev);
    var spawned := Handle(cfg, remote, env, st, ev).spawned;
    assert forall i :: 0 <= i < |spawned| ==> spawned[i] in spawned;
    if Decides(ev) {
      DecisionQueuesItsOwn(cfg, env, st, ev);
    } else if ev.OnDelete? {
      DeletionQueuesItsOwn(cfg, st, ev);
    }
  }

  lemma DecisionQueuesItsOwn(cfg: Config, env: Env, st: State, ev: Event)
    requires Decides(ev)
    ensures forall e :: e in CreateOrUpdate(cfg, env, st, ev).spawned && Neutral(e) ==> e.key == ev.key
  {
    hide MirrorKey, FederatedKey, Desired, IsFederatedMember, PutFederatedStatus, FormatNat;
  }

  lemma DeletionQueuesItsOwn(cfg: Config, st: State, ev: Event)
    requires ev.OnDelete?
    ensures forall e :: e in HandleDelete(cfg, st, ev).spawned && Neutral(e) ==> e.key == ev.key
  {
    hide Desired, IsFederatedMember;
  }

  /* ---------- one step ---------- */

  lemma DeliversDependsOnObject(cfg: Config, pre: State, post: State, ev: Event, k: Key, ruled: bool)
    requires Fleet.SameService(pre, post, FederatedKey(k)) || post == pre.(now := post.now)
    requires pre.namespaces <= post.namespaces && (post.namespaces == pre.namespaces || cfg.namespaceCreation)
    ensures Delivers(cfg, pre, ev, k, ruled) ==> Delivers(cfg, post, ev, k, ruled)
    ensures Enlisted(cfg, post, k) == Enlisted(cfg, pre, k)
    ensures Fleet.UnmarkedAt(pre, k) ==> Fleet.UnmarkedAt(post, k)
  {
    hide FederatedKey, Headless, Lists;
  }

  lemma SettlingDependsOnObject(cfg: Config, pre: State, post: State, events: seq<Event>, k: Key, ruled: bool)
    requires Fleet.SameService(pre, post, FederatedKey(k)) || post == pre.(now := post.now)
    requires pre.namespaces <= post.namespaces && (post.namespaces == pre.namespaces || cfg.namespaceCreation)
    requires Settling(cfg, pre, events, k, ruled)
    ensures Settling(cfg, post, events, k, ruled)
  {
    hide FederatedKey, Enlisted, Delivers, Enrols, Fleet.SameService, Fleet.UnmarkedAt;
    DeliversDependsOnObject(cfg, pre, post, GcTriggered, k, ruled);
    forall i | 0 <= i < |events| && Enrols(events[i], k) ensures Delivers(cfg, post, events[i], k, ruled) {
      DeliversDependsOnObject(cfg, pre, post, events[i], k, ruled);
    }
  }

  /** No event but a federated one for k changes the federated service of k. */
  lemma ObjectStays(cfg: Config, remote: Remote, env: Env, st: State, ev: Event, k: Key)
    requires !Enrols(ev, k) && !FederatedLike(cfg.link.cluster) && Fleet.UnmarkedAt(st, k)
    ensures Fleet.SameService(st, Handle(cfg, remote, env, st, ev).st, FederatedKey(k))
    ensures var out := Handle(cfg, remote, env, st, ev); !Enrols(out.event, k) && (Neutral(out.event) ==> Neutral(ev))
  {
    hide Handle, FederatedKey, FederatedLike, MirrorKey;
    var out := Handle(cfg, remote, env, st, ev);
    var fk := FederatedKey(k);
    if Neutral(ev) {
      FederatedAwayFrom(cfg, remote, env, st, ev);
      if FederatedKey(ev.key) == fk { Fleet.FederatedKeyInjective(ev.key, k); }
      assert SameAt(st, out.st, fk);
      Fleet.NeutralKeepsClock(cfg, remote, env, st, ev);
    } else {
      forall j ensures MirrorKey(cfg.link, j) != fk { MirrorAvoidsFederated(cfg.link, j, k); }
      Fleet.HandleSpares(cfg, remote, env, st, ev, fk);
      Fleet.EventStays(cfg, remote, env, st, ev);
    }
  }

  lemma DeliveryUnmarked(cfg: Config, remote: Remote, env: Env, st: State, ev: Event, k: Key, ruled: bool)
    requires Enrols(ev, k) && Delivers(cfg, st, ev, k, ruled) && Fleet.UnmarkedAt(st, k)
    ensures Fleet.UnmarkedAt(Handle(cfg, remote, env, st, ev).st, k)
  {
    hide HandleCreateFederated, HandleJoin, HandleLeave, FederatedKey, Headless;
    match ev
    case CreateFederated(_, svc) => Fleet.CreateUnmarked(cfg, env, st, k, svc);
    case JoinFederated(_, _, _) => Fleet.JoinUnmarked(cfg, env, st, ev);
    case LeaveFederated(_) => Fleet.LeaveUnmarked(cfg, env, st, k);
  }

  /** The new queue when the one federated event for k has been handled. */
  lemma DeliveredQueue(cfg: Config, st: State, post: State, events: seq<Event>, i: nat, k: Key, ruled: bool)
    requires i < |events| && Enrols(events[i], k) && Settling(cfg, st, events, k, ruled)
    requires Enlisted(cfg, post, k) == ruled
    ensures Settling(cfg, post, events[..i] + events[i + 1..], k, ruled)
  {
    hide Enrols, Delivers, Enlisted;
    var rest := events[..i] + events[i + 1..];
    forall l | 0 <= l < |rest| ensures !Enrols(rest[l], k) {
      assert rest[l] == events[if l < i then l else l + 1];
    }
  }

  /** The new queue when another event has been handled. */
  lemma QueueSettles(cfg: Config, st: State, events: seq<Event>, i: nat, spawned: seq<Event>, again: seq<Event>,
                     k: Key, was: bool, ruled: bool)
    requires i < |events| && !Enrols(events[i], k) && Settling(cfg, st, events, k, was) && NoneEnrols(again, k)
    requires || (NoneEnrols(events, k) && Settling(cfg, st, spawned, k, ruled))
             || (NoneEnrols(spawned, k) && ruled == was)
    ensures Settling(cfg, st, events[..i] + events[i + 1..] + spawned + again, k, ruled)
  {
    hide Enrols, Delivers, Enlisted;
    var rest := events[..i] + events[i + 1..];
    var after := rest + spawned + again;
    assert forall l :: 0 <= l < |rest| ==> rest[l] == events[if l < i then l else l + 1];
    assert forall l :: 0 <= l < |rest| ==> after[l] == rest[l];
    assert forall l :: 0 <= l < |spawned| ==> after[|rest| + l] == spawned[l];
    assert forall l :: |rest| + |spawned| <= l < |after| ==> after[l] == again[l - |rest| - |spawned|];
    assert NoneEnrols(events, k) ==> NoneEnrols(rest, k);
    if NoneEnrols(after, k) {
      NothingPending(events, i, rest, k);
      forall l | 0 <= l < |spawned| ensures !Enrols(spawned[l], k) {
        assert after[|rest| + l] == spawned[l];
      }
    }
  }

  lemma NothingPending(events: seq<Event>, i: nat, rest: seq<Event>, k: Key)
    requires i < |events| && !Enrols(events[i], k) && rest == events[..i] + events[i + 1..]
    ensures (forall l :: 0 <= l < |rest| ==> !Enrols(rest[l], k)) ==> NoneEnrols(events, k)
  {
    hide Enrols;
    forall j | 0 <= j < |events| && (forall l :: 0 <= l < |rest| ==> !Enrols(rest[l], k))
      ensures !Enrols(events[j], k)
    {
      if j != i {
        assert events[j] == rest[if j < i then j else j - 1];
      }
    }
  }

  /** Nothing is ruled on k while what was ruled before is still to be delivered. */
  predicate Waits(sys: System, i: nat, k: Key)
    requires i < |sys.queue|
  {
    Asks(sys.queue[i].event, k) ==> NoneEnrols(Events(sys.queue), k)
  }

  function RuledBy(cfg: Config, st: State, ev: Event, k: Key, was: bool): bool {
    if Asks(ev, k) then Ruling(cfg, st, ev, k) else was
  }

  lemma RuledNotHeadless(cfg: Config, sys: System, i: nat)
    requires Tracking(cfg, sys) && i < |sys.queue|
    ensures Expected(sys.queue[i].event) && (Decides(sys.queue[i].event) ==> !Headless(sys.queue[i].event.svc))
  {
    hide Consistent, AllBase, Progress, Headless, Orderly, ViewAt, Desired;
    var ev := sys.queue[i].event;
    OrderlyAt(cfg, sys.remote, sys.st, Events(sys.queue), i);
    if Decides(ev) {
      assert About(ev, ev.key);
    }
  }

  lemma HandledLocally(cfg: Config, sys: System, i: nat, env: Env)
    requires Tracking(cfg, sys) && Welcome(cfg, sys, i, env) && !FederatedLike(cfg.link.cluster)
    ensures var pre := sys.st; var out := Handle(cfg, sys.remote, env, pre, sys.queue[i].event);
            && pre.namespaces <= out.st.namespaces && (out.st.namespaces == pre.namespaces || cfg.namespaceCreation)
            && (out.outcome == Retry ==> Neutral(out.event))
  {
    hide Handle, Consistent, Orderly, Progress, AllBase, Succeeds, Routable, RemoteOk, FederatedLike, Neutral, Polite;
    hide Covers, Covered, InSync, ViewAt, Writes, AllHonest, About, Apt;
    OrderlyAt(cfg, sys.remote, sys.st, Events(sys.queue), i);
    HandleLocal(cfg, sys.remote, env, sys.st, sys.queue[i].event);
  }

  lemma StepSettles(cfg: Config, sys: System, i: nat, env: Env, k: Key, was: bool)
    requires Tracking(cfg, sys) && Welcome(cfg, sys, i, env) && !FederatedLike(cfg.link.cluster) && Named(cfg, k)
    requires Settling(cfg, sys.st, Events(sys.queue), k, was) && Fleet.UnmarkedAt(sys.st, k) && Waits(sys, i, k)
    ensures var next := Step(cfg, sys, i, env);
            && Settling(cfg, next.st, Events(next.queue), k, RuledBy(cfg, sys.st, sys.queue[i].event, k, was))
            && Fleet.UnmarkedAt(next.st, k)
  {
    hide Handle, Step, Tracking, FederatedLike, Settling, Polite, Routable, Succeeds, Named, Ruling, Enlisted;
    hide Fleet.UnmarkedAt, Fleet.SameService, Delivers, Neutral, FederatedKey, NoneEnrols, Asks, Enrols;
    var ev := sys.queue[i].event;
    var out := Handle(cfg, sys.remote, env, sys.st, ev);
    var next := Step(cfg, sys, i, env);
    StepParts(cfg, sys, i, env);
    HandledLocally(cfg, sys, i, env);
    var settled := out.st;
    var after := Events(next.queue);
    if Enrols(ev, k) {
      DeliversAt(cfg, sys.st, Events(sys.queue), i, k, was);
      DeliveryEnds(cfg, sys.remote, env, sys.st, ev, k, was);
      DeliveryUnmarked(cfg, sys.remote, env, sys.st, ev, k, was);
      DeliveredQueue(cfg, sys.st, settled, Events(sys.queue), i, k, was);
      EnrolsAsksNothing(ev, k);
      assert after == Events(sys.queue)[..i] + Events(sys.queue)[i + 1..];
    } else {
      OtherSettles(cfg, sys, i, env, k, was, after);
    }
    SettlingDependsOnObject(cfg, settled, next.st, after, k, RuledBy(cfg, sys.st, ev, k, was));
    DeliversDependsOnObject(cfg, settled, next.st, ev, k, was);
  }

  lemma EnrolsAsksNothing(ev: Event, k: Key)
    requires Enrols(ev, k)
    ensures !Asks(ev, k)
  {
  }

  lemma DeliversAt(cfg: Config, st: State, events: seq<Event>, i: nat, k: Key, ruled: bool)
    requires Settling(cfg, st, events, k, ruled) && i < |events| && Enrols(events[i], k)
    ensures Delivers(cfg, st, events[i], k, ruled)
  {
    hide Enrols, Delivers, Enlisted;
  }

  lemma StepParts(cfg: Config, sys: System, i: nat, env: Env)
    requires i < |sys.queue|
    ensures var out := Handle(cfg, sys.remote, env, sys.st, sys.queue[i].event); var next := Step(cfg, sys, i, env);
            && next.st == out.st.(now := next.st.now)
            && Events(next.queue) == Events(sys.queue)[..i] + Events(sys.queue)[i + 1..] + out.spawned
                                     + (if out.outcome == Retry && sys.queue[i].requeues < cfg.requeueLimit
                                        then [out.event] else [])
  {
    hide Handle;
  }

  lemma OtherSettles(cfg: Config, sys: System, i: nat, env: Env, k: Key, was: bool, after: seq<Event>)
    requires Tracking(cfg, sys) && Welcome(cfg, sys, i, env) && !FederatedLike(cfg.link.cluster)
    requires Settling(cfg, sys.st, Events(sys.queue), k, was) && Fleet.UnmarkedAt(sys.st, k) && Waits(sys, i, k)
    requires !Enrols(sys.queue[i].event, k) && after == Events(Step(cfg, sys, i, env).queue)
    ensures var out := Handle(cfg, sys.remote, env, sys.st, sys.queue[i].event);
            && Settling(cfg, out.st, after, k, RuledBy(cfg, sys.st, sys.queue[i].event, k, was))
            && Fleet.UnmarkedAt(out.st, k)
  {
    hide Handle, Step, Tracking, FederatedLike, Settling, Polite, Routable, Succeeds, Ruling, Enlisted, Expected;
    hide Fleet.UnmarkedAt, Fleet.SameService, Delivers, Neutral, FederatedKey, NoneEnrols, Asks, Enrols, Headless;
    var ev := sys.queue[i].event;
    var out := Handle(cfg, sys.remote, env, sys.st, ev);
    var ruled := RuledBy(cfg, sys.st, ev, k, was);
    var again := if out.outcome == Retry && sys.queue[i].requeues < cfg.requeueLimit then [out.event] else [];
    StepParts(cfg, sys, i, env);
    HandledLocally(cfg, sys, i, env);
    RuledNotHeadless(cfg, sys, i);
    ObjectStays(cfg, sys.remote, env, sys.st, ev, k);
    SuccessIsValid(env);
    assert NoneEnrols(again, k) by { OneEnrolsNot(again, out.event, k); }
    if Asks(ev, k) {
      RulingSettles(cfg, sys.remote, env, sys.st, ev, k);
    } else {
      OthersQueueNothing(cfg, sys.remote, env, sys.st, ev, k);
    }
    QueueSettles(cfg, sys.st, Events(sys.queue), i, out.spawned, again, k, was, ruled);
    SettlingDependsOnObject(cfg, sys.st, out.st, after, k, ruled);
    DeliversDependsOnObject(cfg, sys.st, out.st, ev, k, was);
  }

  lemma OneEnrolsNot(again: seq<Event>, ev: Event, k: Key)
    requires !Enrols(ev, k) && (again == [] || again == [ev])
    ensures NoneEnrols(again, k)
  {
    hide Enrols;
  }

  /* ---------- whole runs ---------- */

  /** A namespace appears, and k is ruled on, only when nothing ruled on k is still to be delivered. */
  predicate Patient(sys: System, action: Action, k: Key) {
    match action
    case Accept(input, _) => input == NamespaceAppears(k.ns) ==> NoneEnrols(Events(sys.queue), k)
    case Perform(choice) => choice.index < |sys.queue| && Waits(sys, choice.index, k)
  }

  ghost predicate Patiently(cfg: Config, sys: System, actions: seq<Action>, k: Key)
    requires Proceeds(cfg, sys, actions)
    decreases |actions|
  {
    actions == [] || (Patient(sys, actions[0], k) && Patiently(cfg, Apply(cfg, sys, actions[0]), actions[1..], k))
  }

  /** What is ruled by one action: a restart forgets what is queued. */
  ghost function RuledAfter(cfg: Config, sys: System, action: Action, k: Key, was: bool): bool
    requires Suits(cfg, sys, action)
  {
    match action
    case Accept(input, _) => if input.Restart? then Enlisted(cfg, sys.st, k) else was
    case Perform(choice) => RuledBy(cfg, sys.st, sys.queue[choice.index].event, k, was)
  }

  /** The last ruling on k in a run. */
  ghost function LastRuling(cfg: Config, sys: System, actions: seq<Action>, k: Key, was: bool): bool
    requires Proceeds(cfg, sys, actions)
    decreases |actions|
  {
    if actions == [] then was
    else LastRuling(cfg, Apply(cfg, sys, actions[0]), actions[1..], k, RuledAfter(cfg, sys, actions[0], k, was))
  }

  lemma ReceiveSettles(cfg: Config, sys: System, input: Input, endpoints: map<Key, Endpoints>, k: Key, was: bool)
    requires Possible(cfg, sys, input) && Settling(cfg, sys.st, Events(sys.queue), k, was)
    requires Fleet.UnmarkedAt(sys.st, k) && Patient(sys, Accept(input, endpoints), k)
    ensures var next := Receive(sys, input, endpoints);
            && Settling(cfg, next.st, Events(next.queue), k, if input.Restart? then Enlisted(cfg, sys.st, k) else was)
            && Fleet.UnmarkedAt(next.st, k)
  {
    hide Settling, Unreused, Headless, Quiet, Collecting, FederatedKey, Lists, Delivers, NoneEnrols, Enrols;
    var next := Receive(sys, input, endpoints);
    if input.Restart? {
      assert Events(next.queue) == input.events;
      InitialEnrolsNothing(input.services, input.events, k);
      SettlesWith(cfg, next.st, input.events, [], k, Enlisted(cfg, sys.st, k));
      assert input.events + [] == input.events;
    } else {
      ReportIsLast(sys, input, endpoints);
      ReportSettles(cfg, sys, next.st, input, k, was);
    }
  }

  lemma InitialEnrolsNothing(services: map<Key, Service>, events: seq<Event>, k: Key)
    requires Initial(services, events)
    ensures NoneEnrols(events, k)
  {
  }

  lemma ReportSettles(cfg: Config, sys: System, post: State, input: Input, k: Key, was: bool)
    requires Settling(cfg, sys.st, Events(sys.queue), k, was) && !input.Restart?
    requires input.RemoteDelete? ==> input.key in sys.remote.services
    requires post.services == sys.st.services
    requires post.namespaces == sys.st.namespaces + (if input.NamespaceAppears? then {input.ns} else {})
    requires input == NamespaceAppears(k.ns) ==> NoneEnrols(Events(sys.queue), k)
    ensures Settling(cfg, post, Events(sys.queue) + [Report(sys, input)], k, was)
  {
    hide FederatedKey, Lists, Headless;
    var events := Events(sys.queue);
    var after := events + [Report(sys, input)];
    assert forall i :: 0 <= i < |events| ==> after[i] == events[i];
    assert !Enrols(after[|events|], k);
    if NoneEnrols(after, k) {
      assert forall i :: 0 <= i < |events| ==> !Enrols(after[i], k);
    }
  }

  lemma {:induction false} RunSettles(cfg: Config, sys: System, actions: seq<Action>, k: Key, was: bool)
    requires Tracking(cfg, sys) && Proceeds(cfg, sys, actions) && Patiently(cfg, sys, actions, k)
    requires Settling(cfg, sys.st, Events(sys.queue), k, was) && Fleet.UnmarkedAt(sys.st, k)
    requires !FederatedLike(cfg.link.cluster) && Named(cfg, k)
    ensures var end := Reached(cfg, sys, actions);
            Settling(cfg, end.st, Events(end.queue), k, LastRuling(cfg, sys, actions, k, was))
    decreases |actions|
  {
    hide Tracking, Settling, Fleet.UnmarkedAt, FederatedLike, Named, Step, Receive, Smooth, Polite, Asks;
    hide NoneEnrols, Ruling, Enlisted, Initial, Unreused, Headless, Quiet, Collecting;
    if actions != [] {
      match actions[0] {
        case Accept(input, endpoints) => ReceiveSettles(cfg, sys, input, endpoints, k, was);
        case Perform(choice) => StepSettles(cfg, sys, choice.index, choice.env, k, was);
      }
      ActionTracks(cfg, sys, actions[0]);
      RunSettles(cfg, Apply(cfg, sys, actions[0]), actions[1..], k, RuledAfter(cfg, sys, actions[0], k, was));
    }
  }

  /** In every run in which nothing fails, nothing is decided upon too early, and no one else writes the federated
      service of k: whenever no federated event for k is queued, its cluster is listed exactly if the last ruling on
      k says so. A decision rules for a service that matches the federated selector, unless it only exports it; then
      the listing stays as it is until the service is reported again. */
  lemma ListedAsRuled(cfg: Config, sys: System, actions: seq<Action>, k: Key)
    requires Tracking(cfg, sys) && Proceeds(cfg, sys, actions) && Patiently(cfg, sys, actions, k)
    requires NoneEnrols(Events(sys.queue), k) && Fleet.UnmarkedAt(sys.st, k)
    requires !FederatedLike(cfg.link.cluster) && Named(cfg, k)
    ensures var end := Reached(cfg, sys, actions);
            NoneEnrols(Events(end.queue), k) ==>
              (Enlisted(cfg, end.st, k) <==> LastRuling(cfg, sys, actions, k, Enlisted(cfg, sys.st, k)))
  {
    hide Tracking, Proceeds, Patiently, Fleet.UnmarkedAt, FederatedLike, Named, NoneEnrols, Enlisted, LastRuling;
    hide Reached;
    SettlingAtStart(cfg, sys.st, Events(sys.queue), k);
    RunSettles(cfg, sys, actions, k, Enlisted(cfg, sys.st, k));
  }

  lemma SettlingAtStart(cfg: Config, st: State, events: seq<Event>, k: Key)
    requires NoneEnrols(events, k)
    ensures Settling(cfg, st, events, k, Enlisted(cfg, st, k))
  {
    hide Enrols, Delivers, Enlisted;
  }

  /* ---------- draining between inputs ---------- */

  /** What the event queues, or what that queues, may rule on k. */
  predicate Source(ev: Event, k: Key) {
    Asks(ev, k) || ReportsNamespaceOf(ev, k)
  }

  /** Where something is still to be delivered, nothing more is going to be ruled. */
  ghost predicate Clear(events: seq<Event>) {
    forall i, j, k :: 0 <= i < |events| && 0 <= j < |events| && Enrols(events[i], k) ==> !Source(events[j], k)
  }

  lemma SpawnsClear(cfg: Config, remote: Remote, env: Env, st: State, ev: Event, e: Event, k: Key)
    requires ValidEnv(env) && Expected(ev) && e in Handle(cfg, remote, env, st, ev).spawned
    ensures Enrols(e, k) ==> Asks(ev, k)
    ensures Source(e, k) ==> ReportsNamespaceOf(ev, k)
  {
    hide Handle, ValidEnv, Expected;
    SpawnShape(cfg, remote, env, st, ev);
    if Enrols(e, k) && !Asks(ev, k) {
      OthersQueueNothing(cfg, remote, env, st, ev, k);
    } else if Source(e, k) {
      SpawnsLone(cfg, remote, env, st, ev);
      var spawned := Handle(cfg, remote, env, st, ev).spawned;
      var i :| 0 <= i < |spawned| && spawned[i] == e;
      assert !Leaf(e);
      assert ev.NamespaceAdded?;
      assert Touches(spawned[i], k);
      assert Touches(ev, k);
    }
  }

  lemma ReplacedClear(cfg: Config, remote: Remote, env: Env, st: State, events: seq<Event>, i: nat, again: seq<Event>,
                      after: seq<Event>)
    requires ValidEnv(env) && i < |events| && Expected(events[i]) && Lone(events) && Clear(events)
    requires var out := Handle(cfg, remote, env, st, events[i]);
             && after == events[..i] + events[i + 1..] + out.spawned + again
             && (again == [] || (again == [out.event] && Neutral(events[i])))
    ensures Clear(after)
  {
    hide Handle, ValidEnv, Expected, Enrols, Source, Asks, Neutral, Touches;
    var ev := events[i];
    var out := Handle(cfg, remote, env, st, ev);
    var rest := events[..i] + events[i + 1..];
    forall a, b, k | 0 <= a < |after| && 0 <= b < |after| && Enrols(after[a], k) ensures !Source(after[b], k) {
      QueueOrigin(rest, out.spawned, again, events, i, a);
      QueueOrigin(rest, out.spawned, again, events, i, b);
      SourceFacts(ev, k);
      SourceFacts(after[b], k);
      if after[b] in again {
        NeutralIsNoSource(cfg, remote, env, st, ev, k);
      } else if after[a] in again {
        NeutralIsNoSource(cfg, remote, env, st, ev, k);
        assert out.spawned == [] by { SpawnShape(cfg, remote, env, st, ev); NeutralIsLeaf(ev); }
      } else {
        if b >= |rest| { SpawnsClear(cfg, remote, env, st, ev, after[b], k); }
        if a >= |rest| { SpawnsClear(cfg, remote, env, st, ev, after[a], k); }
      }
    }
  }

  lemma NeutralIsLeaf(ev: Event)
    requires Neutral(ev)
    ensures Leaf(ev)
  {
  }

  lemma SourceFacts(ev: Event, k: Key)
    ensures Source(ev, k) ==> Touches(ev, k)
    ensures Asks(ev, k) ==> Source(ev, k) && !ReportsNamespaceOf(ev, k)
    ensures ReportsNamespaceOf(ev, k) ==> Source(ev, k)
  {
  }

  lemma NeutralIsNoSource(cfg: Config, remote: Remote, env: Env, st: State, ev: Event, k: Key)
    requires Neutral(ev)
    ensures var out := Handle(cfg, remote, env, st, ev);
            !Source(out.event, k) && (Enrols(out.event, k) ==> Enrols(ev, k))
  {
    hide Handle;
    Fleet.NeutralKeepsClock(cfg, remote, env, st, ev);
  }

  lemma StepStaysClear(cfg: Config, sys: System, i: nat, env: Env)
    requires Tracking(cfg, sys) && i < |sys.queue| && Smooth(cfg, env, sys.queue[i].event)
    requires Lone(Events(sys.queue)) && Clear(Events(sys.queue)) && !FederatedLike(cfg.link.cluster)
    ensures Welcome(cfg, sys, i, env) && forall k :: Waits(sys, i, k)
    ensures Lone(Events(Step(cfg, sys, i, env).queue)) && Clear(Events(Step(cfg, sys, i, env).queue))
  {
    hide Handle, Step, Tracking, FederatedLike, Lone, Clear, Polite, Routable, Succeeds, Neutral, Asks, Expected;
    hide NoneEnrols, Headless;
    var ev := sys.queue[i].event;
    var out := Handle(cfg, sys.remote, env, sys.st, ev);
    StepStaysLone(cfg, sys, i, env);
    StepParts(cfg, sys, i, env);
    HandledLocally(cfg, sys, i, env);
    RuledNotHeadless(cfg, sys, i);
    SuccessIsValid(env);
    if out.outcome == Retry && !Neutral(ev) {
      Fleet.EventStays(cfg, sys.remote, env, sys.st, ev);
      UpdatesAreNotNeutral(ev, out.event);
    }
    var again := if out.outcome == Retry && sys.queue[i].requeues < cfg.requeueLimit then [out.event] else [];
    ReplacedClear(cfg, sys.remote, env, sys.st, Events(sys.queue), i, again, Events(Step(cfg, sys, i, env).queue));
    forall k ensures Waits(sys, i, k) {
      ClearWaits(Events(sys.queue), i, k);
    }
  }

  lemma UpdatesAreNotNeutral(ev: Event, again: Event)
    requires !Neutral(ev) && if ev.Updated? then again.Updated? else again == ev
    ensures !Neutral(again)
  {
  }

  lemma ClearWaits(events: seq<Event>, i: nat, k: Key)
    requires Clear(events) && i < |events|
    ensures Asks(events[i], k) ==> NoneEnrols(events, k)
  {
    hide Enrols, Asks;
    if Asks(events[i], k) {
      assert Source(events[i], k);
    }
  }

  lemma {:induction false} RoundsArePatient(cfg: Config, sys: System, actions: seq<Action>, k: Key)
    requires Tracking(cfg, sys) && Lone(Events(sys.queue)) && Clear(Events(sys.queue)) && Rounds(cfg, sys, actions)
    requires !FederatedLike(cfg.link.cluster) && Proceeds(cfg, sys, actions)
    ensures Patiently(cfg, sys, actions, k)
    decreases |actions|
  {
    hide Tracking, Lone, Clear, Step, Receive, FederatedLike, Smooth, Polite, Unreused, Headless, Quiet, Collecting;
    hide Asks, NoneEnrols, Enrols, Waits, Initial;
    if actions != [] {
      match actions[0] {
        case Accept(input, endpoints) =>
          AcceptedIsLone(cfg, sys, input, endpoints);
          AcceptedIsClear(cfg, sys, input, endpoints, k);
        case Perform(choice) =>
          StepStaysClear(cfg, sys, choice.index, choice.env);
      }
      ActionTracks(cfg, sys, actions[0]);
      RoundsArePatient(cfg, Apply(cfg, sys, actions[0]), actions[1..], k);
    }
  }

  lemma AcceptedIsClear(cfg: Config, sys: System, input: Input, endpoints: map<Key, Endpoints>, k: Key)
    requires Possible(cfg, sys, input) && InRounds(sys, input)
    ensures Patient(sys, Accept(input, endpoints), k) && Clear(Events(Receive(sys, input, endpoints).queue))
  {
    hide Unreused, Headless, Quiet, Lone;
    if input.Restart? {
      assert Events(Receive(sys, input, endpoints).queue) == input.events;
      StartIsClear(input.services, input.events);
    } else {
      ReportIsLast(sys, input, endpoints);
    }
  }

  lemma StartIsClear(services: map<Key, Service>, events: seq<Event>)
    requires Initial(services, events)
    ensures Clear(events)
  {
    forall i, k | 0 <= i < |events| ensures !Enrols(events[i], k) {
      InitialEnrolsNothing(services, events, k);
    }
  }

  /** Where the queue drains between inputs and no one else writes the federated service, whatever the order of
      events in a round: when the queue is empty, the cluster is listed exactly if the last ruling on k says so. */
  lemma DrainedListing(cfg: Config, sys: System, actions: seq<Action>, k: Key)
    requires Tracking(cfg, sys) && sys.queue == [] && Rounds(cfg, sys, actions)
    requires !FederatedLike(cfg.link.cluster) && Named(cfg, k) && Fleet.UnmarkedAt(sys.st, k)
    ensures Proceeds(cfg, sys, actions)
    ensures var end := Reached(cfg, sys, actions);
            end.queue == [] ==>
              (Enlisted(cfg, end.st, k) <==> LastRuling(cfg, sys, actions, k, Enlisted(cfg, sys.st, k)))
  {
    hide Tracking, Proceeds, Patiently, Fleet.UnmarkedAt, FederatedLike, Named, Enlisted, LastRuling, Reached, Rounds;
    hide Runs;
    LoneIsOrdered(Events(sys.queue));
    RoundsRun(cfg, sys, actions);
    RunsProceed(cfg, sys, actions);
    RoundsArePatient(cfg, sys, actions, k);
    ListedAsRuled(cfg, sys, actions, k);
  }

  /* ---------- the second report ---------- */

  /** Both selectors match a service that is new here, and nothing is there under its federated name. */
  ghost predicate NewMember(cfg: Config, sys: System, k: Key, svc: Service) {
    && sys.queue == [] && k !in sys.remote.services && !Headless(svc)
    && Desired(cfg.link, svc.labels) && IsFederatedMember(cfg.link, svc.labels)
    && Available(cfg, sys.st, k.ns) && FederatedKey(k) !in sys.st.services
  }

  lemma OnlyExports(cfg: Config, remote: Remote, env: Env, st: State, ev: Event)
    requires Succeeds(env) && Decides(ev) && ExportsFirst(cfg, st, ev.key, ev.svc)
    ensures Handle(cfg, remote, env, st, ev) == Out(st, [Exported(ev.key, ev.svc)], Done, ev)
  {
    hide Desired, MirrorKey, FederatedDecision;
    CallSucceeds(env, GetService(MirrorKey(cfg.link, ev.key)));
  }

  lemma OnlyCreates(cfg: Config, remote: Remote, env: Env, st: State, ev: Event)
    requires Succeeds(env) && Decides(ev) && IsFederatedMember(cfg.link, ev.svc.labels)
    requires Desired(cfg.link, ev.svc.labels) && Reflects(cfg, ev.key, ev.svc, ViewAt(cfg, st, ev.key))
    requires FederatedKey(ev.key) !in st.services
    ensures Handle(cfg, remote, env, st, ev) == Out(st, [CreateFederated(ev.key, ev.svc)], Done, ev)
  {
    hide Desired, IsFederatedMember, MirrorKey, FederatedKey, MirrorLabels, MirrorAnnotations, RemapPorts, FormatNat;
    hide IsRemoteDiscovery, Reported;
    assert forall c :: env.ok(c);
    RecordedVersion(cfg.link, ev.key, ev.svc);
  }

  /** The new member is exported and not listed. */
  lemma FirstReport(cfg: Config, sys: System, env: Env, k: Key, svc: Service, endpoints: map<Key, Endpoints>)
    returns (once: System)
    requires Tracking(cfg, sys) && NewMember(cfg, sys, k, svc) && !FederatedLike(cfg.link.cluster)
    requires Succeeds(env) && Routable(cfg, env, svc)
    ensures once == InOrder(cfg, Receive(sys, RemoteAdd(k, svc), endpoints), env, 2)
    ensures once.queue == [] && k in once.remote.services && once.remote.services[k] == svc
    ensures Reflects(cfg, k, svc, ViewAt(cfg, once.st, k)) && k.ns in once.st.namespaces
    ensures FederatedKey(k) !in once.st.services
  {
    hide Handle, HandleExported, Step, InOrder, ViewAt, Reflects, Succeeds, Routable, Headless, Desired, Tracking;
    hide IsFederatedMember, FederatedKey, MirrorKey, FederatedLike;
    var s0 := Receive(sys, RemoteAdd(k, svc), endpoints);
    NothingThere(cfg, sys, k);
    var ev := OnAdd(k, svc);
    assert s0.queue == [Item(sys.nextId, ev, 0)];
    FirstStep(cfg, s0, env);
    OnlyExports(cfg, s0.remote, env, s0.st, ev);
    var s1 := Step(cfg, s0, 0, env);
    assert s1.queue == [Item(s0.nextId, Exported(k, svc), 0)];
    FirstStep(cfg, s1, env);
    once := Step(cfg, s1, 0, env);
    ViewIgnoresClock(cfg, s0.st, s1.st.now, k);
    ExportIsHandled(cfg, s1.remote, env, s1.st, k, svc);
    ExportSucceeds(cfg, s1.remote, env, s1.st, k, svc);
    ViewIgnoresClock(cfg, HandleExported(cfg, s1.remote, env, s1.st, k, svc).0, once.st.now, k);
    ExportLeavesObject(cfg, s1.remote, env, s1.st, k, svc);
    InOrderUnfolds(cfg, s0, env);
    InOrderUnfolds(cfg, s1, env);
    InOrderUnfolds(cfg, once, env);
  }

  lemma ExportLeavesObject(cfg: Config, remote: Remote, env: Env, st: State, k: Key, svc: Service)
    requires !FederatedLike(cfg.link.cluster) && FederatedKey(k) !in st.services
    ensures FederatedKey(k) !in Handle(cfg, remote, env, st, Exported(k, svc)).st.services
  {
    hide Handle, FederatedKey, FederatedLike;
    ObjectStays(cfg, remote, env, st, Exported(k, svc), k);
  }

  lemma NothingThere(cfg: Config, sys: System, k: Key)
    requires Tracking(cfg, sys) && sys.queue == [] && k !in sys.remote.services
    ensures ViewAt(cfg, sys.st, k).svc.None? && ViewAt(cfg, sys.st, k).ep.None?
    ensures MirrorKey(cfg.link, k) !in sys.st.services
  {
    hide Consistent, Orderly, AllBase, Desired, Reflects, MirrorKey, Reported;
    assert InSync(cfg, sys.remote, sys.st, k) || Covered(cfg, sys.remote, sys.st, Events(sys.queue), k);
  }

  /** A new service that both selectors match is exported at its first report and listed only at its second, which
      may report it unchanged. */
  lemma SecondReportEnrols(cfg: Config, sys: System, env: Env, k: Key, svc: Service, endpoints: map<Key, Endpoints>)
    requires Tracking(cfg, sys) && NewMember(cfg, sys, k, svc) && !FederatedLike(cfg.link.cluster) && Named(cfg, k)
    requires Succeeds(env) && Routable(cfg, env, svc)
    ensures var once := InOrder(cfg, Receive(sys, RemoteAdd(k, svc), endpoints), env, 2);
            var twice := InOrder(cfg, Receive(once, RemoteUpdate(k, svc), endpoints), env, 2);
            && once.queue == [] && InSync(cfg, once.remote, once.st, k) && !Enlisted(cfg, once.st, k)
            && twice.queue == [] && Enlisted(cfg, twice.st, k)
  {
    hide Handle, HandleCreateFederated, Step, InOrder, ViewAt, Reflects, Succeeds, Routable, Headless, Desired;
    hide IsFederatedMember, FederatedKey, MirrorKey, FederatedLike, Tracking, Lists, Named;
    var once := FirstReport(cfg, sys, env, k, svc, endpoints);
    var s0 := Receive(once, RemoteUpdate(k, svc), endpoints);
    var ev := OnUpdate(k, svc);
    assert s0.queue == [Item(once.nextId, ev, 0)];
    FirstStep(cfg, s0, env);
    OnlyCreates(cfg, s0.remote, env, s0.st, ev);
    var s1 := Step(cfg, s0, 0, env);
    assert s1.queue == [Item(s0.nextId, CreateFederated(k, svc), 0)];
    FirstStep(cfg, s1, env);
    CreateIsHandled(cfg, s1.remote, env, s1.st, k, svc);
    CreateEnrols(cfg, env, s1.st, k, svc);
    var twice := Step(cfg, s1, 0, env);
    InOrderUnfolds(cfg, s0, env);
    InOrderUnfolds(cfg, s1, env);
    InOrderUnfolds(cfg, twice, env);
  }

  lemma CreateIsHandled(cfg: Config, remote: Remote, env: Env, st: State, k: Key, svc: Service)
    ensures var ev := CreateFederated(k, svc);
            Handle(cfg, remote, env, st, ev) == Plain(HandleCreateFederated(cfg, env, st, k, svc), ev)
  {
    hide HandleCreateFederated;
  }
}
