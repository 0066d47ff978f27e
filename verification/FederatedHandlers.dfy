/** The watcher's federated handlers take exactly the steps of the membership protocol. */
module FederatedHandlers {
  import opened Strings
  import opened Kubernetes
  import opened Mirror
  import opened StatusList
  import opened Federation
  import opened Api
  import opened Handlers
  import M = Membership

  type State = Api.State

  /** The federated service of k as the protocol sees it, with the joins queued for it anywhere. */
  function Project(st: State, k: Key, joins: seq<M.PendingJoin>): M.State {
    M.State(if FederatedKey(k) in st.services then Some(st.services[FederatedKey(k)]) else None, st.now, joins)
  }

  function Later(st: State): State {
    st.(now := st.now + 1)
  }

  /** The namespace is there and the create call goes through. */
  predicate CreateGoesThrough(cfg: Config, env: Env, st: State, k: Key) {
    EnsureNamespace(cfg, env, st, k.ns).1 == Present && env.ok(CreateServiceCall(FederatedKey(k)))
  }

  lemma CreateFollows(cfg: Config, env: Env, st: State, k: Key, svc: Service, joins: seq<M.PendingJoin>)
    requires !Headless(svc)
    ensures var step := M.TryCreate(cfg.link.cluster, svc, env.assignIP(FederatedKey(k)),
                                    CreateGoesThrough(cfg, env, st, k));
            Project(Later(HandleCreateFederated(cfg, env, st, k, svc).0), k, joins)
              == M.Exec(k.name, Project(st, k, joins), step).0
  {
    hide FederatedKey, CommonLabels, CreatedAnnotations, RemapPorts, Update, Mirrored, Failure;
    assert FederatedKey(k).ns == k.ns by { FederatedNamespace(k); }
  }

  lemma FederatedNamespace(k: Key)
    ensures FederatedKey(k).ns == k.ns
  {
  }

  /** A join that is not committed leaves its edits in the queued event; one that meets a copy without annotations
      is lost. */
  lemma JoinFollows(cfg: Config, env: Env, st: State, ev: Event, joins: seq<M.PendingJoin>, i: nat)
    requires ev.JoinFederated? && !Headless(ev.svc)
    requires i < |joins| && joins[i] == M.PendingJoin(cfg.link.cluster, ev.local)
    ensures var out := HandleJoin(cfg, env, st, ev); var fk := FederatedKey(ev.key);
            && out.event.JoinFederated?
            && (var after := if out.outcome == Done || out.outcome == Crash then M.Remove(joins, i)
                             else joins[i := M.PendingJoin(cfg.link.cluster, out.event.local)];
                Project(Later(out.st), ev.key, after)
                == M.Exec(ev.key.name, Project(st, ev.key, joins), M.TryJoin(i, env.ok(UpdateServiceCall(fk)))).0)
  {
    hide FederatedKey, JoinedAnnotations, Update, Mirrored, Failure;
  }

  /** The calls that a leave makes go through. */
  predicate LeaveGoesThrough(cfg: Config, env: Env, st: State, k: Key) {
    var fk := FederatedKey(k);
    && env.ok(GetService(fk))
    && (fk in st.services ==>
          match LeftAnnotations(cfg.link.cluster, k.name, st.services[fk].annotations)
          case None => true
          case Some(a) => if NoMembers(a) then env.ok(DeleteServiceCall(fk)) else env.ok(UpdateServiceCall(fk)))
  }

  lemma LeaveFollows(cfg: Config, env: Env, st: State, k: Key, joins: seq<M.PendingJoin>)
    ensures var step := M.TryLeave(cfg.link.cluster, LeaveGoesThrough(cfg, env, st, k));
            Project(Later(HandleLeave(cfg, env, st, k).0), k, joins) == M.Exec(k.name, Project(st, k, joins), step).0
  {
    hide FederatedKey, LeftAnnotations, NoMembers, Delete;
  }

  /** Deciding on a member whose federated service exists queues a join with the current object, or is
      preceded by a new export that comes first. */
  lemma ObserveFollows(cfg: Config, env: Env, st: State, k: Key, svc: Service, joins: seq<M.PendingJoin>)
    requires IsFederatedMember(cfg.link, svc.labels) && env.ok(GetService(FederatedKey(k)))
    ensures var (st', events, outcome) := FederatedDecision(cfg, env, st, k, svc);
            && st' == st && outcome == Done
            && events == (if FederatedKey(k) in st.services then [JoinFederated(k, st.services[FederatedKey(k)], svc)]
                          else [CreateFederated(k, svc)])
            && M.Exec(k.name, Project(st, k, joins), M.Observe(cfg.link.cluster)).0.joins ==
                 joins + (if events[0].JoinFederated? then [M.PendingJoin(cfg.link.cluster, events[0].local)] else [])
  {
    hide FederatedKey, IsFederatedMember;
  }
}
