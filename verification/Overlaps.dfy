/** Two queued events that rely on how one mirror was found. The first makes the second stale: an export then takes
    the mirror away again, and an update does so for good. */
module Overlaps {
  import opened Strings
  import opened Kubernetes
  import opened Mirror
  import opened StatusList
  import opened Api
  import opened Handlers
  import opened Machine
  import opened Liveness
  import opened Refinement
  import opened Drained

  type State = Api.State

  /* ---------- when creating gateway endpoints takes the mirror away ---------- */

  /** The endpoints could be computed but not created, and the rollback goes through. */
  predicate RollsBack(cfg: Config, env: Env, st: State, k: Key) {
    var mk := MirrorKey(cfg.link, k);
    && env.ok(RemoteGetEndpoints(k))
    && ResolveGateway(cfg.link, env.lookup).Some? && ParseInt(cfg.link.gatewayPort, HALF_32).Some?
    && (!env.ok(CreateEndpointsCall(mk)) || k.ns !in st.namespaces || mk in st.endpoints)
    && env.ok(DeleteServiceCall(mk))
  }

  lemma RollbackTakesMirror(cfg: Config, remote: Remote, env: Env, st: State, k: Key, svc: Service)
    requires MirrorKey(cfg.link, k) in st.services
    ensures var (post, outcome) := CreateGatewayEndpoints(cfg, remote, env, st, k, svc);
            var mk := MirrorKey(cfg.link, k);
            && (mk !in post.services <==> RollsBack(cfg, env, st, k))
            && (mk !in post.services ==> mk !in post.endpoints && outcome == Retry)
  {
    hide ResolveGateway, ParseInt, NewGatewayEndpoints, ByLiveness, MirrorKey;
    SameNamespace(cfg, k);
  }

  /** The handler comes as far as the gateway endpoints of a mirror that was already there. */
  predicate ExportsOver(cfg: Config, env: Env, st: State, k: Key, svc: Service) {
    && !(cfg.headlessEnabled && Headless(svc)) && !IsRemoteDiscovery(cfg.link, svc.labels)
    && EnsureNamespace(cfg, env, st, k.ns).1 == Present && env.ok(CreateServiceCall(MirrorKey(cfg.link, k)))
  }

  /** An existing mirror is gone after an export exactly when the export is in gateway mode, its namespace and
      its gateway are there, its calls go through, and endpoints are there already or cannot be created. */
  lemma ExportTakesMirror(cfg: Config, remote: Remote, env: Env, st: State, k: Key, svc: Service)
    requires MirrorKey(cfg.link, k) in st.services
    ensures var (post, outcome) := HandleExported(cfg, remote, env, st, k, svc); var mk := MirrorKey(cfg.link, k);
            && (mk !in post.services <==>
                  ExportsOver(cfg, env, st, k, svc)
                  && RollsBack(cfg, env, EnsureNamespace(cfg, env, st, k.ns).0, k))
            && (mk !in post.services ==> mk !in post.endpoints && outcome == Retry)
  {
    hide MirrorKey, NewMirror, Stamp, IsRemoteDiscovery, CreateGatewayEndpoints, RollsBack, Mirrored, Failure, Headless;
    hide EnsureNamespace, Update;
    var mk := MirrorKey(cfg.link, k);
    assert mk.ns == k.ns by { SameNamespace(cfg, k); }
    EnsureNamespaceFacts(cfg, env, st, k.ns);
    var st1 := EnsureNamespace(cfg, env, st, k.ns).0;
    RollbackTakesMirror(cfg, remote, env, st1, k, svc);
  }

  /** With every call going through, an export of a service whose mirror is there ends without an error and without
      touching the mirror, whatever version that mirrors, exactly when it is stopped as headless, has no namespace to
      use, is in discovery mode, or finds no endpoints and a gateway for them. It also leaves the endpoints alone and
      reports the service as mirrored exactly when it is in discovery mode, not stopped, and has a namespace. */
  lemma ExportLeavesMirror(cfg: Config, remote: Remote, env: Env, st: State, k: Key, svc: Service)
    requires Succeeds(env) && ViewAt(cfg, st, k).svc.Some?
    ensures var (post, outcome) := HandleExported(cfg, remote, env, st, k, svc);
            var v, w := ViewAt(cfg, st, k), ViewAt(cfg, post, k);
            var stopped := cfg.headlessEnabled && Headless(svc);
            var usable := cfg.namespaceCreation || k.ns in st.namespaces;
            var discovery := IsRemoteDiscovery(cfg.link, svc.labels);
            && (outcome == Done && w.svc == v.svc <==>
                  stopped || !usable || discovery || (Resolves(cfg, env) && v.ep.None?))
            && (cfg.link.cluster != "" ==>
                  (outcome == Done && w.svc == v.svc && w.ep == v.ep && w.reported <==>
                     !stopped && usable && discovery))
  {
    hide HandleExported, MirrorKey, IsRemoteDiscovery, Headless, ViewAt, Resolves, PutMirrorStatus;
    hide CreateGatewayEndpoints, Mirrored, Failure;
    var mk := MirrorKey(cfg.link, k);
    FailureIsFalse(REASON_ERROR);
    FailureIsFalse(REASON_INVALID_SERVICE);
    FailureIsFalse(REASON_MISSING_NAMESPACE);
    MirroredIsTrue(mk);
    ExportOver(cfg, remote, env, st, k, svc);
    var st1 := st.(namespaces := st.namespaces + {k.ns});
    PutStatusView(cfg, st, k, Failure(REASON_INVALID_SERVICE));
    PutStatusView(cfg, st, k, Failure(REASON_MISSING_NAMESPACE));
    PutStatusView(cfg, st1, k, Mirrored(mk));
    ViewIgnoresNamespaces(cfg, st, st1.namespaces, k);
    var (st2, outcome) := CreateGatewayEndpoints(cfg, remote, env, st1, k, svc);
    PutStatusView(cfg, st2, k, if outcome == Done then Mirrored(mk) else Failure(REASON_ERROR));
    GatewayOver(cfg, remote, env, st1, k, svc);
  }

  /** What an export of a service with a mirror comes to when every call goes through. */
  lemma ExportOver(cfg: Config, remote: Remote, env: Env, st: State, k: Key, svc: Service)
    requires Succeeds(env) && ViewAt(cfg, st, k).svc.Some?
    ensures var r := HandleExported(cfg, remote, env, st, k, svc); var mk := MirrorKey(cfg.link, k);
            if cfg.headlessEnabled && Headless(svc) then
              r == (PutMirrorStatus(cfg, st, k, Failure(REASON_INVALID_SERVICE)), Done)
            else if cfg.namespaceCreation || k.ns in st.namespaces then
              var st1 := st.(namespaces := st.namespaces + {k.ns});
              if IsRemoteDiscovery(cfg.link, svc.labels) then r == (PutMirrorStatus(cfg, st1, k, Mirrored(mk)), Done)
              else
                var (st2, outcome) := CreateGatewayEndpoints(cfg, remote, env, st1, k, svc);
                r == (PutMirrorStatus(cfg, st2, k, if outcome == Done then Mirrored(mk) else Failure(REASON_ERROR)),
                      outcome)
            else r == (PutMirrorStatus(cfg, st, k, Failure(REASON_MISSING_NAMESPACE)), Done)
  {
    hide MirrorKey, NewMirror, IsRemoteDiscovery, CreateGatewayEndpoints, PutMirrorStatus, Mirrored, Failure, Headless;
    hide Reported, Stamp;
    assert MirrorKey(cfg.link, k).ns == k.ns by { SameNamespace(cfg, k); }
    assert forall c :: env.ok(c);
    if k.ns in st.namespaces {
      assert st.(namespaces := st.namespaces + {k.ns}) == st;
    }
  }

  lemma ViewIgnoresNamespaces(cfg: Config, st: State, namespaces: set<string>, k: Key)
    ensures ViewAt(cfg, st.(namespaces := namespaces), k) == ViewAt(cfg, st, k)
  {
    hide MirrorKey, Reported;
  }

  /** Creating gateway endpoints under an existing mirror leaves it alone exactly if it ends without an error. */
  lemma GatewayOver(cfg: Config, remote: Remote, env: Env, st: State, k: Key, svc: Service)
    requires Succeeds(env) && ViewAt(cfg, st, k).svc.Some? && k.ns in st.namespaces
    ensures var (post, outcome) := CreateGatewayEndpoints(cfg, remote, env, st, k, svc);
            var v, w := ViewAt(cfg, st, k), ViewAt(cfg, post, k);
            && (outcome == Done <==> Resolves(cfg, env) && v.ep.None?)
            && (outcome == Done ==> w.svc == v.svc && w.ep.Some?)
  {
    hide ResolveGateway, ParseInt, NewGatewayEndpoints, ByLiveness, MirrorKey, Reported;
    assert MirrorKey(cfg.link, k).ns == k.ns by { SameNamespace(cfg, k); }
    assert forall c :: env.ok(c);
  }

  /** An existing mirror is gone after an update exactly when the update is in gateway mode, was queued when the
      mirror had no endpoints, and finds some that are there already or cannot be created. No update, retried or
      not, brings a missing mirror back. */
  lemma UpdateTakesMirror(cfg: Config, remote: Remote, env: Env, st: State, ev: Event)
    requires ev.Updated?
    ensures var post := HandleUpdated(cfg, remote, env, st, ev).st; var mk := MirrorKey(cfg.link, ev.key);
            mk !in post.services <==>
              || mk !in st.services
              || (!IsRemoteDiscovery(cfg.link, ev.svc.labels) && ev.localEndpoints.None?
                  && RollsBack(cfg, env, st, ev.key))
  {
    hide ResolveGateway, EndpointPorts, IsRemoteDiscovery, MirrorKey, ByLiveness, GatewaySubsets, Update, RollsBack;
    hide UpdatedLocal, Mirrored, Failure, CreateGatewayEndpoints;
    if MirrorKey(cfg.link, ev.key) in st.services {
      RollbackTakesMirror(cfg, remote, env, st, ev.key, ev.svc);
    } else {
      RollbackBringsNothing(cfg, remote, env, st, ev.key, ev.svc);
    }
  }

  lemma RollbackBringsNothing(cfg: Config, remote: Remote, env: Env, st: State, k: Key, svc: Service)
    requires MirrorKey(cfg.link, k) !in st.services
    ensures MirrorKey(cfg.link, k) !in CreateGatewayEndpoints(cfg, remote, env, st, k, svc).0.services
  {
    hide ResolveGateway, ParseInt, NewGatewayEndpoints, ByLiveness, MirrorKey;
  }

  /* ---------- handling in order ---------- */

  lemma FirstStep(cfg: Config, sys: System, env: Env)
    requires sys.queue != []
    ensures var out := Handle(cfg, sys.remote, env, sys.st, sys.queue[0].event);
            Step(cfg, sys, 0, env) == System(sys.remote, out.st.(now := sys.st.now + 1),
              sys.queue[1..] + Fresh(out.spawned, sys.nextId) + Requeued(cfg, sys.queue[0], out),
              sys.nextId + |out.spawned|)
  {
    hide Handle, Fresh, Requeued;
    assert Drop(sys.queue, 0) == sys.queue[1..];
  }

  predicate DecidesNow(ev: Event, k: Key, svc: Service) {
    ev == OnAdd(k, svc) || ev == OnUpdate(k, svc)
  }

  /** A service in gateway mode that can be exported, and is to be decided upon twice. */
  ghost predicate Twice(cfg: Config, sys: System, env: Env, k: Key) {
    && Succeeds(env) && Resolves(cfg, env)
    && k in sys.remote.services && k.ns in sys.st.namespaces
    && (var svc := sys.remote.services[k];
        && IsExported(cfg.link, svc.labels) && !IsRemoteDiscovery(cfg.link, svc.labels) && !Headless(svc)
        && |sys.queue| == 2 && DecidesNow(sys.queue[0].event, k, svc) && DecidesNow(sys.queue[1].event, k, svc))
  }

  /* ---------- two exports ---------- */

  lemma NewIsExported(cfg: Config, remote: Remote, env: Env, st: State, ev: Event)
    requires Succeeds(env) && Decides(ev) && ViewAt(cfg, st, ev.key).svc.None? && IsExported(cfg.link, ev.svc.labels)
    ensures Handle(cfg, remote, env, st, ev) == Out(st, [Exported(ev.key, ev.svc)], Done, ev)
  {
    hide IsExported, IsRemoteDiscovery, MirrorKey, FederatedDecision, Reported;
  }

  lemma SecondExport(cfg: Config, remote: Remote, env: Env, st: State, k: Key, svc: Service)
    requires Succeeds(env) && Resolves(cfg, env) && k.ns in st.namespaces
    requires !IsRemoteDiscovery(cfg.link, svc.labels) && !Headless(svc)
    requires ViewAt(cfg, st, k).svc.Some? && ViewAt(cfg, st, k).ep.Some?
    ensures var (post, outcome) := HandleExported(cfg, remote, env, st, k, svc);
            && outcome == Retry && post.namespaces == st.namespaces
            && ViewAt(cfg, post, k).svc.None? && ViewAt(cfg, post, k).ep.None?
  {
    hide HandleExported, ResolveGateway, ParseInt, IsRemoteDiscovery, MirrorKey, Reported, Headless;
    assert forall c :: env.ok(c);
    ExportTakesMirror(cfg, remote, env, st, k, svc);
    ExportKeepsNamespaces(cfg, remote, env, st, k, svc);
  }

  lemma ExportKeepsNamespaces(cfg: Config, remote: Remote, env: Env, st: State, k: Key, svc: Service)
    requires k.ns in st.namespaces
    ensures HandleExported(cfg, remote, env, st, k, svc).0.namespaces == st.namespaces
  {
    hide MirrorKey, NewMirror, Stamp, IsRemoteDiscovery, Mirrored, Failure, Headless, Update, ResolveGateway, ParseInt;
    hide NewGatewayEndpoints, ByLiveness;
  }

  lemma ReflectedHasEndpoints(cfg: Config, k: Key, svc: Service, v: View)
    requires Reflects(cfg, k, svc, v) && !IsRemoteDiscovery(cfg.link, svc.labels)
    ensures v.svc.Some? && v.ep.Some?
  {
    hide MirrorLabels, MirrorAnnotations, RemapPorts, IsRemoteDiscovery;
  }

  lemma ViewIgnoresClock(cfg: Config, st: State, now: nat, k: Key)
    ensures ViewAt(cfg, st.(now := now), k) == ViewAt(cfg, st, k)
  {
    hide MirrorKey, Reported;
  }

  /** Decided upon twice before its first export, a service is exported twice, and the second export, with every
      call going through, takes mirror and endpoints away. Only a retry brings them back. */
  lemma SecondExportTakesMirror(cfg: Config, sys: System, env: Env, k: Key)
    requires Twice(cfg, sys, env, k) && ViewAt(cfg, sys.st, k).svc.None? && ViewAt(cfg, sys.st, k).ep.None?
    ensures var svc := sys.remote.services[k];
            && Reflects(cfg, k, svc, ViewAt(cfg, InOrder(cfg, sys, env, 3).st, k))
            && (var four := InOrder(cfg, sys, env, 4);
                && ViewAt(cfg, four.st, k).svc.None? && ViewAt(cfg, four.st, k).ep.None?
                && four.remote == sys.remote && k.ns in four.st.namespaces
                && (cfg.requeueLimit <= 0 ==> four.queue == []))
            && (cfg.requeueLimit > 0 ==>
                  var five := InOrder(cfg, sys, env, 5);
                  five.queue == [] && Reflects(cfg, k, svc, ViewAt(cfg, five.st, k)))
  {
    hide Handle, HandleExported, Step, InOrder, ViewAt, Reflects, Succeeds, Resolves, Fresh, IsExported;
    hide IsRemoteDiscovery;
    hide Headless;
    var svc := sys.remote.services[k];
    var ev := Exported(k, svc);
    var s1 := Decided(cfg, sys, env, k);
    var s2 := Decided(cfg, s1, env, k);
    assert s2.queue == [Item(sys.nextId, ev, 0), Item(sys.nextId + 1, ev, 0)];
    var s3 := Created(cfg, s2, env, k);
    ReflectedHasEndpoints(cfg, k, svc, ViewAt(cfg, s3.st, k));
    var s4 := Taken(cfg, s3, env, k);
    InOrderUnfolds(cfg, sys, env);
    InOrderUnfolds(cfg, s1, env);
    InOrderUnfolds(cfg, s2, env);
    InOrderUnfolds(cfg, s3, env);
    InOrderUnfolds(cfg, s4, env);
    assert InOrder(cfg, sys, env, 3) == s3 && InOrder(cfg, sys, env, 4) == s4;
    if cfg.requeueLimit > 0 {
      assert s4.queue == [Item(sys.nextId + 1, ev, 1)];
      var s5 := Created(cfg, s4, env, k);
      InOrderUnfolds(cfg, s5, env);
      assert InOrder(cfg, sys, env, 5) == s5;
    }
  }

  /** The first queued event decides to export k. */
  lemma Decided(cfg: Config, sys: System, env: Env, k: Key) returns (next: System)
    requires Succeeds(env) && sys.queue != [] && k in sys.remote.services
    requires IsExported(cfg.link, sys.remote.services[k].labels) && ViewAt(cfg, sys.st, k).svc.None?
    requires DecidesNow(sys.queue[0].event, k, sys.remote.services[k])
    ensures next == Step(cfg, sys, 0, env)
    ensures next.remote == sys.remote && next.nextId == sys.nextId + 1 && next.st.namespaces == sys.st.namespaces
    ensures next.queue == sys.queue[1..] + [Item(sys.nextId, Exported(k, sys.remote.services[k]), 0)]
    ensures ViewAt(cfg, next.st, k) == ViewAt(cfg, sys.st, k)
  {
    hide Handle, Step, ViewAt, Succeeds, IsExported;
    next := Step(cfg, sys, 0, env);
    FirstStep(cfg, sys, env);
    NewIsExported(cfg, sys.remote, env, sys.st, sys.queue[0].event);
    ViewIgnoresClock(cfg, sys.st, sys.st.now + 1, k);
    assert sys.queue[1..] + Fresh([Exported(k, sys.remote.services[k])], sys.nextId) + []
        == sys.queue[1..] + [Item(sys.nextId, Exported(k, sys.remote.services[k]), 0)];
  }

  /** The first queued event exports k, which has no mirror yet. */
  lemma Created(cfg: Config, sys: System, env: Env, k: Key) returns (next: System)
    requires Succeeds(env) && Resolves(cfg, env) && sys.queue != [] && k in sys.remote.services
    requires sys.queue[0].event == Exported(k, sys.remote.services[k]) && !Headless(sys.remote.services[k])
    requires k.ns in sys.st.namespaces && ViewAt(cfg, sys.st, k).svc.None? && ViewAt(cfg, sys.st, k).ep.None?
    ensures next == Step(cfg, sys, 0, env)
    ensures next.remote == sys.remote && next.nextId == sys.nextId && next.queue == sys.queue[1..]
    ensures k.ns in next.st.namespaces && Reflects(cfg, k, sys.remote.services[k], ViewAt(cfg, next.st, k))
  {
    hide Handle, HandleExported, Step, ViewAt, Succeeds, Resolves, Reflects, Headless, IsRemoteDiscovery;
    var svc := sys.remote.services[k];
    next := Step(cfg, sys, 0, env);
    FirstStep(cfg, sys, env);
    ExportIsHandled(cfg, sys.remote, env, sys.st, k, svc);
    ExportSucceeds(cfg, sys.remote, env, sys.st, k, svc);
    var post := HandleExported(cfg, sys.remote, env, sys.st, k, svc).0;
    ViewIgnoresClock(cfg, post, sys.st.now + 1, k);
    assert sys.queue[1..] + Fresh([], sys.nextId) + [] == sys.queue[1..];
  }

  /** The first queued event exports k again. */
  lemma Taken(cfg: Config, sys: System, env: Env, k: Key) returns (next: System)
    requires Succeeds(env) && Resolves(cfg, env) && |sys.queue| == 1 && k in sys.remote.services
    requires sys.queue[0].event == Exported(k, sys.remote.services[k]) && !Headless(sys.remote.services[k])
    requires !IsRemoteDiscovery(cfg.link, sys.remote.services[k].labels) && k.ns in sys.st.namespaces
    requires ViewAt(cfg, sys.st, k).svc.Some? && ViewAt(cfg, sys.st, k).ep.Some?
    ensures next == Step(cfg, sys, 0, env)
    ensures next.remote == sys.remote && next.nextId == sys.nextId && next.st.namespaces == sys.st.namespaces
    ensures next.queue == if sys.queue[0].requeues < cfg.requeueLimit
                          then [Item(sys.queue[0].id, sys.queue[0].event, sys.queue[0].requeues + 1)] else []
    ensures ViewAt(cfg, next.st, k).svc.None? && ViewAt(cfg, next.st, k).ep.None?
  {
    hide Handle, HandleExported, Step, ViewAt, Succeeds, Resolves, Headless, IsRemoteDiscovery;
    var svc := sys.remote.services[k];
    next := Step(cfg, sys, 0, env);
    FirstStep(cfg, sys, env);
    ExportIsHandled(cfg, sys.remote, env, sys.st, k, svc);
    SecondExport(cfg, sys.remote, env, sys.st, k, svc);
    var post := HandleExported(cfg, sys.remote, env, sys.st, k, svc).0;
    ViewIgnoresClock(cfg, post, sys.st.now + 1, k);
  }

  /** A report of the namespace of k comes before the report of k, its only service. */
  ghost predicate NamespaceFirst(cfg: Config, sys: System, env: Env, k: Key) {
    && Succeeds(env) && Resolves(cfg, env)
    && k in sys.remote.services && k.ns in sys.st.namespaces && RemoteIn(sys.remote, k.ns) == {k}
    && (var svc := sys.remote.services[k];
        && IsExported(cfg.link, svc.labels) && !IsRemoteDiscovery(cfg.link, svc.labels) && !Headless(svc)
        && |sys.queue| == 2 && sys.queue[0].event == NamespaceAdded(k.ns) && DecidesNow(sys.queue[1].event, k, svc))
  }

  lemma NamespaceReportsOnce(cfg: Config, remote: Remote, env: Env, st: State, k: Key)
    requires Succeeds(env) && RemoteIn(remote, k.ns) == {k}
    ensures k in remote.services
    ensures Handle(cfg, remote, env, st, NamespaceAdded(k.ns))
         == Out(st, [OnAdd(k, remote.services[k])], Done, NamespaceAdded(k.ns))
  {
    hide OnAdds, RemoteIn;
    assert k in remote.services by { assert k in RemoteIn(remote, k.ns); RemoteInIsRemote(remote, k.ns, k); }
    CallSucceeds(env, RemoteListServices(k.ns));
    var list := env.list({k});
    assert Enumerates(list, {k});
    EnumerationSize(list, {k});
    assert |list| == 1 && list == [k];
    OnAddsExact(remote, list);
  }

  lemma RemoteInIsRemote(remote: Remote, ns: string, k: Key)
    requires k in RemoteIn(remote, ns)
    ensures k in remote.services
  {
  }

  /** With its namespace reported first, one service, reported once, is decided upon twice, exported twice, and
      after the second export it has no mirror; without retries that is where the queue ends. */
  lemma NamespaceFirstExportsTwice(cfg: Config, sys: System, env: Env, k: Key)
    requires NamespaceFirst(cfg, sys, env, k)
    requires ViewAt(cfg, sys.st, k).svc.None? && ViewAt(cfg, sys.st, k).ep.None?
    ensures Twice(cfg, InOrder(cfg, sys, env, 1), env, k)
    ensures var five := InOrder(cfg, sys, env, 5);
            && Wanted(cfg, five.remote, five.st, k) && ViewAt(cfg, five.st, k).svc.None?
            && (cfg.requeueLimit <= 0 ==> five.queue == [] && !MirrorsExactly(cfg, five))
  {
    hide Handle, Step, InOrder, ViewAt, Succeeds, Resolves, IsExported, IsRemoteDiscovery, Headless, MirrorsExactly;
    hide RemoteIn, Reflects;
    var svc := sys.remote.services[k];
    var next := Step(cfg, sys, 0, env);
    FirstStep(cfg, sys, env);
    NamespaceReportsOnce(cfg, sys.remote, env, sys.st, k);
    ViewIgnoresClock(cfg, sys.st, sys.st.now + 1, k);
    assert next.queue == [sys.queue[1], Item(sys.nextId, OnAdd(k, svc), 0)];
    InOrderUnfolds(cfg, sys, env);
    InOrderUnfolds(cfg, next, env);
    SecondExportTakesMirror(cfg, next, env, k);
    var five := InOrder(cfg, sys, env, 5);
    NotMirrored(cfg, five, k);
  }

  lemma NotMirrored(cfg: Config, sys: System, k: Key)
    requires k in sys.remote.services && IsExported(cfg.link, sys.remote.services[k].labels)
    requires k.ns in sys.st.namespaces && ViewAt(cfg, sys.st, k).svc.None?
    ensures Wanted(cfg, sys.remote, sys.st, k) && !MirrorsExactly(cfg, sys)
  {
    hide IsExported, IsRemoteDiscovery, MirrorKey, Reported, MirrorsExactly;
    LostIsNotExact(cfg, sys, k);
  }

  /* ---------- two updates ---------- */

  /** The objects are still the ones the update was queued with. */
  predicate Unchanged(cfg: Config, st: State, ev: Event)
    requires ev.Updated?
  {
    var mk := MirrorKey(cfg.link, ev.key);
    && mk in st.services && st.services[mk].version == ev.local.version
    && (if IsRemoteDiscovery(cfg.link, ev.svc.labels) then ev.localEndpoints.None? || mk in st.endpoints
        else if ev.localEndpoints.None? then mk !in st.endpoints && mk.ns in st.namespaces
        else mk in st.endpoints && st.endpoints[mk].version == ev.localEndpoints.value.version)
  }

  /** An update for which every call goes through is done exactly when it still finds the objects it was queued
      with. Otherwise it is retried with the same copies, which no retry renews. */
  lemma UpdateNeedsItsCopies(cfg: Config, remote: Remote, env: Env, st: State, ev: Event)
    requires ev.Updated? && Succeeds(env) && Routable(cfg, env, ev.svc)
    ensures var out := HandleUpdated(cfg, remote, env, st, ev);
            && out.outcome == (if Unchanged(cfg, st, ev) then Done else Retry)
            && out.spawned == [] && out.event.Updated? && out.event.key == ev.key && out.event.svc == ev.svc
            && out.event.localEndpoints == ev.localEndpoints && out.event.local.version == ev.local.version
  {
    hide ResolveGateway, ParseInt, IsRemoteDiscovery, MirrorKey, NewGatewayEndpoints, Readiness, GatewaySubsets, Update;
    hide MirrorLabels, MirrorAnnotations, RemapPorts, Mirrored, Failure, CreateGatewayEndpoints;
    assert forall c :: env.ok(c);
    if !IsRemoteDiscovery(cfg.link, ev.svc.labels) && ev.localEndpoints.None? {
      GatewayEndpointsEnd(cfg, remote, env, st, ev.key, ev.svc);
    }
  }

  lemma GatewayEndpointsEnd(cfg: Config, remote: Remote, env: Env, st: State, k: Key, svc: Service)
    requires Succeeds(env) && Resolves(cfg, env)
    ensures var (post, outcome) := CreateGatewayEndpoints(cfg, remote, env, st, k, svc);
            var mk := MirrorKey(cfg.link, k);
            && (outcome == if mk !in st.endpoints && mk.ns in st.namespaces then Done else Retry)
            && (outcome == Done ==> post.services == st.services && mk in post.endpoints)
            && (outcome == Retry ==> mk !in post.services)
            && post.namespaces == st.namespaces
  {
    hide ResolveGateway, ParseInt, MirrorKey, NewGatewayEndpoints, ByLiveness;
  }

  /** Without the mirror, an update that wants to create its endpoints never brings it back. */
  lemma LostStaysLost(cfg: Config, remote: Remote, env: Env, st: State, ev: Event)
    requires ev.Updated? && Succeeds(env) && Resolves(cfg, env) && ev.localEndpoints.None?
    requires !IsRemoteDiscovery(cfg.link, ev.svc.labels)
    ensures var out := HandleUpdated(cfg, remote, env, st, ev); var mk := MirrorKey(cfg.link, ev.key);
            (mk !in st.services || mk in st.endpoints ==> mk !in out.st.services)
  {
    hide ResolveGateway, ParseInt, IsRemoteDiscovery, MirrorKey, Update, UpdatedLocal, Mirrored, Failure;
    hide CreateGatewayEndpoints;
    GatewayEndpointsEnd(cfg, remote, env, st, ev.key, ev.svc);
  }

  /** A discovery mirror without endpoints whose service has gone over to gateway mode. */
  ghost predicate GoesOver(cfg: Config, sys: System, env: Env, k: Key) {
    var v := ViewAt(cfg, sys.st, k);
    && Twice(cfg, sys, env, k) && v.svc.Some? && v.ep.None?
    && REMOTE_VERSION in v.svc.value.annotations && !Records(v.svc.value, sys.remote.services[k].version)
    && !IsFederatedMember(cfg.link, sys.remote.services[k].labels) && FederatedKey(k) !in sys.st.services
  }

  lemma OldIsUpdated(cfg: Config, remote: Remote, env: Env, st: State, ev: Event)
    requires Succeeds(env) && Decides(ev) && IsExported(cfg.link, ev.svc.labels)
    requires !IsFederatedMember(cfg.link, ev.svc.labels) && FederatedKey(ev.key) !in st.services
    requires var v := ViewAt(cfg, st, ev.key);
             v.svc.Some? && REMOTE_VERSION in v.svc.value.annotations && !Records(v.svc.value, ev.svc.version)
    ensures var v := ViewAt(cfg, st, ev.key);
            Handle(cfg, remote, env, st, ev) == Out(st, [Updated(ev.key, v.svc.value, v.ep, ev.svc)], Done, ev)
  {
    hide IsExported, IsRemoteDiscovery, IsFederatedMember, MirrorKey, FederatedKey, Reported, FormatNat;
  }

  /** The first queued event decides to update k. */
  lemma DecidedUpdate(cfg: Config, sys: System, env: Env, k: Key) returns (next: System)
    requires Succeeds(env) && sys.queue != [] && k in sys.remote.services
    requires IsExported(cfg.link, sys.remote.services[k].labels)
    requires !IsFederatedMember(cfg.link, sys.remote.services[k].labels) && FederatedKey(k) !in sys.st.services
    requires var v := ViewAt(cfg, sys.st, k);
             && v.svc.Some? && REMOTE_VERSION in v.svc.value.annotations
             && !Records(v.svc.value, sys.remote.services[k].version)
    requires DecidesNow(sys.queue[0].event, k, sys.remote.services[k])
    ensures next == Step(cfg, sys, 0, env) && next.st.services == sys.st.services
    ensures next.remote == sys.remote && next.nextId == sys.nextId + 1 && next.st.namespaces == sys.st.namespaces
    ensures var v := ViewAt(cfg, sys.st, k);
            next.queue == sys.queue[1..] + [Item(sys.nextId, Updated(k, v.svc.value, v.ep, sys.remote.services[k]), 0)]
    ensures ViewAt(cfg, next.st, k) == ViewAt(cfg, sys.st, k)
  {
    hide Handle, Step, ViewAt, Succeeds, IsExported, Records, IsFederatedMember, FederatedKey;
    next := Step(cfg, sys, 0, env);
    FirstStep(cfg, sys, env);
    OldIsUpdated(cfg, sys.remote, env, sys.st, sys.queue[0].event);
    ViewIgnoresClock(cfg, sys.st, sys.st.now + 1, k);
    var v := ViewAt(cfg, sys.st, k);
    var ev := Updated(k, v.svc.value, v.ep, sys.remote.services[k]);
    assert sys.queue[1..] + Fresh([ev], sys.nextId) + [] == sys.queue[1..] + [Item(sys.nextId, ev, 0)];
  }

  /** A stale update, alone in the queue, is retried until it is given up, and the mirror stays away. */
  lemma {:induction false} RetriedInVain(cfg: Config, sys: System, env: Env, k: Key) returns (n: nat)
    requires Succeeds(env) && Resolves(cfg, env) && |sys.queue| == 1 && sys.queue[0].event.Updated?
    requires var ev := sys.queue[0].event;
             ev.key == k && ev.localEndpoints.None? && !IsRemoteDiscovery(cfg.link, ev.svc.labels)
    requires var mk := MirrorKey(cfg.link, k); mk !in sys.st.services || mk in sys.st.endpoints
    ensures var end := InOrder(cfg, sys, env, n);
            end.queue == [] && end.remote == sys.remote && MirrorKey(cfg.link, k) !in end.st.services
            && sys.st.namespaces <= end.st.namespaces
    decreases cfg.requeueLimit - sys.queue[0].requeues
  {
    hide Handle, HandleUpdated, Step, Succeeds, Resolves, IsRemoteDiscovery, MirrorKey, InOrder;
    var ev := sys.queue[0].event;
    var next := Step(cfg, sys, 0, env);
    FirstStep(cfg, sys, env);
    UpdateIsHandled(cfg, sys.remote, env, sys.st, ev);
    LostStaysLost(cfg, sys.remote, env, sys.st, ev);
    UpdateNeedsItsCopies(cfg, sys.remote, env, sys.st, ev);
    StaleCopies(cfg, sys.st, ev);
    UpdateKeepsNamespaces(cfg, sys.remote, env, sys.st, ev);
    InOrderUnfolds(cfg, sys, env);
    InOrderUnfolds(cfg, next, env);
    if sys.queue[0].requeues < cfg.requeueLimit {
      var m := RetriedInVain(cfg, next, env, k);
      n := m + 1;
    } else {
      n := 1;
    }
  }

  lemma StaleCopies(cfg: Config, st: State, ev: Event)
    requires ev.Updated? && ev.localEndpoints.None? && !IsRemoteDiscovery(cfg.link, ev.svc.labels)
    requires MirrorKey(cfg.link, ev.key) !in st.services || MirrorKey(cfg.link, ev.key) in st.endpoints
    ensures !Unchanged(cfg, st, ev)
  {
    hide MirrorKey, IsRemoteDiscovery;
  }

  lemma UpdateKeepsNamespaces(cfg: Config, remote: Remote, env: Env, st: State, ev: Event)
    requires ev.Updated?
    ensures HandleUpdated(cfg, remote, env, st, ev).st.namespaces == st.namespaces
  {
    hide ResolveGateway, ParseInt, IsRemoteDiscovery, MirrorKey, NewGatewayEndpoints, ByLiveness, GatewaySubsets;
    hide Update;
    hide UpdatedLocal, Mirrored, Failure;
  }

  /** The first queued event updates k and still finds its objects. */
  lemma Renewed(cfg: Config, sys: System, env: Env, k: Key) returns (next: System)
    requires Succeeds(env) && Resolves(cfg, env) && |sys.queue| == 2 && k in sys.remote.services
    requires !IsRemoteDiscovery(cfg.link, sys.remote.services[k].labels) && k.ns in sys.st.namespaces
    requires var v := ViewAt(cfg, sys.st, k);
             v.svc.Some? && sys.queue[0].event == Updated(k, v.svc.value, v.ep, sys.remote.services[k])
    ensures next == Step(cfg, sys, 0, env) && next.remote == sys.remote && next.queue == sys.queue[1..]
    ensures k.ns in next.st.namespaces && MirrorKey(cfg.link, k) in next.st.endpoints
  {
    hide Handle, HandleUpdated, Step, Succeeds, Resolves, Reflects, IsRemoteDiscovery, MirrorKey, Reported;
    var ev := sys.queue[0].event;
    next := Step(cfg, sys, 0, env);
    FirstStep(cfg, sys, env);
    UpdateIsHandled(cfg, sys.remote, env, sys.st, ev);
    UpdateSucceeds(cfg, sys.remote, env, sys.st, ev);
    var post := HandleUpdated(cfg, sys.remote, env, sys.st, ev).st;
    ReflectedHasEndpoints(cfg, k, ev.svc, ViewAt(cfg, post, k));
    assert sys.queue[1..] + Fresh([], sys.nextId) + [] == sys.queue[1..];
  }

  /** Decided upon twice before its first update, a service that goes over to gateway mode loses its mirror: with
      every call going through and the events handled in order, the queue drains and no mirror is left. */
  lemma SecondUpdateLosesMirror(cfg: Config, sys: System, env: Env, k: Key) returns (n: nat)
    requires GoesOver(cfg, sys, env, k)
    ensures var end := InOrder(cfg, sys, env, n);
            && end.queue == [] && Wanted(cfg, end.remote, end.st, k) && MirrorKey(cfg.link, k) !in end.st.services
            && !MirrorsExactly(cfg, end)
  {
    hide Handle, Step, InOrder, ViewAt, Succeeds, Resolves, Fresh, IsExported, IsRemoteDiscovery, Headless, Records;
    hide IsFederatedMember, FederatedKey, MirrorKey;
    var svc, v := sys.remote.services[k], ViewAt(cfg, sys.st, k);
    var ev := Updated(k, v.svc.value, v.ep, svc);
    var s1 := DecidedUpdate(cfg, sys, env, k);
    var s2 := DecidedUpdate(cfg, s1, env, k);
    assert s2.queue == [Item(sys.nextId, ev, 0), Item(sys.nextId + 1, ev, 0)];
    var s3 := Renewed(cfg, s2, env, k);
    var m := RetriedInVain(cfg, s3, env, k);
    n := m + 3;
    InOrderUnfolds(cfg, sys, env);
    InOrderUnfolds(cfg, s1, env);
    InOrderUnfolds(cfg, s2, env);
    assert InOrder(cfg, sys, env, n) == InOrder(cfg, s3, env, m);
    LostIsNotExact(cfg, InOrder(cfg, s3, env, m), k);
  }

  lemma LostIsNotExact(cfg: Config, sys: System, k: Key)
    requires Wanted(cfg, sys.remote, sys.st, k) && MirrorKey(cfg.link, k) !in sys.st.services
    ensures !MirrorsExactly(cfg, sys)
  {
    hide MirrorLabels, MirrorAnnotations, RemapPorts, IsRemoteDiscovery, Desired, MirrorKey, Reported;
    assert ViewAt(cfg, sys.st, k).svc.None?;
  }
}
