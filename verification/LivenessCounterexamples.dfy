/** Runs in which a service of the link stays ready behind a dead gateway: one for each condition that the
    safety theorem asks for. */
module LivenessCounterexamples {
  import opened Strings
  import opened Kubernetes
  import opened Mirror
  import opened StatusList
  import opened Api
  import opened HeadlessMirror
  import opened Handlers
  import opened Effects
  import opened Machine
  import opened Liveness

  type State = Api.State

  /* ---------- endpoints left by an event that came too early ---------- */

  /** The endpoints events of a headless service that was first seen without subsets, and later with
      ready addresses none of which has a hostname. */
  predicate LaggingEvents(early: Endpoints, late: Endpoints) {
    && IsHeadlessEndpoints(early) && early.subsets == []
    && IsHeadlessEndpoints(late) && late.subsets != [] && !ExportsAsHeadless(late)
  }

  lemma EarlyEventOrphans(cfg: Config, remote: Remote, env: Env, st: State, k: Key, early: Endpoints)
    requires RepairSucceeds(cfg, env) && st.gatewayAlive && k.ns in st.namespaces
    requires k in remote.services && remote.services[k].ports != [] && early.subsets == []
    requires k in remote.endpoints && HasReady(remote.endpoints[k].subsets)
    requires MirrorKey(cfg.link, k) !in st.services && MirrorKey(cfg.link, k) !in st.endpoints
    ensures var (post, outcome) := HandleHeadless(cfg, remote, env, st, k, early);
            && outcome == Done && post == st.(endpoints := post.endpoints)
            && post.endpoints.Keys == st.endpoints.Keys + {MirrorKey(cfg.link, k)}
            && ReadyAt(post, MirrorKey(cfg.link, k))
  {
    hide EndpointLabels, GatewayAnnotations, FqName, ResolveGateway, ParseInt, SyncHeadless, CreateHeadlessEndpoints;
    hide MirrorKey;
    SameNamespace(cfg, k);
    var mk := MirrorKey(cfg.link, k);
    var svc := remote.services[k];
    var addresses := ResolveGateway(cfg.link, env.lookup).value;
    var ports := EndpointPorts(cfg.link, svc.ports).value;
    var ep := NewGatewayEndpoints(cfg, remote, k, svc, addresses, ports);
    assert ep.subsets == GatewaySubsets(addresses, ports);
    assert HasReady(ep.subsets) by { assert |ep.subsets[0].addresses| > 0; }
    assert "" != CLUSTER_IP_NONE;
    assert HandleHeadless(cfg, remote, env, st, k, early) == CreateGatewayEndpoints(cfg, remote, env, st, k, svc);
  }

  lemma LateEventAdopts(cfg: Config, remote: Remote, env: Env, st: State, k: Key, late: Endpoints)
    requires ValidEnv(env) && (forall c :: env.ok(c)) && k.ns in st.namespaces
    requires k in remote.services && remote.services[k].ports != []
    requires late.subsets != [] && !ExportsAsHeadless(late)
    requires MirrorKey(cfg.link, k) !in st.services && ReadyAt(st, MirrorKey(cfg.link, k))
    ensures var (post, outcome) := HandleHeadless(cfg, remote, env, st, k, late);
            outcome == Done && Exposed(cfg, post, MirrorKey(cfg.link, k))
  {
    hide CreateHeadlessService, HasReady, Fronts, MirrorKey, CreateGatewayEndpoints, SyncHeadless;
    hide CreateHeadlessEndpoints;
    hide ExportsAsHeadless, ValidEnv;
    MirrorIsMade(cfg, env, st, Source(k, remote.services[k], late.version), late);
  }

  /** The mirror service of a headless service none of whose addresses has a hostname. */
  lemma MirrorIsMade(cfg: Config, env: Env, st: State, src: Source, exported: Endpoints)
    requires ValidEnv(env) && (forall c :: env.ok(c)) && src.key.ns in st.namespaces
    requires exported.subsets != [] && !ExportsAsHeadless(exported) && MirrorKey(cfg.link, src.key) !in st.services
    ensures var made := CreateHeadlessService(cfg, env, st, src, exported); var mk := MirrorKey(cfg.link, src.key);
            && made.outcome == Done && made.ip != CLUSTER_IP_NONE && made.st.endpoints == st.endpoints
            && mk in made.st.services && Fronts(cfg.link, made.st.services[mk])
  {
    hide MirrorLabels, MirrorAnnotations, RemapPorts, OfLink, MirrorKey, ExportsAsHeadless;
    MirrorLabelFacts(cfg.link, src.key, src.svc.labels);
    SameNamespace(cfg, src.key);
    assert |""| != |CLUSTER_IP_NONE|;
  }

  lemma HeadlessIsHandled(cfg: Config, remote: Remote, env: Env, st: State, k: Key, ep: Endpoints)
    requires cfg.headlessEnabled && IsHeadlessEndpoints(ep)
    ensures Handle(cfg, remote, env, st, OnUpdateEndpoints(k, ep))
         == Plain(HandleHeadless(cfg, remote, env, st, k, ep), OnUpdateEndpoints(k, ep))
  {
    hide HandleHeadless, IsHeadlessEndpoints;
  }

  lemma SoleStep(cfg: Config, sys: System, ev: Event, env: Env)
    requires sys.queue == []
    requires Handle(cfg, sys.remote, env, sys.st, ev).outcome == Done
    requires Handle(cfg, sys.remote, env, sys.st, ev).spawned == []
    ensures var queued := Enqueue(sys, ev);
            Step(cfg, queued, 0, env)
            == System(sys.remote, Handle(cfg, sys.remote, env, sys.st, ev).st.(now := sys.st.now + 1), [],
                      sys.nextId + 1)
  {
    hide Handle;
    var queued := Enqueue(sys, ev);
    assert queued.queue == [Item(sys.nextId, ev, 0)];
  }

  /** Five moves, no failing call: an endpoints event that lags behind the informer cache creates endpoints
      without a service, the gateway dies and is repaired, and the next endpoints event puts a mirror in
      front of what was left. The result is an exposed mirror of a dead gateway with no repair queued. */
  lemma LagBreaksSafety(cfg: Config, remote: Remote, env: Env, k: Key, early: Endpoints, late: Endpoints)
    requires cfg.headlessEnabled && ValidEnv(env) && RepairSucceeds(cfg, env) && LaggingEvents(early, late)
    requires k in remote.services && remote.services[k].ports != []
    requires k in remote.endpoints && HasReady(remote.endpoints[k].subsets)
    ensures var start := System(remote, State.State(map[], map[], {k.ns}, [], [], true, 0), [], 0);
            && Consistent(cfg, start) && Safe(cfg, start)
            && var seen := Next(cfg, start, Informer(remote, {k.ns}, OnUpdateEndpoints(k, early)));
               var orphaned := Next(cfg, seen, Process(0, env));
               var dead := Next(cfg, orphaned, SetAlive(false));
               dead.queue != [] &&
               var repaired := Next(cfg, dead, Process(0, env));
               var seenAgain := Next(cfg, repaired, Informer(remote, {k.ns}, OnUpdateEndpoints(k, late)));
               seenAgain.queue != [] &&
               !Safe(cfg, Next(cfg, seenAgain, Process(0, env)))
  {
    hide Handle, HandleHeadless, HandleRepair, IsHeadlessEndpoints, ExportsAsHeadless, MirrorKey, ProbeKey, HasReady;
    hide GatewayMirror, RepairSucceeds, ValidEnv, Step, Orphaned, IsRemoteDiscovery;
    var mk := MirrorKey(cfg.link, k);
    var st0 := State.State(map[], map[], {k.ns}, [], [], true, 0);
    var start := System(remote, st0, [], 0);
    var st1 := HandleHeadless(cfg, remote, env, st0, k, early).0;
    var st2 := st1.(now := 1, gatewayAlive := false);
    var st3 := HandleRepair(cfg, remote, env, st2).0;
    var st4 := st3.(now := 2, namespaces := {k.ns});
    LagHandlers(cfg, remote, env, k, early, late, st0, st2, st4);
    SoleStep(cfg, start, OnUpdateEndpoints(k, early), env);
    SoleStep(cfg, System(remote, st2, [], 1), RepairEndpoints, env);
    SoleStep(cfg, System(remote, st4, [], 2), OnUpdateEndpoints(k, late), env);
    var final := HandleHeadless(cfg, remote, env, st4, k, late).0.(now := 3);
    assert ReadyAt(final, mk) && Exposed(cfg, final, mk);
  }

  lemma LagHandlers(cfg: Config, remote: Remote, env: Env, k: Key, early: Endpoints, late: Endpoints,
                    st0: State, st2: State, st4: State)
    requires cfg.headlessEnabled && ValidEnv(env) && RepairSucceeds(cfg, env) && LaggingEvents(early, late)
    requires k in remote.services && remote.services[k].ports != []
    requires k in remote.endpoints && HasReady(remote.endpoints[k].subsets)
    requires st0 == State.State(map[], map[], {k.ns}, [], [], true, 0)
    requires st2 == HandleHeadless(cfg, remote, env, st0, k, early).0.(now := 1, gatewayAlive := false)
    requires st4 == HandleRepair(cfg, remote, env, st2).0.(now := 2, namespaces := {k.ns})
    ensures Handle(cfg, remote, env, st0, OnUpdateEndpoints(k, early))
         == Out(HandleHeadless(cfg, remote, env, st0, k, early).0, [], Done, OnUpdateEndpoints(k, early))
    ensures Handle(cfg, remote, env, st2, RepairEndpoints)
         == Out(HandleRepair(cfg, remote, env, st2).0, [], Done, RepairEndpoints)
    ensures Handle(cfg, remote, env, st4, OnUpdateEndpoints(k, late))
         == Out(HandleHeadless(cfg, remote, env, st4, k, late).0, [], Done, OnUpdateEndpoints(k, late))
    ensures !HandleHeadless(cfg, remote, env, st4, k, late).0.gatewayAlive
    ensures Exposed(cfg, HandleHeadless(cfg, remote, env, st4, k, late).0, MirrorKey(cfg.link, k))
  {
    hide Handle, HandleHeadless, HandleRepair, IsHeadlessEndpoints, ExportsAsHeadless, MirrorKey, ProbeKey, HasReady;
    hide GatewayMirror, IsRemoteDiscovery, ResolveGateway, ParseInt, ShapeOk, Protected, Guarded;
    var mk := MirrorKey(cfg.link, k);
    EarlyEventOrphans(cfg, remote, env, st0, k, early);
    HeadlessIsHandled(cfg, remote, env, st0, k, early);
    RepairReadiness(cfg, remote, env, st2, mk);
    RepairIsHandled(cfg, remote, env, st2);
    RepairKeepsServices(cfg, remote, env, st2);
    LateEventAdopts(cfg, remote, env, st4, k, late);
    HeadlessIsHandled(cfg, remote, env, st4, k, late);
    HeadlessKept(cfg, remote, env, st4, k, late);
  }

  /* ---------- a mirror that repair passes over ---------- */

  /** Handling the only queued event. */
  lemma OnlyStep(cfg: Config, sys: System, ev: Event, env: Env)
    requires |sys.queue| == 1 && sys.queue[0].event == ev
    ensures var out := Handle(cfg, sys.remote, env, sys.st, ev);
            Step(cfg, sys, 0, env) == System(sys.remote, out.st.(now := sys.st.now + 1),
              Fresh(out.spawned, sys.nextId) + Requeued(cfg, sys.queue[0], out), sys.nextId + |out.spawned|)
  {
    hide Handle, Fresh, Requeued;
    assert Drop(sys.queue, 0) == [];
  }

  /** A repair of a dead gateway that finds a ready service under the discovery label, as the only or the last
      queued event: the service stays ready, and no further repair is on its way. */
  lemma RepairPassesOver(cfg: Config, sys: System, env: Env, n: Key)
    requires RepairSucceeds(cfg, env) && !sys.st.gatewayAlive && Skipped(cfg, sys.st, n) && ReadyAt(sys.st, n)
    requires sys.queue != [] && sys.queue[|sys.queue| - 1].event.RepairEndpoints?
    requires !RepairQueued(sys.queue[..|sys.queue| - 1])
    ensures !Safe(cfg, Step(cfg, sys, |sys.queue| - 1, env))
  {
    hide Handle, HandleRepair, RepairSucceeds, HasReady, Fronts;
    var last := |sys.queue| - 1;
    var post := HandleRepair(cfg, sys.remote, env, sys.st).0;
    RepairIsHandled(cfg, sys.remote, env, sys.st);
    RepairReadiness(cfg, sys.remote, env, sys.st, n);
    RepairKeepsServices(cfg, sys.remote, env, sys.st);
    var after := Step(cfg, sys, last, env);
    assert after.queue == sys.queue[..last];
    assert after.st == post.(now := sys.st.now + 1);
    assert ReadyAt(after.st, n) && Exposed(cfg, after.st, n);
  }

  /** A remote service in gateway mode that carries the discovery label of its own accord. */
  predicate CarriesLabel(link: Link, svc: Service) {
    IsExported(link, svc.labels) && !IsRemoteDiscovery(link, svc.labels) && REMOTE_DISCOVERY in svc.labels
    && !Headless(svc)
  }

  lemma LabelledExport(cfg: Config, remote: Remote, env: Env, st: State, k: Key)
    requires ValidEnv(env) && RepairSucceeds(cfg, env) && st.gatewayAlive && k.ns in st.namespaces
    requires k in remote.services && CarriesLabel(cfg.link, remote.services[k])
    requires k in remote.endpoints && HasReady(remote.endpoints[k].subsets)
    requires MirrorKey(cfg.link, k) !in st.services && MirrorKey(cfg.link, k) !in st.endpoints
    ensures var (post, outcome) := HandleExported(cfg, remote, env, st, k, remote.services[k]);
            var mk := MirrorKey(cfg.link, k);
            && outcome == Done && post.gatewayAlive && post.namespaces == st.namespaces
            && post.services.Keys == st.services.Keys + {mk} && post.endpoints.Keys == st.endpoints.Keys + {mk}
            && Skipped(cfg, post, mk) && ReadyAt(post, mk)
  {
    hide MirrorLabels, MirrorAnnotations, RemapPorts, ResolveGateway, ParseInt, MirrorKey, OfLink, Update;
    hide IsRemoteDiscovery, IsExported;
    hide EndpointLabels, GatewayAnnotations, FqName;
    var svc := remote.services[k];
    var mk := MirrorKey(cfg.link, k);
    assert mk.ns == k.ns by { SameNamespace(cfg, k); }
    MirrorLabelFacts(cfg.link, k, svc.labels);
    var addresses := ResolveGateway(cfg.link, env.lookup).value;
    var ports := EndpointPorts(cfg.link, svc.ports).value;
    var ep := NewGatewayEndpoints(cfg, remote, k, svc, addresses, ports);
    assert HasReady(ep.subsets) by { assert |ep.subsets[0].addresses| > 0; }
  }

  /** Five moves, no failing call and no orphan: the label goes with the mirror, and repair passes the mirror over. */
  lemma LabelBreaksSafety(cfg: Config, remote: Remote, env: Env, k: Key)
    requires ValidEnv(env) && RepairSucceeds(cfg, env)
    requires k in remote.services && CarriesLabel(cfg.link, remote.services[k])
    requires k in remote.endpoints && HasReady(remote.endpoints[k].subsets)
    ensures var start := System(remote, State.State(map[], map[], {k.ns}, [], [], true, 0), [], 0);
            && Consistent(cfg, start) && Shielded(cfg, start)
            && (var added := Next(cfg, start, Informer(remote, {k.ns}, OnAdd(k, remote.services[k])));
                var decided := Next(cfg, added, Process(0, env));
                decided.queue != [] &&
                (var mirrored := Next(cfg, decided, Process(0, env));
                 var dead := Next(cfg, mirrored, SetAlive(false));
                 && NoOrphans(cfg, dead.st) && dead.queue != []
                 && !Safe(cfg, Next(cfg, dead, Process(0, env)))))
  {
    hide Handle, CreateOrUpdate, HandleExported, HasReady, RepairSucceeds, ValidEnv, Skipped, CarriesLabel, Step, Safe;
    hide MirrorKey;
    var svc, mk := remote.services[k], MirrorKey(cfg.link, k);
    var st0 := State.State(map[], map[], {k.ns}, [], [], true, 0);
    var start := System(remote, st0, [], 0);
    var added := Next(cfg, start, Informer(remote, {k.ns}, OnAdd(k, svc)));
    assert added == System(remote, st0, [Item(0, OnAdd(k, svc), 0)], 1);
    OnlyStep(cfg, added, OnAdd(k, svc), env);
    NewServiceIsExported(cfg, remote, env, st0, k);
    var decided := Step(cfg, added, 0, env);
    assert decided == System(remote, st0.(now := 1), [Item(1, Exported(k, svc), 0)], 2);
    OnlyStep(cfg, decided, Exported(k, svc), env);
    LabelledExport(cfg, remote, env, decided.st, k);
    ExportIsHandled(cfg, remote, env, decided.st, k, svc);
    var mirrored := Step(cfg, decided, 0, env);
    assert mirrored.queue == [];
    var dead := Next(cfg, mirrored, SetAlive(false));
    assert dead.queue == [Item(2, RepairEndpoints, 0)];
    SkippedIgnores(cfg, HandleExported(cfg, remote, env, decided.st, k, svc).0, dead.st, mk);
    MirrorAlone(cfg, dead.st, mk);
    assert dead.queue[..0] == [];
    RepairPassesOver(cfg, dead, env, mk);
  }

  lemma SkippedIgnores(cfg: Config, a: State, b: State, n: Key)
    requires a.services == b.services && a.endpoints == b.endpoints && Skipped(cfg, a, n) && ReadyAt(a, n)
    ensures Skipped(cfg, b, n) && ReadyAt(b, n)
  {
    hide Fronts, HasReady;
  }

  /** Endpoints that exist only behind a service of the link are no orphans. */
  lemma MirrorAlone(cfg: Config, st: State, mk: Key)
    requires st.endpoints.Keys == {mk} && Skipped(cfg, st, mk)
    ensures NoOrphans(cfg, st)
  {
    hide OfLink, MirrorNamed, HasReady, Discoverable;
  }

  lemma NewServiceIsExported(cfg: Config, remote: Remote, env: Env, st: State, k: Key)
    requires RepairSucceeds(cfg, env) && MirrorKey(cfg.link, k) !in st.services
    requires k in remote.services && CarriesLabel(cfg.link, remote.services[k])
    ensures var ev := OnAdd(k, remote.services[k]);
            Handle(cfg, remote, env, st, ev) == Out(st, [Exported(k, remote.services[k])], Done, ev)
  {
    hide IsExported, IsRemoteDiscovery, MirrorKey, FederatedDecision;
  }

  /* ---------- a mirror whose service changes its mode ---------- */

  /** The mirror of k was made in discovery mode, has no endpoints, and is behind: k is in gateway mode now. */
  predicate Switched(cfg: Config, remote: Remote, st: State, k: Key) {
    var mk := MirrorKey(cfg.link, k);
    && k in remote.services && IsExported(cfg.link, remote.services[k].labels)
    && !IsRemoteDiscovery(cfg.link, remote.services[k].labels)
    && !IsFederatedMember(cfg.link, remote.services[k].labels)
    && k in remote.endpoints && HasReady(remote.endpoints[k].subsets)
    && Skipped(cfg, st, mk) && mk !in st.endpoints && mk.ns in st.namespaces && FederatedKey(k) !in st.services
    && REMOTE_VERSION in st.services[mk].annotations
    && st.services[mk].annotations[REMOTE_VERSION] != FormatNat(remote.services[k].version)
  }

  /** Every call goes through except the update of one service. */
  ghost predicate OnlyUpdateFails(env: Env, n: Key) {
    forall c :: env.ok(c) <==> c != UpdateServiceCall(n)
  }

  function SwitchEvent(cfg: Config, remote: Remote, st: State, k: Key): Event
    requires k in remote.services && MirrorKey(cfg.link, k) in st.services
  {
    Updated(k, st.services[MirrorKey(cfg.link, k)], None, remote.services[k])
  }

  lemma SwitchIsDecided(cfg: Config, remote: Remote, env: Env, st: State, k: Key)
    requires RepairSucceeds(cfg, env) && Switched(cfg, remote, st, k)
    ensures var ev := OnUpdate(k, remote.services[k]);
            Handle(cfg, remote, env, st, ev) == Out(st, [SwitchEvent(cfg, remote, st, k)], Done, ev)
  {
    hide IsExported, IsRemoteDiscovery, IsFederatedMember, MirrorKey, FederatedKey, Fronts, HasReady, FormatNat;
  }

  /** The endpoints are written before the service: the update that fails half way leaves them ready behind the
      label. */
  lemma HalfSwitched(cfg: Config, remote: Remote, env: Env, broken: Env, st: State, k: Key)
    requires RepairSucceeds(cfg, env) && broken.lookup == env.lookup && OnlyUpdateFails(broken, MirrorKey(cfg.link, k))
    requires Switched(cfg, remote, st, k) && st.gatewayAlive
    ensures var out := HandleUpdated(cfg, remote, broken, st, SwitchEvent(cfg, remote, st, k));
            var mk := MirrorKey(cfg.link, k);
            && out.spawned == [] && out.event.Updated? && out.st.gatewayAlive
            && out.st.services == st.services && out.st.namespaces == st.namespaces
            && out.st.endpoints.Keys == st.endpoints.Keys + {mk} && out.st.endpoints - {mk} == st.endpoints
            && Skipped(cfg, out.st, mk) && ReadyAt(out.st, mk)
  {
    hide MirrorLabels, MirrorAnnotations, RemapPorts, ResolveGateway, ParseInt, MirrorKey, Fronts, Update;
    hide IsRemoteDiscovery, IsExported;
    hide EndpointLabels, GatewayAnnotations, FqName, FederatedKey, IsFederatedMember, FormatNat;
    var svc := remote.services[k];
    var mk := MirrorKey(cfg.link, k);
    assert mk.ns == k.ns by { SameNamespace(cfg, k); }
    var addresses := ResolveGateway(cfg.link, env.lookup).value;
    var ports := EndpointPorts(cfg.link, svc.ports).value;
    var ep := NewGatewayEndpoints(cfg, remote, k, svc, addresses, ports);
    assert HasReady(ep.subsets) by { assert |ep.subsets[0].addresses| > 0; }
  }

  lemma SwitchKeepsNoOrphans(cfg: Config, st: State, post: State, mk: Key)
    requires NoOrphans(cfg, st) && post.services == st.services && post.namespaces == st.namespaces
    requires post.endpoints - {mk} == st.endpoints && Skipped(cfg, post, mk)
    ensures NoOrphans(cfg, post)
  {
    hide OfLink, MirrorNamed, HasReady, Discoverable;
    forall n ensures !Orphaned(cfg, post, n) {
      assert !Orphaned(cfg, st, n);
      if n != mk && n in post.endpoints {
        assert n in post.endpoints - {mk};
        assert (post.endpoints - {mk})[n] == post.endpoints[n];
      }
    }
  }

  /** Five moves and one failing call, no orphan: the mirror keeps its old label, and repair passes it over. */
  lemma SwitchBreaksSafety(cfg: Config, sys: System, env: Env, broken: Env, k: Key)
    requires ValidEnv(env) && ValidEnv(broken) && RepairSucceeds(cfg, env)
    requires broken.lookup == env.lookup && OnlyUpdateFails(broken, MirrorKey(cfg.link, k))
    requires Consistent(cfg, sys) && sys.queue == [] && sys.st.gatewayAlive && NoOrphans(cfg, sys.st)
    requires Switched(cfg, sys.remote, sys.st, k)
    ensures var changed := Next(cfg, sys, Informer(sys.remote, sys.st.namespaces, OnUpdate(k, sys.remote.services[k])));
            var decided := Next(cfg, changed, Process(0, env));
            && decided.queue != []
            && (var half := Next(cfg, decided, Process(0, broken));
                var dead := Next(cfg, half, SetAlive(false));
                && NoOrphans(cfg, dead.st) && dead.queue != []
                && !Safe(cfg, Next(cfg, dead, Process(|dead.queue| - 1, env))))
  {
    hide Handle, HandleUpdated, HasReady, RepairSucceeds, ValidEnv, Skipped, Switched, OnlyUpdateFails, Step, Safe;
    hide MirrorKey, NoOrphans;
    hide Consistent, Fresh;
    SwitchedFacts(cfg, sys.remote, sys.st, k);
    var svc, mk := sys.remote.services[k], MirrorKey(cfg.link, k);
    var changed := Next(cfg, sys, Informer(sys.remote, sys.st.namespaces, OnUpdate(k, svc)));
    assert changed == System(sys.remote, sys.st, [Item(sys.nextId, OnUpdate(k, svc), 0)], sys.nextId + 1);
    OnlyStep(cfg, changed, OnUpdate(k, svc), env);
    SwitchIsDecided(cfg, sys.remote, env, sys.st, k);
    var decided := Step(cfg, changed, 0, env);
    var ev := SwitchEvent(cfg, sys.remote, sys.st, k);
    FreshOne(ev, sys.nextId + 1);
    assert decided == System(sys.remote, sys.st.(now := sys.st.now + 1), [Item(sys.nextId + 1, ev, 0)], sys.nextId + 2);
    OnlyStep(cfg, decided, ev, broken);
    SwitchedIgnoresClock(cfg, sys.remote, sys.st, k);
    HalfSwitched(cfg, sys.remote, env, broken, decided.st, k);
    UpdateIsHandled(cfg, sys.remote, broken, decided.st, ev);
    var half := Step(cfg, decided, 0, broken);
    var post := HandleUpdated(cfg, sys.remote, broken, decided.st, ev).st;
    FreshNone(decided.nextId);
    var dead := Next(cfg, half, SetAlive(false));
    assert dead.queue == half.queue + [Item(half.nextId, RepairEndpoints, 0)];
    SkippedIgnores(cfg, post, dead.st, mk);
    SwitchKeepsNoOrphans(cfg, sys.st, dead.st, mk);
    assert dead.queue[..|dead.queue| - 1] == half.queue;
    RepairPassesOver(cfg, dead, env, mk);
  }

  lemma FreshOne(ev: Event, id: nat)
    ensures Fresh([ev], id) == [Item(id, ev, 0)]
  {
  }

  lemma FreshNone(id: nat)
    ensures Fresh([], id) == []
  {
  }

  lemma SwitchedFacts(cfg: Config, remote: Remote, st: State, k: Key)
    requires Switched(cfg, remote, st, k)
    ensures k in remote.services && MirrorKey(cfg.link, k) in st.services
  {
    hide IsExported, IsRemoteDiscovery, IsFederatedMember, MirrorKey, FederatedKey, Fronts, HasReady, FormatNat;
  }

  lemma SwitchedIgnoresClock(cfg: Config, remote: Remote, st: State, k: Key)
    requires Switched(cfg, remote, st, k)
    ensures Switched(cfg, remote, st.(now := st.now + 1), k)
  {
    hide IsExported, IsRemoteDiscovery, IsFederatedMember, MirrorKey, FederatedKey, Fronts, HasReady, FormatNat;
  }

  /* ---------- the endpoint mirrors of a headless service ---------- */

  /** An endpoint mirror takes the labels of its headless mirror. It is created ready, and once the gateway is
      dead a successful repair leaves it ready exactly when its service is in discovery mode or carries the
      discovery label: the headless service that matches both selectors gets such endpoint mirrors. */
  lemma EndpointMirrorStaysReady(cfg: Config, remote: Remote, env: Env, st: State, src: Source, host: string)
    requires ValidEnv(env) && RepairSucceeds(cfg, env) && st.gatewayAlive && src.key.ns in st.namespaces
    requires HostKey(cfg, src, host) !in st.services && HostKey(cfg, src, host) !in st.endpoints
    ensures var made := CreateEndpointMirror(cfg, env, st, src, host); var hk := HostKey(cfg, src, host);
            && made.outcome == Done && ReadyAt(made.st, hk)
            && (ReadyAt(HandleRepair(cfg, remote, env, made.st.(gatewayAlive := false)).0, hk) <==>
                IsRemoteDiscovery(cfg.link, src.svc.labels) || REMOTE_DISCOVERY in src.svc.labels)
  {
    hide MirrorLabels, RemapPorts, ResolveGateway, ParseInt, OfLink, IsRemoteDiscovery, HandleRepair;
    hide GatewayAnnotations, EndpointMirrorFqName, FormatNat;
    var hk := HostKey(cfg, src, host);
    var addresses := ResolveGateway(cfg.link, env.lookup).value;
    var ports := EndpointPorts(cfg.link, src.svc.ports).value;
    assert HasReady(GatewaySubsets(addresses, ports)) by { assert |GatewaySubsets(addresses, ports)[0].addresses| > 0; }
    MirrorLabelFacts(cfg.link, src.key, src.svc.labels);
    ReservedKeys();
    var dead := CreateEndpointMirror(cfg, env, st, src, host).st.(gatewayAlive := false);
    assert OfLink(cfg.link, EndpointMirrorLabels(cfg, src)) by { HeadlessNameKeepsLink(cfg, src); }
    assert Fronts(cfg.link, dead.services[hk]);
    RepairReadiness(cfg, remote, env, dead, hk);
  }

  lemma HeadlessNameKeepsLink(cfg: Config, src: Source)
    ensures OfLink(cfg.link, EndpointMirrorLabels(cfg, src))
  {
    MirrorLabelFacts(cfg.link, src.key, src.svc.labels);
    ReservedKeys();
  }
}
