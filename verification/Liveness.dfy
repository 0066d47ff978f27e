/** No traffic to a dead gateway: what holds of the link's mirrors in every reachable state. */
module Liveness {
  import opened Strings
  import opened Kubernetes
  import opened Mirror
  import opened StatusList
  import opened Federation
  import opened Api
  import opened HeadlessMirror
  import opened Handlers
  import opened Effects
  import opened HeadlessOrphans
  import opened Machine

  type State = Api.State

  /* ---------- runs with input ---------- */

  /** Besides handling a queued event: an informer reports (with whatever it now sees), the probe worker
      reports the gateway's liveness, or the repair timer fires. */
  datatype Move =
    | Process(index: nat, env: Env)
    | Informer(remote: Remote, namespaces: set<string>, event: Event)
    | SetAlive(alive: bool)
    | Tick

  predicate FromOutside(ev: Event) {
    || ev.OnAdd? || ev.OnUpdate? || ev.OnDelete? || ev.OnAddEndpoints? || ev.OnUpdateEndpoints?
    || ev.NamespaceAdded? || ev.GcTriggered? || ev.ClusterUnregistered?
  }

  function Enqueue(sys: System, ev: Event): System {
    sys.(queue := sys.queue + [Item(sys.nextId, ev, 0)], nextId := sys.nextId + 1)
  }

  function Next(cfg: Config, sys: System, move: Move): System
    requires move.Process? ==> move.index < |sys.queue|
  {
    match move
    case Process(i, env) => Step(cfg, sys, i, env)
    case Informer(remote, namespaces, ev) =>
      Enqueue(sys.(remote := remote, st := sys.st.(namespaces := namespaces)), ev)
    case SetAlive(alive) => Enqueue(sys.(st := sys.st.(gatewayAlive := alive)), RepairEndpoints)
    case Tick => Enqueue(sys, RepairEndpoints)
  }

  predicate RepairQueued(queue: seq<Item>) {
    exists i :: 0 <= i < |queue| && queue[i].event.RepairEndpoints?
  }

  /** The property: behind a dead gateway with no repair on its way, no service of the link is ready. */
  ghost predicate Safe(cfg: Config, sys: System) {
    sys.st.gatewayAlive || RepairQueued(sys.queue) || Protected(cfg, sys.st)
  }

  /** Safe, and no ready endpoints wait for a service of the link to be put in front of them. */
  ghost predicate Shielded(cfg: Config, sys: System) {
    sys.st.gatewayAlive || RepairQueued(sys.queue) || Guarded(cfg, sys.st)
  }

  lemma ShieldedIsSafe(cfg: Config, sys: System)
    ensures Shielded(cfg, sys) ==> Safe(cfg, sys)
    ensures Guarded(cfg, sys.st) <==> Protected(cfg, sys.st) && NoOrphans(cfg, sys.st)
  {
    hide Exposed, Unclaimed, ReadyAt;
  }

  /** Every API call of a repair succeeds, DNS answers, and the gateway port is a number. */
  ghost predicate RepairSucceeds(cfg: Config, env: Env) {
    && (forall c :: env.ok(c))
    && ResolveGateway(cfg.link, env.lookup).Some?
    && ParseInt(cfg.link.gatewayPort, HALF_32).Some?
  }

  ghost predicate NoOrphans(cfg: Config, st: State) {
    forall n :: !Orphaned(cfg, st, n)
  }

  /** A repair writes the probe endpoints here, ready as they always are. */
  predicate ProbeWrites(cfg: Config, st: State, n: Key) {
    n == ProbeKey(cfg) && ParseInt(cfg.link.probePort, HALF_32).Some? && (n in st.endpoints || n.ns in st.namespaces)
  }

  /** Ready when a repair of a dead gateway comes to the mirrors. */
  predicate ReadyForRepair(cfg: Config, st: State, n: Key) {
    ReadyAt(st, n) || ProbeWrites(cfg, st, n)
  }

  /** A service of the link that repair passes over for its discovery label. */
  predicate Skipped(cfg: Config, st: State, n: Key) {
    n in st.services && Fronts(cfg.link, st.services[n]) && REMOTE_DISCOVERY in st.services[n].labels
  }

  /** No ready service of the link carries the discovery label. */
  ghost predicate NothingSkipped(cfg: Config, st: State) {
    forall n :: ReadyForRepair(cfg, st, n) ==> !Skipped(cfg, st, n)
  }

  /** Nor do ready endpoints wait for a service. */
  ghost predicate RepairSuffices(cfg: Config, st: State) {
    NothingSkipped(cfg, st) && forall n :: ReadyForRepair(cfg, st, n) ==> !Unclaimed(cfg, st, n)
  }

  /** Any event may be handled with any failures, repairs included while another repair is queued or the failed
      one is put back. Only the repair of a dead gateway after which none is queued has to succeed, and to find
      nothing it cannot mend; no headless endpoints event may meet the guard under which it leaves orphans behind
      a dead gateway; and a namespace may not appear around orphans. */
  ghost predicate Admissible(cfg: Config, sys: System, move: Move) {
    match move
    case Process(i, env) =>
      && i < |sys.queue| && ValidEnv(env)
      && (sys.queue[i].event.RepairEndpoints? && !sys.st.gatewayAlive && !RepairQueued(Step(cfg, sys, i, env).queue) ==>
            RepairSucceeds(cfg, env) && RepairSuffices(cfg, sys.st))
      && (HeadlessEvent(cfg, sys.queue[i].event) && !sys.st.gatewayAlive && !RepairQueued(sys.queue) ==>
            !LeavesOrphan(cfg, sys.remote, env, sys.st, sys.queue[i].event.key, sys.queue[i].event.ep))
    case Informer(_, namespaces, ev) =>
      && FromOutside(ev)
      && (!sys.st.gatewayAlive && !RepairQueued(sys.queue) && !(namespaces <= sys.st.namespaces) ==>
            NoOrphans(cfg, sys.st.(namespaces := namespaces)))
    case SetAlive(_) => true
    case Tick => true
  }

  ghost predicate AdmissibleRun(cfg: Config, sys: System, moves: seq<Move>)
    decreases |moves|
  {
    moves == [] || (Admissible(cfg, sys, moves[0]) && AdmissibleRun(cfg, Next(cfg, sys, moves[0]), moves[1..]))
  }

  ghost function After(cfg: Config, sys: System, moves: seq<Move>): System
    requires AdmissibleRun(cfg, sys, moves)
    decreases |moves|
  {
    if moves == [] then sys else After(cfg, Next(cfg, sys, moves[0]), moves[1..])
  }

  /* ---------- the invariant ---------- */

  ghost predicate Consistent(cfg: Config, sys: System) {
    && ShapeOk(cfg, sys.st)
    && (forall n :: n in sys.st.services ==> sys.st.services[n].version < sys.st.now)
    && (forall i :: 0 <= i < |sys.queue| ==> Genuine(cfg, sys.st, sys.queue[i].event))
  }

  lemma RepairProbeKeepsServices(cfg: Config, env: Env, st: State, addresses: seq<Address>)
    ensures var post := RepairProbe(cfg, env, st, addresses);
            post == st.(endpoints := post.endpoints)
  {
    hide ParseInt, ProbeKey, ProbeEndpoints;
  }

  lemma RepairKeepsServices(cfg: Config, remote: Remote, env: Env, st: State)
    ensures var post := HandleRepair(cfg, remote, env, st).0;
            post == st.(endpoints := post.endpoints)
  {
    hide ResolveGateway, RepairProbe, RepairOne;
    var addresses := ResolveGateway(cfg.link, env.lookup);
    if addresses.Some? {
      RepairProbeKeepsServices(cfg, env, st, addresses.value);
    }
  }

  lemma RepairReachesAll(cfg: Config, env: Env, k: Key, svc: Service)
    requires RepairSucceeds(cfg, env) && GatewayMirror(cfg.link, svc)
    ensures RepairReaches(cfg, env, k, svc)
  {
    hide GatewayMirror, ResolveGateway, ParseInt, OriginalKey;
  }

  lemma RepairedIsNotReady(cfg: Config, remote: Remote, env: Env, st: State, addresses: seq<Address>, n: Key)
    requires RepairSucceeds(cfg, env) && !st.gatewayAlive
    requires n in st.endpoints && n in st.services && GatewayMirror(cfg.link, st.services[n])
    ensures !HasReady(RepairOne(cfg, remote, env, st, addresses, n).subsets)
  {
    var svc := st.services[n];
    RepairReachesAll(cfg, env, n, svc);
    hide GatewayMirror, RepairReaches, EndpointPorts, RepairedAsEmpty, RepairSucceeds;
    assert EndpointPorts(cfg.link, svc.ports).Some? by { ReachedHasPorts(cfg, env, n, svc); }
    ReadinessLaws(false, GatewaySubsets(addresses, EndpointPorts(cfg.link, svc.ports).value));
  }

  lemma ProbeReadiness(cfg: Config, env: Env, st: State, addresses: seq<Address>, n: Key)
    requires RepairSucceeds(cfg, env) && addresses != []
    ensures ReadyAt(RepairProbe(cfg, env, st, addresses), n) <==> ReadyForRepair(cfg, st, n)
  {
    hide ParseInt, ResolveGateway, ProbeKey;
    if ProbeWrites(cfg, st, n) {
      var post := RepairProbe(cfg, env, st, addresses);
      assert |post.endpoints[n].subsets[0].addresses| > 0;
    }
  }

  /** After a successful repair of a dead gateway exactly those endpoints are ready that it does not mend. */
  lemma RepairReadiness(cfg: Config, remote: Remote, env: Env, st: State, n: Key)
    requires RepairSucceeds(cfg, env) && !st.gatewayAlive
    ensures HandleRepair(cfg, remote, env, st).1 == Done
    ensures ReadyAt(HandleRepair(cfg, remote, env, st).0, n) <==>
              ReadyForRepair(cfg, st, n) && !(n in st.services && GatewayMirror(cfg.link, st.services[n]))
  {
    hide ResolveGateway, RepairProbe, RepairOne, GatewayMirror, ParseInt, HasReady, ReadyForRepair;
    var addresses := ResolveGateway(cfg.link, env.lookup).value;
    var st1 := RepairProbe(cfg, env, st, addresses);
    RepairProbeKeepsServices(cfg, env, st, addresses);
    ProbeReadiness(cfg, env, st, addresses, n);
    assert HandleRepair(cfg, remote, env, st).0 == RepairAll(cfg, remote, env, st1, addresses);
    if n in st1.endpoints {
      if n in st1.services && GatewayMirror(cfg.link, st1.services[n]) {
        RepairedIsNotReady(cfg, remote, env, st1, addresses, n);
      } else {
        PassedOver(cfg, remote, env, st1, addresses, n);
      }
    }
  }

  lemma PassedOver(cfg: Config, remote: Remote, env: Env, st: State, addresses: seq<Address>, n: Key)
    requires n in st.endpoints && !(n in st.services && GatewayMirror(cfg.link, st.services[n]))
    ensures RepairOne(cfg, remote, env, st, addresses, n) == st.endpoints[n]
  {
    hide GatewayMirror, EndpointPorts, Canonical, OriginalKey;
  }

  /** A successful repair of a dead gateway leaves no service of the link ready exactly when no ready one
      carries the discovery label, and no orphans either exactly when there were none. */
  lemma RepairProtects(cfg: Config, remote: Remote, env: Env, st: State)
    requires RepairSucceeds(cfg, env) && !st.gatewayAlive
    ensures HandleRepair(cfg, remote, env, st).1 == Done
    ensures Protected(cfg, HandleRepair(cfg, remote, env, st).0) <==> NothingSkipped(cfg, st)
    ensures Guarded(cfg, HandleRepair(cfg, remote, env, st).0) <==> RepairSuffices(cfg, st)
  {
    hide HandleRepair, ReadyForRepair, ReadyAt, MirrorNamed, OfLink, Headless, RepairSucceeds, Discoverable;
    var post := HandleRepair(cfg, remote, env, st).0;
    RepairKeepsServices(cfg, remote, env, st);
    RepairReadiness(cfg, remote, env, st, ProbeKey(cfg));
    forall n
      ensures ReadyAt(post, n) <==>
                ReadyForRepair(cfg, st, n) && !(n in st.services && GatewayMirror(cfg.link, st.services[n]))
      ensures Exposed(cfg, post, n) <==> ReadyForRepair(cfg, st, n) && Skipped(cfg, st, n)
      ensures Orphaned(cfg, post, n) <==> ReadyForRepair(cfg, st, n) && Unclaimed(cfg, st, n)
    {
      RepairReadiness(cfg, remote, env, st, n);
    }
    ByReadiness(cfg, st, post);
  }

  lemma ByReadiness(cfg: Config, st: State, post: State)
    requires forall n :: Exposed(cfg, post, n) <==> ReadyForRepair(cfg, st, n) && Skipped(cfg, st, n)
    requires forall n :: Orphaned(cfg, post, n) <==> ReadyForRepair(cfg, st, n) && Unclaimed(cfg, st, n)
    ensures Protected(cfg, post) <==> NothingSkipped(cfg, st)
    ensures Guarded(cfg, post) <==> RepairSuffices(cfg, st)
  {
    hide ReadyAt, ReadyForRepair, Skipped, Unclaimed, Fronts;
    if Protected(cfg, post) {
      forall n | ReadyForRepair(cfg, st, n) ensures !Skipped(cfg, st, n) {
        assert Exposed(cfg, post, n) ==> ReadyAt(post, n);
      }
    }
    if Guarded(cfg, post) {
      forall n | ReadyForRepair(cfg, st, n) ensures !Skipped(cfg, st, n) && !Unclaimed(cfg, st, n) {
        assert Exposed(cfg, post, n) ==> ReadyAt(post, n);
        assert Orphaned(cfg, post, n) ==> ReadyAt(post, n);
      }
    }
  }

  lemma HandleFrame(cfg: Config, remote: Remote, env: Env, st: State, ev: Event)
    requires Genuine(cfg, st, ev) && ShapeOk(cfg, st)
    ensures var post := Handle(cfg, remote, env, st, ev).st; Frame(st, post) && ShapeOk(cfg, post)
  {
    hide Handle, HandleRepair, Genuine, Shaped;
    if ev.RepairEndpoints? {
      RepairKeepsServices(cfg, remote, env, st);
      assert Handle(cfg, remote, env, st, ev).st == HandleRepair(cfg, remote, env, st).0 by {
        RepairIsHandled(cfg, remote, env, st);
      }
    } else {
      HandleKept(cfg, remote, env, st, ev);
    }
  }

  lemma RepairIsHandled(cfg: Config, remote: Remote, env: Env, st: State)
    ensures Handle(cfg, remote, env, st, RepairEndpoints)
         == Out(HandleRepair(cfg, remote, env, st).0, [], HandleRepair(cfg, remote, env, st).1, RepairEndpoints)
  {
    hide HandleRepair;
  }

  /** The copies that a handler queues, and those it puts back, are copies of the current object. */
  lemma NewCopiesAreGenuine(cfg: Config, remote: Remote, env: Env, st: State, ev: Event)
    requires Genuine(cfg, st, ev) && ValidEnv(env)
    requires forall n :: n in st.services ==> st.services[n].version < st.now
    ensures var out := Handle(cfg, remote, env, st, ev);
            && (forall i :: 0 <= i < |out.spawned| ==> Genuine(cfg, st, out.spawned[i]))
            && Genuine(cfg, st, out.event)
  {
    hide CreateOrUpdate, HandleEndpoints, HandleExported, HandleUpdated, HandleUnexported;
    hide HandleCreateFederated, HandleJoin, HandleLeave, HandleCleanup, HandleGc, HandleRepair, HandleDelete, OnAdds;
    hide Genuine;
    var out := Handle(cfg, remote, env, st, ev);
    forall e: Event ensures !e.JoinFederated? && !e.Updated? ==> Genuine(cfg, st, e) {
      OnlyCopiesMatter(cfg, st, e);
    }
    if ev.NamespaceAdded? {
      OnAddsShape(remote, env.list(RemoteIn(remote, ev.ns)));
      assert forall i :: 0 <= i < |out.spawned| ==> out.spawned[i] in out.spawned;
    } else if ev.OnAdd? || ev.OnUpdate? {
      DecisionCopies(cfg, env, st, ev);
    } else if ev.OnDelete? {
      DeletionShape(cfg, st, ev);
      DeletionCopies(cfg, st, ev);
    } else if ev.Updated? {
      RetriedUpdate(cfg, remote, env, st, ev);
    } else if ev.JoinFederated? {
      RetriedJoin(cfg, env, st, ev);
    }
  }

  lemma OnlyCopiesMatter(cfg: Config, st: State, ev: Event)
    ensures !ev.JoinFederated? && !ev.Updated? ==> Genuine(cfg, st, ev)
  {
  }

  lemma DecisionCopies(cfg: Config, env: Env, st: State, ev: Event)
    requires ev.OnAdd? || ev.OnUpdate?
    requires forall n :: n in st.services ==> st.services[n].version < st.now
    ensures var out := CreateOrUpdate(cfg, env, st, ev);
            out.event == ev && forall i :: 0 <= i < |out.spawned| ==> Genuine(cfg, st, out.spawned[i])
  {
    hide MirrorKey, FederatedKey, IsFederatedMember, Desired, PutFederatedStatus, FormatNat, Get, Failure;
  }

  lemma DeletionCopies(cfg: Config, st: State, ev: Event)
    requires ev.OnDelete?
    ensures forall i :: 0 <= i < |HandleDelete(cfg, st, ev).spawned| ==>
              Genuine(cfg, st, HandleDelete(cfg, st, ev).spawned[i])
  {
    hide Desired, IsFederatedMember;
  }

  lemma RetriedJoin(cfg: Config, env: Env, st: State, ev: Event)
    requires ev.JoinFederated? && Genuine(cfg, st, ev)
    ensures var out := HandleJoin(cfg, env, st, ev); out.spawned == [] && Genuine(cfg, st, out.event)
  {
    hide UpdateService, PutFederatedStatus, JoinedAnnotations, FederatedKey, Headless;
    VersionStaysRecorded(cfg, ev.key.name, ev.local.annotations);
  }

  lemma RetriedUpdate(cfg: Config, remote: Remote, env: Env, st: State, ev: Event)
    requires ev.Updated? && Genuine(cfg, st, ev)
    ensures var out := HandleUpdated(cfg, remote, env, st, ev); out.spawned == [] && Genuine(cfg, st, out.event)
  {
    hide UpdateService, UpdateMode, PutMirrorStatus, MirrorKey, Mirrored, Failure, MirrorLabels, MirrorAnnotations;
    hide RemapPorts;
    RecordedVersion(cfg.link, ev.key, ev.svc);
  }

  lemma GenuineAfter(cfg: Config, pre: State, post: State, ev: Event)
    requires Genuine(cfg, pre, ev) && Frame(pre, post)
    ensures Genuine(cfg, post.(now := pre.now + 1), ev)
  {
    hide FederatedKey, MirrorKey;
  }

  lemma StepConsistent(cfg: Config, sys: System, i: nat, env: Env)
    requires Consistent(cfg, sys) && i < |sys.queue| && ValidEnv(env)
    ensures Consistent(cfg, Step(cfg, sys, i, env))
  {
    var item := sys.queue[i];
    var out := Handle(cfg, sys.remote, env, sys.st, item.event);
    HandleFrame(cfg, sys.remote, env, sys.st, item.event);
    NewCopiesAreGenuine(cfg, sys.remote, env, sys.st, item.event);
    var sys' := Step(cfg, sys, i, env);
    hide Handle, Genuine, Shaped;
    assert sys'.st == out.st.(now := sys.st.now + 1);
    assert ShapeOk(cfg, sys'.st);
    var kept := Drop(sys.queue, i);
    forall j | 0 <= j < |sys'.queue| ensures Genuine(cfg, sys'.st, sys'.queue[j].event) {
      if j < |kept| {
        assert sys'.queue[j] == sys.queue[if j < i then j else j + 1];
        GenuineAfter(cfg, sys.st, out.st, sys'.queue[j].event);
      } else if j < |kept| + |out.spawned| {
        assert sys'.queue[j].event == out.spawned[j - |kept|];
        GenuineAfter(cfg, sys.st, out.st, sys'.queue[j].event);
      } else {
        assert sys'.queue[j].event == out.event;
        GenuineAfter(cfg, sys.st, out.st, sys'.queue[j].event);
      }
    }
  }

  lemma RepairStepShields(cfg: Config, sys: System, i: nat, env: Env)
    requires i < |sys.queue| && sys.queue[i].event.RepairEndpoints?
    requires !sys.st.gatewayAlive && RepairSucceeds(cfg, env) && RepairSuffices(cfg, sys.st)
    ensures Guarded(cfg, Step(cfg, sys, i, env).st)
  {
    hide Handle, HandleRepair, RepairSucceeds, RepairSuffices, Guarded;
    var out := Handle(cfg, sys.remote, env, sys.st, RepairEndpoints);
    RepairIsHandled(cfg, sys.remote, env, sys.st);
    RepairProtects(cfg, sys.remote, env, sys.st);
    GuardIgnoresClock(cfg, out.st, sys.st.now + 1);
  }

  /** With a dead gateway no event but a repair or a headless endpoints event creates an orphan or exposes a
      service, and a headless endpoints event does exactly under its guard. */
  lemma OnlyHeadlessEventsOrphan(cfg: Config, remote: Remote, env: Env, st: State, ev: Event)
    requires !st.gatewayAlive && Guarded(cfg, st) && ShapeOk(cfg, st) && Genuine(cfg, st, ev) && !ev.RepairEndpoints?
    ensures Guarded(cfg, Handle(cfg, remote, env, st, ev).st) <==>
              !(HeadlessEvent(cfg, ev) && LeavesOrphan(cfg, remote, env, st, ev.key, ev.ep))
  {
    hide Handle, HandleHeadless, Guarded, ShapeOk, Genuine, Good, LeavesOrphan, IsHeadlessEndpoints;
    if HeadlessEvent(cfg, ev) {
      HeadlessEventIsHandled(cfg, remote, env, st, ev);
      HeadlessEventOrphans(cfg, remote, env, st, ev.key, ev.ep);
    } else {
      HandleGood(cfg, remote, env, st, ev);
      GoodKeepsGuard(cfg, st, Handle(cfg, remote, env, st, ev).st);
    }
  }

  lemma OtherStepShields(cfg: Config, sys: System, i: nat, env: Env)
    requires Consistent(cfg, sys) && i < |sys.queue| && !sys.queue[i].event.RepairEndpoints?
    requires !sys.st.gatewayAlive && Guarded(cfg, sys.st)
    requires var ev := sys.queue[i].event;
             !(HeadlessEvent(cfg, ev) && LeavesOrphan(cfg, sys.remote, env, sys.st, ev.key, ev.ep))
    ensures Guarded(cfg, Step(cfg, sys, i, env).st)
  {
    hide Handle, ShapeOk, Genuine, Guarded, LeavesOrphan, HeadlessEvent;
    var out := Handle(cfg, sys.remote, env, sys.st, sys.queue[i].event);
    OnlyHeadlessEventsOrphan(cfg, sys.remote, env, sys.st, sys.queue[i].event);
    GuardIgnoresClock(cfg, out.st, sys.st.now + 1);
  }

  lemma RepairStaysQueued(cfg: Config, sys: System, i: nat, env: Env)
    requires i < |sys.queue| && RepairQueued(Drop(sys.queue, i))
    ensures RepairQueued(Step(cfg, sys, i, env).queue)
  {
    hide Handle;
    var kept := Drop(sys.queue, i);
    var r :| 0 <= r < |kept| && kept[r].event.RepairEndpoints?;
    assert Step(cfg, sys, i, env).queue[r] == kept[r];
  }

  lemma OtherDropKeepsRepair(queue: seq<Item>, i: nat)
    requires i < |queue| && !queue[i].event.RepairEndpoints? && RepairQueued(queue)
    ensures RepairQueued(Drop(queue, i))
  {
    var r :| 0 <= r < |queue| && queue[r].event.RepairEndpoints?;
    assert Drop(queue, i)[if r < i then r else r - 1] == queue[r];
  }

  lemma ProcessShields(cfg: Config, sys: System, i: nat, env: Env)
    requires Consistent(cfg, sys) && Shielded(cfg, sys) && Admissible(cfg, sys, Process(i, env))
    ensures Shielded(cfg, Step(cfg, sys, i, env))
  {
    hide Handle, Genuine, Shaped, RepairSucceeds, ValidEnv, Guarded, RepairSuffices, LeavesOrphan, RepairQueued, Drop;
    hide HeadlessEvent;
    if sys.st.gatewayAlive {
      HandleFrame(cfg, sys.remote, env, sys.st, sys.queue[i].event);
    } else if sys.queue[i].event.RepairEndpoints? {
      if !RepairQueued(Step(cfg, sys, i, env).queue) {
        RepairStepShields(cfg, sys, i, env);
      }
    } else if RepairQueued(sys.queue) {
      OtherDropKeepsRepair(sys.queue, i);
      RepairStaysQueued(cfg, sys, i, env);
    } else {
      OtherStepShields(cfg, sys, i, env);
    }
  }

  lemma GuardIgnoresClock(cfg: Config, st: State, now: nat)
    requires Guarded(cfg, st)
    ensures Guarded(cfg, st.(now := now))
  {
    hide Fronts, HasReady, Waiting, MirrorNamed;
    forall n | ReadyAt(st.(now := now), n)
      ensures !Exposed(cfg, st.(now := now), n) && !Orphaned(cfg, st.(now := now), n)
    {
      assert ReadyAt(st, n);
    }
  }

  /** Inputs change no service and no endpoints; fewer namespaces make no orphan. */
  lemma InputKeepsGuard(cfg: Config, st: State, namespaces: set<string>)
    requires Guarded(cfg, st)
    requires namespaces <= st.namespaces || NoOrphans(cfg, st.(namespaces := namespaces))
    ensures Guarded(cfg, st.(namespaces := namespaces))
  {
    hide Fronts, HasReady, Waiting, MirrorNamed;
    var post := st.(namespaces := namespaces);
    forall n | ReadyAt(post, n) ensures !Exposed(cfg, post, n) && !Orphaned(cfg, post, n) {
      assert ReadyAt(st, n);
    }
  }

  lemma EnqueuedConsistent(cfg: Config, sys: System, move: Move)
    requires Consistent(cfg, sys) && !move.Process? && (move.Informer? ==> FromOutside(move.event))
    ensures Consistent(cfg, Next(cfg, sys, move))
    ensures RepairQueued(sys.queue) ==> RepairQueued(Next(cfg, sys, move).queue)
    ensures move.SetAlive? || move.Tick? ==> RepairQueued(Next(cfg, sys, move).queue)
  {
    hide Shaped, FederatedKey, MirrorKey;
    var sys' := Next(cfg, sys, move);
    var last := |sys.queue|;
    assert sys'.queue[last] == Item(sys.nextId, sys'.queue[last].event, 0);
    assert forall i :: 0 <= i < last ==> sys'.queue[i] == sys.queue[i];
    assert forall i :: 0 <= i < last ==> Genuine(cfg, sys.st, sys.queue[i].event);
    if RepairQueued(sys.queue) {
      var r :| 0 <= r < |sys.queue| && sys.queue[r].event.RepairEndpoints?;
      assert sys'.queue[r].event.RepairEndpoints?;
    }
    if move.SetAlive? || move.Tick? {
      assert sys'.queue[last].event.RepairEndpoints?;
    }
  }

  lemma MoveShields(cfg: Config, sys: System, move: Move)
    requires Consistent(cfg, sys) && Shielded(cfg, sys) && Admissible(cfg, sys, move)
    ensures Consistent(cfg, Next(cfg, sys, move)) && Shielded(cfg, Next(cfg, sys, move))
  {
    hide Step, Consistent, Guarded, RepairQueued, RepairSucceeds, RepairSuffices, LeavesOrphan, HeadlessEvent, ValidEnv;
    hide NoOrphans;
    if move.Process? {
      StepConsistent(cfg, sys, move.index, move.env);
      ProcessShields(cfg, sys, move.index, move.env);
    } else {
      EnqueuedConsistent(cfg, sys, move);
      if move.Informer? && !sys.st.gatewayAlive && !RepairQueued(sys.queue) {
        InputKeepsGuard(cfg, sys.st, move.namespaces);
      }
    }
  }

  /** Liveness safety over whole runs: from any consistent start, with any interleaving of service,
      endpoints, namespace, liveness and timer input and any failures up to the last queued repair, a dead
      gateway with no repair queued has no service of the link with a ready address. */
  lemma {:induction false} LivenessSafety(cfg: Config, sys: System, moves: seq<Move>)
    requires Consistent(cfg, sys) && Shielded(cfg, sys) && AdmissibleRun(cfg, sys, moves)
    ensures Safe(cfg, After(cfg, sys, moves))
    ensures Shielded(cfg, After(cfg, sys, moves)) && Consistent(cfg, After(cfg, sys, moves))
    decreases |moves|
  {
    hide Shielded, Safe, Consistent, Step, ValidEnv, RepairSucceeds, RepairSuffices, LeavesOrphan, HeadlessEvent;
    hide NoOrphans, RepairQueued;
    if moves == [] {
      ShieldedIsSafe(cfg, sys);
    } else {
      MoveShields(cfg, sys, moves[0]);
      LivenessSafety(cfg, Next(cfg, sys, moves[0]), moves[1..]);
    }
  }

  /* ---------- the condition is exact ---------- */

  ghost function Listing(keys: set<Key>): seq<Key> {
    if keys == {} then [] else var k :| k in keys; [k] + Listing(keys - {k})
  }

  lemma {:induction false} ListingEnumerates(keys: set<Key>)
    ensures Enumerates(Listing(keys), keys)
  {
    if keys != {} {
      var s := Listing(keys);
      var k :| k in keys && s == [k] + Listing(keys - {k});
      ListingEnumerates(keys - {k});
      forall j | j in keys ensures j in s {
        if j != k { assert j in Listing(keys - {k}); }
      }
    }
  }

  /** Remote endpoints cannot be read; everything else works. */
  ghost function Unreadable(): (env: Env)
    ensures ValidEnv(env)
    ensures forall c :: env.ok(c) <==> !c.RemoteGetEndpoints?
  {
    var env := Env((c: Call) => !c.RemoteGetEndpoints?, (h: string) => None, (k: Key) => "10.0.0.1",
                   (keys: set<Key>) => Listing(keys));
    assert forall keys :: Enumerates(env.list(keys), keys) by {
      forall keys ensures Enumerates(env.list(keys), keys) { ListingEnumerates(keys); }
    }
    assert "10.0.0.1" != CLUSTER_IP_NONE by { assert |"10.0.0.1"| == 8; }
    env
  }

  /** Exporting any service over orphaned endpoints exposes it when the roll-back is not reached. */
  lemma AdoptionExposes(cfg: Config, remote: Remote, st: State, k: Key)
    requires Orphaned(cfg, st, MirrorKey(cfg.link, k)) && MirrorKey(cfg.link, k) !in st.services
    ensures Exposed(cfg, HandleExported(cfg, remote, Unreadable(), st, k, Service(map[], map[], [], "", 0)).0,
                    MirrorKey(cfg.link, k))
  {
    hide MirrorLabels, MirrorAnnotations, RemapPorts, HasReady, MirrorNamed, ResolveGateway, EndpointPorts, OfLink;
    hide Update, MirrorKey;
    hide IsRemoteDiscovery, Discoverable;
    var env := Unreadable();
    var svc := Service(map[], map[], [], "", 0);
    var mk := MirrorKey(cfg.link, k);
    MirrorLabelFacts(cfg.link, k, map[]);
    var (st1, ns) := EnsureNamespace(cfg, env, st, k.ns);
    assert ns == Present && mk.ns == k.ns by { SameNamespace(cfg, k); }
    var (st2, created) := CreateService(env, st1, mk, NewMirror(cfg, k, svc, ""));
    assert created == Ok;
    assert Exposed(cfg, st2, mk);
    assert CreateGatewayEndpoints(cfg, remote, env, st2, k, svc) == (st2, Retry);
  }

  /** Updating another's service to discovery mode exposes it when it had no endpoints before. */
  lemma TakeoverExposes(cfg: Config, remote: Remote, st: State, k: Key, labels: Labels)
    requires Orphaned(cfg, st, MirrorKey(cfg.link, k)) && MirrorKey(cfg.link, k) in st.services
    requires IsRemoteDiscovery(cfg.link, labels)
    ensures var ev := Updated(k, st.services[MirrorKey(cfg.link, k)], None, Service(labels, map[], [], "", 0));
            Exposed(cfg, HandleUpdated(cfg, remote, Unreadable(), st, ev).st, MirrorKey(cfg.link, k))
  {
    hide MirrorLabels, MirrorAnnotations, RemapPorts, HasReady, MirrorNamed, ResolveGateway, EndpointPorts, OfLink;
    hide Update, MirrorKey;
    hide IsRemoteDiscovery, Discoverable;
    MirrorLabelFacts(cfg.link, k, labels);
  }

  /** In a protected state of a dead gateway, every event other than a repair keeps it protected whatever
      fails, exactly when there are no orphaned ready endpoints under a mirror name. */
  lemma OrphansAreTheOnlyRisk(cfg: Config, remote: Remote, st: State)
    requires !st.gatewayAlive && Protected(cfg, st) && ShapeOk(cfg, st)
    requires forall n :: n in st.services ==> st.services[n].version < st.now
    ensures NoOrphans(cfg, st) <==>
            forall env: Env, ev: Event | ValidEnv(env) && !ev.RepairEndpoints? && Genuine(cfg, st, ev) ::
              Protected(cfg, Handle(cfg, remote, env, st, ev).st)
  {
    hide Handle, Fronts, HasReady, Shaped, Genuine, MirrorNamed, Waiting;
    if NoOrphans(cfg, st) {
      assert Guarded(cfg, st);
      forall env: Env, ev: Event | ValidEnv(env) && !ev.RepairEndpoints? && Genuine(cfg, st, ev)
        ensures Protected(cfg, Handle(cfg, remote, env, st, ev).st)
      {
        HandleKept(cfg, remote, env, st, ev);
      }
    } else {
      var n :| Orphaned(cfg, st, n);
      var ev := AnExposingEvent(cfg, remote, st, n);
      var post := Handle(cfg, remote, Unreadable(), st, ev).st;
      assert Exposed(cfg, post, n) && ReadyAt(post, n);
      assert !Protected(cfg, post);
    }
  }

  lemma AnExposingEvent(cfg: Config, remote: Remote, st: State, n: Key) returns (ev: Event)
    requires Orphaned(cfg, st, n) && forall m :: m in st.services ==> st.services[m].version < st.now
    ensures !ev.RepairEndpoints? && Genuine(cfg, st, ev)
    ensures Exposed(cfg, Handle(cfg, remote, Unreadable(), st, ev).st, n)
  {
    hide Handle, HandleExported, HandleUpdated, OriginalKey, MirrorKey, Fronts, HasReady, OfLink, MirrorNamed;
    hide IsRemoteDiscovery;
    var k := OriginalKey(cfg.link, n);
    MirrorOfOriginal(cfg, n);
    if n in st.services {
      var labels :| IsRemoteDiscovery(cfg.link, labels);
      ev := Updated(k, st.services[n], None, Service(labels, map[], [], "", 0));
      TakeoverExposes(cfg, remote, st, k, labels);
      UpdateIsHandled(cfg, remote, Unreadable(), st, ev);
    } else {
      ev := Exported(k, Service(map[], map[], [], "", 0));
      AdoptionExposes(cfg, remote, st, k);
      ExportIsHandled(cfg, remote, Unreadable(), st, k, Service(map[], map[], [], "", 0));
    }
  }

  lemma ExportIsHandled(cfg: Config, remote: Remote, env: Env, st: State, k: Key, svc: Service)
    ensures Handle(cfg, remote, env, st, Exported(k, svc))
              == Plain(HandleExported(cfg, remote, env, st, k, svc), Exported(k, svc))
  {
    hide HandleExported;
  }

  lemma UpdateIsHandled(cfg: Config, remote: Remote, env: Env, st: State, ev: Event)
    requires ev.Updated?
    ensures Handle(cfg, remote, env, st, ev) == HandleUpdated(cfg, remote, env, st, ev)
  {
    hide HandleUpdated;
  }

  lemma MirrorOfOriginal(cfg: Config, n: Key)
    requires MirrorNamed(cfg, n)
    ensures MirrorKey(cfg.link, OriginalKey(cfg.link, n)) == n
  {
    var suffix := "-" + cfg.link.cluster;
    assert n.name == n.name[..|n.name| - |suffix|] + suffix;
  }
}
