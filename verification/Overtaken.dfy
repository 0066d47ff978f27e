/** Services that change again, or go and come back, while an event about them is queued. With every call going
    through and the queue handled in order, the mirror may end up stale or missing. The next report mends it. */
module Overtaken {
  import opened Strings
  import opened Kubernetes
  import opened Mirror
  import opened StatusList
  import opened Api
  import opened Handlers
  import opened Effects
  import opened Machine
  import opened Liveness
  import opened Refinement
  import opened Drained
  import opened Overlaps
  import Enrolment

  type State = Api.State

  /* ---------- the next report ---------- */

  /** The queue is empty and every service is in sync or among `keys`. */
  ghost predicate Behind(cfg: Config, sys: System, keys: seq<Key>) {
    && sys.queue == [] && Consistent(cfg, sys) && RemoteOk(sys.remote) && AllBase(cfg, sys.remote, sys.st)
    && (forall i :: 0 <= i < |keys| ==> keys[i] in sys.remote.services)
    && (forall j :: j in keys || InSync(cfg, sys.remote, sys.st, j))
  }

  /** Each of the services is reported once more, as it is. */
  function Reports(remote: Remote, keys: seq<Key>): (events: seq<Event>)
    requires forall i :: 0 <= i < |keys| ==> keys[i] in remote.services
    ensures |events| == |keys|
    ensures forall i :: 0 <= i < |keys| ==> events[i] == OnUpdate(keys[i], remote.services[keys[i]])
  {
    seq(|keys|, i requires 0 <= i < |keys| => OnUpdate(keys[i], remote.services[keys[i]]))
  }

  function Resync(sys: System, keys: seq<Key>, endpoints: map<Key, Endpoints>): System
    requires forall i :: 0 <= i < |keys| ==> keys[i] in sys.remote.services
  {
    System(Remote(sys.remote.services, endpoints), sys.st, sys.queue + Fresh(Reports(sys.remote, keys), sys.nextId),
           sys.nextId + |keys|)
  }

  lemma ResyncOfOne(sys: System, k: Key, endpoints: map<Key, Endpoints>)
    requires k in sys.remote.services
    ensures Resync(sys, [k], endpoints) == Receive(sys, RemoteUpdate(k, sys.remote.services[k]), endpoints)
  {
    var svc := sys.remote.services[k];
    assert sys.remote.services[k := svc] == sys.remote.services;
    assert Fresh(Reports(sys.remote, [k]), sys.nextId) == [Item(sys.nextId, OnUpdate(k, svc), 0)];
  }

  lemma ReportsLone(remote: Remote, keys: seq<Key>)
    requires Distinct(keys) && forall i :: 0 <= i < |keys| ==> keys[i] in remote.services
    ensures Lone(Reports(remote, keys))
  {
    hide Reports;
  }

  lemma ReportsOrderly(cfg: Config, remote: Remote, st: State, keys: seq<Key>)
    requires forall i :: 0 <= i < |keys| ==> keys[i] in remote.services
    ensures Orderly(cfg, remote, st, Reports(remote, keys))
    ensures forall i :: 0 <= i < |keys| ==> Covered(cfg, remote, st, Reports(remote, keys), keys[i])
  {
    hide Reports, ViewAt, Desired;
    var events := Reports(remote, keys);
    forall i | 0 <= i < |keys| ensures Covered(cfg, remote, st, events, keys[i]) {
      assert Covers(cfg, remote, st, events[i], keys[i]);
    }
  }

  lemma RemoteEndpointsDoNotMatter(cfg: Config, remote: Remote, st: State, endpoints: map<Key, Endpoints>, k: Key)
    ensures Base(cfg, Remote(remote.services, endpoints), st, k) == Base(cfg, remote, st, k)
    ensures InSync(cfg, Remote(remote.services, endpoints), st, k) == InSync(cfg, remote, st, k)
  {
    hide ViewAt, Reflects, Desired, Claimed, Unreused;
  }

  lemma ResyncTracks(cfg: Config, sys: System, keys: seq<Key>, endpoints: map<Key, Endpoints>)
    requires Behind(cfg, sys, keys)
    ensures Tracking(cfg, Resync(sys, keys, endpoints))
  {
    hide Shaped, Base, InSync, Orderly, Covered, FederatedKey, MirrorKey, Reports;
    var after := Resync(sys, keys, endpoints);
    assert Events(after.queue) == Reports(after.remote, keys);
    ReportsOrderly(cfg, after.remote, after.st, keys);
    forall j
      ensures Base(cfg, after.remote, after.st, j)
      ensures InSync(cfg, after.remote, after.st, j) || Covered(cfg, after.remote, after.st, Events(after.queue), j)
    {
      assert Base(cfg, sys.remote, sys.st, j);
      RemoteEndpointsDoNotMatter(cfg, sys.remote, sys.st, endpoints, j);
      if j in keys {
        var i :| 0 <= i < |keys| && keys[i] == j;
      }
    }
  }

  /** Where services have fallen behind, one report of each as it is now, handled in order with every call going
      through, makes the mirrors exact. */
  lemma ResyncMends(cfg: Config, sys: System, keys: seq<Key>, endpoints: map<Key, Endpoints>, env: Env) returns (n: nat)
    requires Behind(cfg, sys, keys) && Distinct(keys) && Succeeds(env) && !FederatedLike(cfg.link.cluster)
    requires Resolves(cfg, env) || DiscoveryOnly(cfg, sys.remote)
    ensures var end := InOrder(cfg, Resync(sys, keys, endpoints), env, n);
            end.queue == [] && MirrorsExactly(cfg, end)
  {
    hide Consistent, AllBase, InSync, Tracking, Succeeds, FederatedLike, Resolves, InOrder, MirrorsExactly, Lone;
    hide Reports;
    var after := Resync(sys, keys, endpoints);
    ResyncTracks(cfg, sys, keys, endpoints);
    assert Events(after.queue) == Reports(sys.remote, keys);
    ReportsLone(sys.remote, keys);
    LoneIsOrdered(Events(after.queue));
    n := OrderedDrains(cfg, after, env);
    DrainedMirrors(cfg, InOrder(cfg, after, env, n));
  }

  /* ---------- what stays in sync ---------- */

  predicate AgreeAt(a: Remote, b: Remote, k: Key) {
    (k in a.services <==> k in b.services) && (k in a.services ==> a.services[k] == b.services[k])
  }

  /** Only k differs between the two remote clusters. */
  ghost predicate DifferAt(a: Remote, b: Remote, k: Key) {
    forall j :: j != k ==> AgreeAt(a, b, j)
  }

  /** Other services do not notice a change of k. */
  lemma OthersStay(cfg: Config, sys: System, remote: Remote, k: Key)
    requires Tracking(cfg, sys) && sys.queue == [] && DifferAt(sys.remote, remote, k)
    requires Base(cfg, remote, sys.st, k)
    ensures AllBase(cfg, remote, sys.st) && forall j :: j != k ==> InSync(cfg, remote, sys.st, j)
  {
    hide Consistent, Orderly, Base, InSync, Covers, RemoteOk;
    forall j
      ensures Base(cfg, remote, sys.st, j)
      ensures j != k ==> InSync(cfg, remote, sys.st, j)
    {
      assert Base(cfg, sys.remote, sys.st, j);
      assert InSync(cfg, sys.remote, sys.st, j) || Covered(cfg, sys.remote, sys.st, Events(sys.queue), j);
      if j != k {
        assert AgreeAt(sys.remote, remote, j);
        SameService(cfg, sys.remote, remote, sys.st, j);
      }
    }
  }

  lemma SameService(cfg: Config, a: Remote, b: Remote, st: State, j: Key)
    requires AgreeAt(a, b, j)
    ensures Base(cfg, b, st, j) == Base(cfg, a, st, j) && InSync(cfg, b, st, j) == InSync(cfg, a, st, j)
  {
    hide ViewAt, Reflects, Desired, Claimed, Unreused;
  }

  lemma BehindAtOne(cfg: Config, pre: State, end: System, k: Key)
    requires AllBase(cfg, end.remote, pre) && (forall j :: j != k ==> InSync(cfg, end.remote, pre, j))
    requires OnlyAt(cfg, pre, end.st, k) && Base(cfg, end.remote, end.st, k)
    requires Consistent(cfg, end) && RemoteOk(end.remote) && end.queue == [] && k in end.remote.services
    ensures Behind(cfg, end, [k])
  {
    hide Consistent, Base, InSync, ViewAt, RemoteOk;
    BaseElsewhere(cfg, end.remote, pre, end.st, k);
    forall j | j != k ensures InSync(cfg, end.remote, end.st, j) {
      InSyncDependsOnView(cfg, end.remote, pre, end.st, j);
    }
  }

  /** A mirror of another version than the current one. */
  lemma StaleView(cfg: Config, remote: Remote, st: State, k: Key, was: Service)
    requires k in remote.services && Reflects(cfg, k, was, ViewAt(cfg, st, k)) && k.ns in st.namespaces
    requires !Headless(ViewAt(cfg, st, k).svc.value) && was.version != remote.services[k].version
    ensures Base(cfg, remote, st, k) && !Reflects(cfg, k, remote.services[k], ViewAt(cfg, st, k))
    ensures !Records(ViewAt(cfg, st, k).svc.value, remote.services[k].version)
  {
    hide ViewAt, MirrorLabels, MirrorAnnotations, RemapPorts, Desired, Headless, OfLink, IsRemoteDiscovery, FormatNat;
    var svc := remote.services[k];
    MirrorLabelFacts(cfg.link, k, was.labels);
    RecordedVersion(cfg.link, k, was);
    RecordedVersion(cfg.link, k, svc);
    if FormatNat(was.version) == FormatNat(svc.version) {
      FormatNatInjective(was.version, svc.version);
    }
  }

  lemma StaleIsNotExact(cfg: Config, sys: System, k: Key)
    requires Wanted(cfg, sys.remote, sys.st, k)
    requires !Reflects(cfg, k, sys.remote.services[k], ViewAt(cfg, sys.st, k))
    ensures !MirrorsExactly(cfg, sys)
  {
    hide ViewAt, Reflects, Wanted, OfLink, MirrorKey;
  }

  lemma ReceivedConsistent(cfg: Config, sys: System, input: Input, endpoints: map<Key, Endpoints>)
    requires Consistent(cfg, sys) && (input.RemoteAdd? || input.RemoteUpdate? || input.RemoteDelete?)
    requires input.RemoteDelete? ==> input.key in sys.remote.services
    ensures Consistent(cfg, Receive(sys, input, endpoints))
  {
    hide Consistent;
    var after := Receive(sys, input, endpoints);
    var move := Informer(after.remote, sys.st.namespaces, Report(sys, input));
    EnqueuedConsistent(cfg, sys, move);
    assert Next(cfg, sys, move) == after;
  }

  lemma OnlyTheClock(cfg: Config, st: State, now: nat, k: Key)
    ensures OnlyAt(cfg, st, st.(now := now), k)
  {
    forall j ensures ViewAt(cfg, st.(now := now), j) == ViewAt(cfg, st, j) {
      ViewIgnoresClock(cfg, st, now, j);
    }
  }

  /* ---------- single steps ---------- */

  /** The first queued event decides to export k. */
  lemma DecidedExport(cfg: Config, sys: System, env: Env, k: Key, svc: Service) returns (next: System)
    requires Succeeds(env) && sys.queue != [] && DecidesNow(sys.queue[0].event, k, svc)
    requires Desired(cfg.link, svc.labels) && ViewAt(cfg, sys.st, k).svc.None?
    ensures next == Step(cfg, sys, 0, env)
    ensures next == System(sys.remote, sys.st.(now := sys.st.now + 1),
                           sys.queue[1..] + [Item(sys.nextId, Exported(k, svc), 0)], sys.nextId + 1)
  {
    hide Handle, Step, Succeeds, Desired, MirrorKey, Reported;
    next := Step(cfg, sys, 0, env);
    FirstStep(cfg, sys, env);
    Enrolment.OnlyExports(cfg, sys.remote, env, sys.st, sys.queue[0].event);
    assert sys.queue[1..] + Fresh([Exported(k, svc)], sys.nextId) + []
        == sys.queue[1..] + [Item(sys.nextId, Exported(k, svc), 0)];
  }

  /** The first queued event exports k, which has no mirror yet. */
  lemma FirstExport(cfg: Config, sys: System, env: Env, k: Key, svc: Service) returns (next: System)
    requires Succeeds(env) && Routable(cfg, env, svc) && !Headless(svc)
    requires sys.queue != [] && sys.queue[0].event == Exported(k, svc)
    requires cfg.namespaceCreation || k.ns in sys.st.namespaces
    requires ViewAt(cfg, sys.st, k).svc.None? && ViewAt(cfg, sys.st, k).ep.None?
    ensures next == Step(cfg, sys, 0, env) && next.remote == sys.remote && next.queue == sys.queue[1..]
    ensures OnlyAt(cfg, sys.st, next.st, k) && k.ns in next.st.namespaces
    ensures Reflects(cfg, k, svc, ViewAt(cfg, next.st, k)) && !Headless(ViewAt(cfg, next.st, k).svc.value)
  {
    hide Handle, HandleExported, Step, ViewAt, Succeeds, Routable, Reflects, Headless, OnlyAt;
    next := Step(cfg, sys, 0, env);
    FirstStep(cfg, sys, env);
    ExportIsHandled(cfg, sys.remote, env, sys.st, k, svc);
    ExportSucceeds(cfg, sys.remote, env, sys.st, k, svc);
    var post := HandleExported(cfg, sys.remote, env, sys.st, k, svc).0;
    ReflectsHasService(cfg, k, svc, ViewAt(cfg, post, k));
    ViewIgnoresClock(cfg, post, sys.st.now + 1, k);
    OnlyTheClock(cfg, post, sys.st.now + 1, k);
    OnlyAtTransitive(cfg, sys.st, post, next.st, k);
    assert sys.queue[1..] + Fresh([], sys.nextId) + [] == sys.queue[1..];
  }

  /** The first queued event exports k in discovery mode over a mirror that is there. */
  lemma VoidExport(cfg: Config, sys: System, env: Env, k: Key, svc: Service) returns (next: System)
    requires Succeeds(env) && IsRemoteDiscovery(cfg.link, svc.labels) && !Headless(svc)
    requires sys.queue != [] && sys.queue[0].event == Exported(k, svc)
    requires k.ns in sys.st.namespaces && ViewAt(cfg, sys.st, k).svc.Some?
    ensures next == Step(cfg, sys, 0, env) && next.remote == sys.remote && next.queue == sys.queue[1..]
    ensures OnlyAt(cfg, sys.st, next.st, k) && next.st.namespaces == sys.st.namespaces
    ensures var v, w := ViewAt(cfg, sys.st, k), ViewAt(cfg, next.st, k);
            w.svc == v.svc && w.ep == v.ep && (cfg.link.cluster != "" ==> w.reported)
  {
    hide Handle, HandleExported, Step, ViewAt, Succeeds, IsRemoteDiscovery, Headless, OnlyAt, MirrorKey, Mirrored;
    hide PutMirrorStatus;
    next := Step(cfg, sys, 0, env);
    FirstStep(cfg, sys, env);
    ExportIsHandled(cfg, sys.remote, env, sys.st, k, svc);
    ExportOver(cfg, sys.remote, env, sys.st, k, svc);
    var mk := MirrorKey(cfg.link, k);
    assert sys.st.(namespaces := sys.st.namespaces + {k.ns}) == sys.st;
    MirroredIsTrue(mk);
    PutStatusView(cfg, sys.st, k, Mirrored(mk));
    var post := PutMirrorStatus(cfg, sys.st, k, Mirrored(mk));
    ViewIgnoresClock(cfg, post, sys.st.now + 1, k);
    OnlyTheClock(cfg, post, sys.st.now + 1, k);
    OnlyAtTransitive(cfg, sys.st, post, next.st, k);
    assert sys.queue[1..] + Fresh([], sys.nextId) + [] == sys.queue[1..];
  }

  /* ---------- changed before its first export ---------- */

  /** A new service changes while its first report is queued, the new version in discovery mode. Every call goes
      through and events are handled in order. The queue drains, and the mirror is that of the earlier version, reported
      as mirrored: the second export finds it there and leaves it. Only the next report brings the current version. */
  lemma ExportOfEarlierVersion(cfg: Config, sys: System, env: Env, k: Key, was: Service, svc: Service,
                               endpoints: map<Key, Endpoints>)
    requires Tracking(cfg, sys) && sys.queue == [] && k !in sys.remote.services
    requires !Headless(was) && !Headless(svc) && was.version != svc.version
    requires Desired(cfg.link, was.labels) && IsRemoteDiscovery(cfg.link, svc.labels)
    requires cfg.namespaceCreation || k.ns in sys.st.namespaces
    requires Succeeds(env) && Routable(cfg, env, was)
    ensures var first := Receive(sys, RemoteAdd(k, was), endpoints);
            var end := InOrder(cfg, Receive(first, RemoteUpdate(k, svc), endpoints), env, 4);
            && Possible(cfg, sys, RemoteAdd(k, was)) && !Quiet(first, k) && Timely(first, RemoteUpdate(k, svc))
            && end.queue == [] && Reflects(cfg, k, was, ViewAt(cfg, end.st, k)) && !MirrorsExactly(cfg, end)
            && (cfg.link.cluster != "" ==> ViewAt(cfg, end.st, k).reported)
            && Behind(cfg, end, [k])
  {
    hide Handle, Step, InOrder, ViewAt, Reflects, Succeeds, Routable, Headless, Desired, Tracking, MirrorsExactly;
    hide IsRemoteDiscovery, OnlyAt, Consistent, Behind, AllBase, InSync, Base;
    var first := Receive(sys, RemoteAdd(k, was), endpoints);
    var s0 := Receive(first, RemoteUpdate(k, svc), endpoints);
    TwoReports(sys, first, s0, k, was, svc, endpoints);
    Enrolment.NothingThere(cfg, sys, k);
    AbsentIsBase(cfg, s0.remote, sys.st, k);
    OthersStay(cfg, sys, s0.remote, k);
    DiscoveryIsDesired(cfg.link, svc.labels);
    var s1 := DecidedExport(cfg, s0, env, k, was);
    ViewIgnoresClock(cfg, s0.st, s1.st.now, k);
    var s2 := DecidedExport(cfg, s1, env, k, svc);
    ViewIgnoresClock(cfg, s0.st, s2.st.now, k);
    OnlyTheClock(cfg, sys.st, s2.st.now, k);
    assert s2.queue == [Item(s0.nextId, Exported(k, was), 0), Item(s1.nextId, Exported(k, svc), 0)];
    var s3 := FirstExport(cfg, s2, env, k, was);
    ReflectsHasService(cfg, k, was, ViewAt(cfg, s3.st, k));
    var s4 := VoidExport(cfg, s3, env, k, svc);
    OnlyAtTransitive(cfg, sys.st, s2.st, s3.st, k);
    OnlyAtTransitive(cfg, sys.st, s3.st, s4.st, k);
    SameReflection(cfg, k, was, ViewAt(cfg, s3.st, k), ViewAt(cfg, s4.st, k));
    InOrderUnfolds(cfg, s0, env);
    InOrderUnfolds(cfg, s1, env);
    InOrderUnfolds(cfg, s2, env);
    InOrderUnfolds(cfg, s3, env);
    InOrderUnfolds(cfg, s4, env);
    StaleView(cfg, s4.remote, s4.st, k, was);
    StaleIsNotExact(cfg, s4, k);
    TrackingParts(cfg, sys);
    ReceivedConsistent(cfg, sys, RemoteAdd(k, was), endpoints);
    ReceivedConsistent(cfg, first, RemoteUpdate(k, svc), endpoints);
    FourStepsConsistent(cfg, s0, s1, s2, s3, s4, env);
    BehindAtOne(cfg, sys.st, s4, k);
  }

  lemma SameReflection(cfg: Config, k: Key, svc: Service, v: View, w: View)
    requires Reflects(cfg, k, svc, v) && w.svc == v.svc && w.ep == v.ep
    ensures Reflects(cfg, k, svc, w)
  {
    hide MirrorLabels, MirrorAnnotations, RemapPorts, IsRemoteDiscovery;
  }

  lemma DiscoveryIsDesired(link: Link, labels: Labels)
    requires IsRemoteDiscovery(link, labels)
    ensures Desired(link, labels)
  {
    hide IsRemoteDiscovery;
  }

  lemma TrackingParts(cfg: Config, sys: System)
    requires Tracking(cfg, sys)
    ensures Consistent(cfg, sys) && RemoteOk(sys.remote)
    ensures sys.queue == [] ==> forall k :: InSync(cfg, sys.remote, sys.st, k)
    ensures AllBase(cfg, sys.remote, sys.st)
  {
    hide Consistent, AllBase, Orderly, InSync, Covers;
  }

  /** What the two reports queue, and how the remote cluster then differs. */
  lemma TwoReports(sys: System, first: System, second: System, k: Key, was: Service, svc: Service,
                   endpoints: map<Key, Endpoints>)
    requires sys.queue == [] && first == Receive(sys, RemoteAdd(k, was), endpoints)
    requires second == Receive(first, RemoteUpdate(k, svc), endpoints)
    ensures second.queue == [Item(sys.nextId, OnAdd(k, was), 0), Item(sys.nextId + 1, OnUpdate(k, svc), 0)]
    ensures DifferAt(sys.remote, second.remote, k) && k in second.remote.services && second.remote.services[k] == svc
    ensures RemoteOk(sys.remote) && !Headless(svc) ==> RemoteOk(second.remote)
    ensures !Quiet(first, k) && second.st == sys.st && Timely(first, RemoteUpdate(k, svc))
  {
    hide Headless;
    assert About(first.queue[0].event, k);
  }

  lemma FourStepsConsistent(cfg: Config, s0: System, s1: System, s2: System, s3: System, s4: System, env: Env)
    requires Consistent(cfg, s0) && Succeeds(env)
    requires s0.queue != [] && s1.queue != [] && s2.queue != [] && s3.queue != []
    requires s1 == Step(cfg, s0, 0, env) && s2 == Step(cfg, s1, 0, env)
    requires s3 == Step(cfg, s2, 0, env) && s4 == Step(cfg, s3, 0, env)
    ensures Consistent(cfg, s4) && Consistent(cfg, s3)
  {
    hide Consistent, Step, Succeeds;
    SuccessIsValid(env);
    StepConsistent(cfg, s0, 0, env);
    StepConsistent(cfg, s1, 0, env);
    StepConsistent(cfg, s2, 0, env);
    StepConsistent(cfg, s3, 0, env);
  }

  /* ---------- updates with an outdated copy ---------- */

  /** The mirror is gone or has been written since it was copied. */
  predicate Outdated(cfg: Config, st: State, ev: Event)
    requires ev.Updated?
  {
    var mk := MirrorKey(cfg.link, ev.key);
    mk in st.services ==> st.services[mk].version != ev.local.version
  }

  /** What the update would do to the endpoints first does not come about either. */
  predicate EndpointsOutdated(cfg: Config, st: State, ev: Event)
    requires ev.Updated?
  {
    var mk := MirrorKey(cfg.link, ev.key);
    if IsRemoteDiscovery(cfg.link, ev.svc.labels) then ev.localEndpoints.None? || mk !in st.endpoints
    else if ev.localEndpoints.None? then mk !in st.services && (mk in st.endpoints || ev.key.ns !in st.namespaces)
    else mk in st.endpoints ==> st.endpoints[mk].version != ev.localEndpoints.value.version
  }

  /** With every call going through, an update with an outdated copy of its mirror is retried with the same copies,
      and leaves mirror and endpoints as they are exactly when it has no endpoints of the other mode to remove, has
      some to update, and these have changed or gone too. */
  lemma OutdatedUpdate(cfg: Config, remote: Remote, env: Env, st: State, ev: Event)
    requires ev.Updated? && Succeeds(env) && Routable(cfg, env, ev.svc) && Outdated(cfg, st, ev)
    requires forall n :: n in st.endpoints ==> st.endpoints[n].version < st.now
    ensures var out := HandleUpdated(cfg, remote, env, st, ev);
            var v, w := ViewAt(cfg, st, ev.key), ViewAt(cfg, out.st, ev.key);
            && out.outcome == Retry && out.spawned == [] && out.event.Updated?
            && (w.svc == v.svc && w.ep == v.ep <==> EndpointsOutdated(cfg, st, ev))
  {
    hide HandleUpdated, IsRemoteDiscovery, Routable, ViewAt, PutMirrorStatus, Failure, Succeeds;
    UpdateNeedsItsCopies(cfg, remote, env, st, ev);
    OutdatedIsChanged(cfg, st, ev);
    OutdatedUnfolds(cfg, remote, env, st, ev);
    ModeOnly(cfg, remote, env, st, ev);
    var st1 := UpdateMode(cfg, remote, env, st, ev).0;
    PutStatusView(cfg, st1, ev.key, Failure(REASON_ERROR));
  }

  lemma OutdatedIsChanged(cfg: Config, st: State, ev: Event)
    requires ev.Updated? && Outdated(cfg, st, ev)
    ensures !Unchanged(cfg, st, ev)
  {
    hide MirrorKey, IsRemoteDiscovery;
  }

  /** What is left of an update whose copy is outdated is what it does to the endpoints. */
  lemma OutdatedUnfolds(cfg: Config, remote: Remote, env: Env, st: State, ev: Event)
    requires ev.Updated? && Succeeds(env) && Routable(cfg, env, ev.svc) && Outdated(cfg, st, ev)
    ensures var post := HandleUpdated(cfg, remote, env, st, ev).st;
            var (st1, outcome) := UpdateMode(cfg, remote, env, st, ev);
            post == if outcome == Done then PutMirrorStatus(cfg, st1, ev.key, Failure(REASON_ERROR)) else st1
  {
    hide UpdateMode, MirrorKey, PutMirrorStatus, Failure, MirrorLabels, MirrorAnnotations, RemapPorts, Mirrored;
    ModeKeepsCopies(cfg, remote, env, st, ev);
    CallSucceeds(env, UpdateServiceCall(MirrorKey(cfg.link, ev.key)));
  }

  lemma ModeKeepsCopies(cfg: Config, remote: Remote, env: Env, st: State, ev: Event)
    requires ev.Updated? && Outdated(cfg, st, ev)
    ensures Outdated(cfg, UpdateMode(cfg, remote, env, st, ev).0, ev)
  {
    hide MirrorKey, IsRemoteDiscovery, ResolveGateway, ParseInt, GatewaySubsets, ByLiveness, NewGatewayEndpoints;
    hide PutMirrorStatus, Failure;
    StatusKeepsStores(cfg, st, ev.key);
  }

  lemma StatusKeepsStores(cfg: Config, st: State, k: Key)
    ensures forall s: State, c: Condition ::
              PutMirrorStatus(cfg, s, k, c) == s.(mirrorStatus := PutMirrorStatus(cfg, s, k, c).mirrorStatus)
  {
    hide Update;
  }

  lemma ModeOnly(cfg: Config, remote: Remote, env: Env, st: State, ev: Event)
    requires ev.Updated? && Succeeds(env) && Routable(cfg, env, ev.svc) && Outdated(cfg, st, ev)
    requires forall n :: n in st.endpoints ==> st.endpoints[n].version < st.now
    ensures var post := UpdateMode(cfg, remote, env, st, ev).0;
            var v, w := ViewAt(cfg, st, ev.key), ViewAt(cfg, post, ev.key);
            w.svc == v.svc && w.ep == v.ep <==> EndpointsOutdated(cfg, st, ev)
  {
    hide MirrorKey, IsRemoteDiscovery, ResolveGateway, ParseInt, GatewaySubsets, Readiness, CreateGatewayEndpoints;
    hide PutMirrorStatus, Failure, Reported;
    StatusKeepsStores(cfg, st, ev.key);
    assert forall c :: env.ok(c);
    if !IsRemoteDiscovery(cfg.link, ev.svc.labels) && ev.localEndpoints.None? {
      CreatedOver(cfg, remote, env, st, ev.key, ev.svc);
    }
  }

  /** Creating gateway endpoints with every call going through changes nothing exactly when there is no mirror and
      the endpoints cannot be created. */
  lemma CreatedOver(cfg: Config, remote: Remote, env: Env, st: State, k: Key, svc: Service)
    requires Succeeds(env) && Resolves(cfg, env)
    ensures var post := CreateGatewayEndpoints(cfg, remote, env, st, k, svc).0; var mk := MirrorKey(cfg.link, k);
            var v, w := ViewAt(cfg, st, k), ViewAt(cfg, post, k);
            w.svc == v.svc && w.ep == v.ep <==>
              mk !in st.services && (mk in st.endpoints || k.ns !in st.namespaces)
  {
    hide MirrorKey, ResolveGateway, ParseInt, ByLiveness, NewGatewayEndpoints, Reported;
    assert MirrorKey(cfg.link, k).ns == k.ns by { SameNamespace(cfg, k); }
    assert forall c :: env.ok(c);
  }

  /** An update whose copies are all outdated only reports its failure. */
  lemma OutdatedReports(cfg: Config, remote: Remote, env: Env, st: State, ev: Event)
    requires ev.Updated? && Succeeds(env) && Routable(cfg, env, ev.svc)
    requires Outdated(cfg, st, ev) && EndpointsOutdated(cfg, st, ev)
    ensures HandleUpdated(cfg, remote, env, st, ev).st == PutMirrorStatus(cfg, st, ev.key, Failure(REASON_ERROR))
  {
    hide HandleUpdated, PutMirrorStatus, Failure, IsRemoteDiscovery, ResolveGateway, ParseInt, GatewaySubsets;
    hide Readiness, MirrorKey, NewGatewayEndpoints;
    assert forall c :: env.ok(c);
    assert MirrorKey(cfg.link, ev.key).ns == ev.key.ns by { SameNamespace(cfg, ev.key); }
    OutdatedUnfolds(cfg, remote, env, st, ev);
  }

  ghost predicate AllOutdated(cfg: Config, st: State, ev: Event, k: Key) {
    ev.Updated? && ev.key == k && Outdated(cfg, st, ev) && EndpointsOutdated(cfg, st, ev)
  }

  lemma StaysOutdated(cfg: Config, st: State, post: State, ev: Event, again: Event, k: Key)
    requires AllOutdated(cfg, st, ev, k) && again.Updated? && again.key == k && again.svc == ev.svc
    requires again.localEndpoints == ev.localEndpoints && again.local.version == ev.local.version
    requires post.services == st.services && post.endpoints == st.endpoints && post.namespaces == st.namespaces
    ensures AllOutdated(cfg, post, again, k)
  {
    hide MirrorKey, IsRemoteDiscovery;
  }

  /** An update whose copies are all outdated, alone in the queue, is retried until it is given up. */
  lemma {:induction false} GivenUp(cfg: Config, sys: System, env: Env, k: Key) returns (n: nat)
    requires |sys.queue| == 1 && AllOutdated(cfg, sys.st, sys.queue[0].event, k)
    requires Succeeds(env) && Routable(cfg, env, sys.queue[0].event.svc) && Consistent(cfg, sys)
    ensures var end := InOrder(cfg, sys, env, n); var v, w := ViewAt(cfg, sys.st, k), ViewAt(cfg, end.st, k);
            && end.queue == [] && end.remote == sys.remote && Consistent(cfg, end) && OnlyAt(cfg, sys.st, end.st, k)
            && end.st.namespaces == sys.st.namespaces
            && w.svc == v.svc && w.ep == v.ep && (cfg.link.cluster != "" ==> !w.reported)
    decreases cfg.requeueLimit - sys.queue[0].requeues
  {
    hide Handle, HandleUpdated, Step, Succeeds, Routable, InOrder, Consistent, ViewAt, OnlyAt, Outdated, Unchanged;
    hide EndpointsOutdated, PutMirrorStatus, Failure;
    var ev := sys.queue[0].event;
    var next := Step(cfg, sys, 0, env);
    FirstStep(cfg, sys, env);
    UpdateIsHandled(cfg, sys.remote, env, sys.st, ev);
    UpdateNeedsItsCopies(cfg, sys.remote, env, sys.st, ev);
    OutdatedIsChanged(cfg, sys.st, ev);
    OutdatedReports(cfg, sys.remote, env, sys.st, ev);
    var post := PutMirrorStatus(cfg, sys.st, k, Failure(REASON_ERROR));
    FailureIsFalse(REASON_ERROR);
    PutStatusView(cfg, sys.st, k, Failure(REASON_ERROR));
    StatusKeepsStores(cfg, sys.st, k);
    ViewIgnoresClock(cfg, post, sys.st.now + 1, k);
    OnlyTheClock(cfg, post, sys.st.now + 1, k);
    OnlyAtTransitive(cfg, sys.st, post, next.st, k);
    SuccessIsValid(env);
    StepConsistent(cfg, sys, 0, env);
    InOrderUnfolds(cfg, sys, env);
    InOrderUnfolds(cfg, next, env);
    n := 1;
    if sys.queue[0].requeues < cfg.requeueLimit {
      StaysOutdated(cfg, sys.st, next.st, ev, next.queue[0].event, k);
      var m := GivenUp(cfg, next, env, k);
      n := m + 1;
      OnlyAtTransitive(cfg, sys.st, next.st, InOrder(cfg, next, env, m).st, k);
    }
  }

  /* ---------- changed twice ---------- */

  /** Deciding on a mirror of another version queues its update and, outside federated services, nothing else. */
  lemma DecidedUpdateOf(cfg: Config, sys: System, env: Env, k: Key, svc: Service) returns (next: System)
    requires Succeeds(env) && sys.queue != [] && DecidesNow(sys.queue[0].event, k, svc)
    requires Desired(cfg.link, svc.labels) && Unfederated(cfg, sys.st, k, svc)
    requires var v := ViewAt(cfg, sys.st, k);
             v.svc.Some? && REMOTE_VERSION in v.svc.value.annotations && !Records(v.svc.value, svc.version)
    ensures next == Step(cfg, sys, 0, env)
    ensures var v := ViewAt(cfg, sys.st, k);
            next == System(sys.remote, sys.st.(now := sys.st.now + 1),
                           sys.queue[1..] + [Item(sys.nextId, Updated(k, v.svc.value, v.ep, svc), 0)], sys.nextId + 1)
  {
    hide Handle, Step, ViewAt, Succeeds, Desired, Records, Unfederated;
    next := Step(cfg, sys, 0, env);
    FirstStep(cfg, sys, env);
    OnlyUpdates(cfg, sys.remote, env, sys.st, sys.queue[0].event);
    var v := ViewAt(cfg, sys.st, k);
    var ev := Updated(k, v.svc.value, v.ep, svc);
    assert sys.queue[1..] + Fresh([ev], sys.nextId) + [] == sys.queue[1..] + [Item(sys.nextId, ev, 0)];
  }

  /** The service is in no federated service, nor asks to be. */
  predicate Unfederated(cfg: Config, st: State, k: Key, svc: Service) {
    !IsFederatedMember(cfg.link, svc.labels) && FederatedKey(k) !in st.services
  }

  lemma OnlyUpdates(cfg: Config, remote: Remote, env: Env, st: State, ev: Event)
    requires Succeeds(env) && Decides(ev) && Desired(cfg.link, ev.svc.labels) && Unfederated(cfg, st, ev.key, ev.svc)
    requires var v := ViewAt(cfg, st, ev.key);
             v.svc.Some? && REMOTE_VERSION in v.svc.value.annotations && !Records(v.svc.value, ev.svc.version)
    ensures var v := ViewAt(cfg, st, ev.key);
            Handle(cfg, remote, env, st, ev) == Out(st, [Updated(ev.key, v.svc.value, v.ep, ev.svc)], Done, ev)
  {
    hide Desired, IsFederatedMember, MirrorKey, FederatedKey, Reported, FormatNat;
    assert forall c :: env.ok(c);
  }

  /** A successful update stamps the mirror and the endpoints it leaves. */
  lemma UpdateStamps(cfg: Config, remote: Remote, env: Env, st: State, ev: Event)
    requires ev.Updated? && HandleUpdated(cfg, remote, env, st, ev).outcome == Done
    ensures var post := HandleUpdated(cfg, remote, env, st, ev).st; var mk := MirrorKey(cfg.link, ev.key);
            && mk in post.services && post.services[mk].version == st.now
            && (!IsRemoteDiscovery(cfg.link, ev.svc.labels) ==>
                  mk in post.endpoints && post.endpoints[mk].version == st.now)
  {
    hide MirrorKey, IsRemoteDiscovery, ResolveGateway, ParseInt, GatewaySubsets, ByLiveness, NewGatewayEndpoints;
    hide Update, MirrorLabels, MirrorAnnotations, RemapPorts, Mirrored, Failure;
  }

  /** The first queued event updates k and still finds its objects. */
  lemma FirstUpdate(cfg: Config, sys: System, env: Env, k: Key, svc: Service) returns (next: System)
    requires Succeeds(env) && Routable(cfg, env, svc) && sys.queue != [] && k.ns in sys.st.namespaces
    requires var v := ViewAt(cfg, sys.st, k);
             v.svc.Some? && !Headless(v.svc.value) && sys.queue[0].event == Updated(k, v.svc.value, v.ep, svc)
    ensures next == Step(cfg, sys, 0, env) && next.remote == sys.remote && next.queue == sys.queue[1..]
    ensures OnlyAt(cfg, sys.st, next.st, k) && k.ns in next.st.namespaces
    ensures Reflects(cfg, k, svc, ViewAt(cfg, next.st, k)) && !Headless(ViewAt(cfg, next.st, k).svc.value)
    ensures var mk := MirrorKey(cfg.link, k);
            && mk in next.st.services && next.st.services[mk].version == sys.st.now
            && (!IsRemoteDiscovery(cfg.link, svc.labels) ==>
                  mk in next.st.endpoints && next.st.endpoints[mk].version == sys.st.now)
            && (IsRemoteDiscovery(cfg.link, svc.labels) ==> mk !in next.st.endpoints)
  {
    hide Handle, HandleUpdated, Step, Succeeds, Routable, Reflects, IsRemoteDiscovery, MirrorKey, ViewAt, OnlyAt;
    var ev := sys.queue[0].event;
    next := Step(cfg, sys, 0, env);
    FirstStep(cfg, sys, env);
    UpdateIsHandled(cfg, sys.remote, env, sys.st, ev);
    UpdateSucceeds(cfg, sys.remote, env, sys.st, ev);
    UpdateStamps(cfg, sys.remote, env, sys.st, ev);
    var post := HandleUpdated(cfg, sys.remote, env, sys.st, ev).st;
    ReflectsHasService(cfg, k, svc, ViewAt(cfg, post, k));
    ViewIgnoresClock(cfg, post, sys.st.now + 1, k);
    OnlyTheClock(cfg, post, sys.st.now + 1, k);
    OnlyAtTransitive(cfg, sys.st, post, next.st, k);
    DiscoveryHasNone(cfg, post, k, svc);
    assert sys.queue[1..] + Fresh([], sys.nextId) + [] == sys.queue[1..];
  }

  lemma DiscoveryHasNone(cfg: Config, st: State, k: Key, svc: Service)
    requires Reflects(cfg, k, svc, ViewAt(cfg, st, k))
    ensures IsRemoteDiscovery(cfg.link, svc.labels) <==> MirrorKey(cfg.link, k) !in st.endpoints
  {
    hide MirrorLabels, MirrorAnnotations, RemapPorts, IsRemoteDiscovery, MirrorKey, Reported;
  }

  /** The mirror of a tracked service, as a decision finds it. */
  lemma TrackedMirror(cfg: Config, sys: System, k: Key)
    requires Tracking(cfg, sys) && sys.queue == [] && Wanted(cfg, sys.remote, sys.st, k)
    ensures var v := ViewAt(cfg, sys.st, k); var mk := MirrorKey(cfg.link, k);
            && Reflects(cfg, k, sys.remote.services[k], v) && v.svc.Some? && !Headless(v.svc.value)
            && k.ns in sys.st.namespaces && REMOTE_VERSION in v.svc.value.annotations
            && v.svc.value.version < sys.st.now && (mk in sys.st.endpoints <==> v.ep.Some?)
            && (mk in sys.st.endpoints ==> v.ep.value == sys.st.endpoints[mk])
            && (v.ep.None? <==> IsRemoteDiscovery(cfg.link, sys.remote.services[k].labels))
  {
    hide Orderly, AllBase, MirrorLabels, MirrorAnnotations, RemapPorts, IsRemoteDiscovery, OfLink, Desired, Headless;
    hide Shaped, Unreused, Reported, MirrorKey, Genuine;
    TrackingParts(cfg, sys);
    BaseAt(cfg, sys.remote, sys.st, k);
    assert InSync(cfg, sys.remote, sys.st, k);
  }

  lemma TwoUpdates(sys: System, first: System, second: System, k: Key, mid: Service, svc: Service,
                   endpoints: map<Key, Endpoints>)
    requires sys.queue == [] && first == Receive(sys, RemoteUpdate(k, mid), endpoints)
    requires second == Receive(first, RemoteUpdate(k, svc), endpoints)
    ensures second.queue == [Item(sys.nextId, OnUpdate(k, mid), 0), Item(sys.nextId + 1, OnUpdate(k, svc), 0)]
    ensures DifferAt(sys.remote, second.remote, k) && k in second.remote.services && second.remote.services[k] == svc
    ensures RemoteOk(sys.remote) && !Headless(svc) ==> RemoteOk(second.remote)
    ensures !Quiet(first, k) && second.st == sys.st && Timely(first, RemoteUpdate(k, svc))
  {
    hide Headless;
    assert About(first.queue[0].event, k);
  }

  /** After the first of two updates the copies of the second are outdated, unless it has to create endpoints, or to
      remove some that are still there. */
  lemma SecondIsOutdated(cfg: Config, st: State, ev: Event, k: Key, now: nat)
    requires ev.Updated? && ev.key == k && ev.local.version < now
    requires var mk := MirrorKey(cfg.link, k); mk in st.services && st.services[mk].version == now
    requires var mk := MirrorKey(cfg.link, k);
             if IsRemoteDiscovery(cfg.link, ev.svc.labels) then ev.localEndpoints.None? || mk !in st.endpoints
             else ev.localEndpoints.Some? && ev.localEndpoints.value.version < now
                  && (mk in st.endpoints ==> st.endpoints[mk].version == now)
    ensures AllOutdated(cfg, st, ev, k)
  {
    hide MirrorKey, IsRemoteDiscovery;
  }

  /** A mirrored service changes twice before the first change is decided upon. Every call goes through and events are
      handled in order. The queue drains, and the mirror is that of the middle version, reported as failed: the second
      update holds copies from before the first, and is retried with them until it is given up. So it goes unless the
      last version makes it create endpoints, or remove some that are still there. */
  lemma UpdateOfEarlierVersion(cfg: Config, sys: System, env: Env, k: Key, mid: Service, svc: Service,
                               endpoints: map<Key, Endpoints>) returns (n: nat)
    requires Tracking(cfg, sys) && sys.queue == [] && Wanted(cfg, sys.remote, sys.st, k)
    requires forall n :: n in sys.st.endpoints ==> sys.st.endpoints[n].version < sys.st.now
    requires !Headless(mid) && !Headless(svc) && Desired(cfg.link, mid.labels) && Desired(cfg.link, svc.labels)
    requires Unfederated(cfg, sys.st, k, mid) && Unfederated(cfg, sys.st, k, svc)
    requires Succeeds(env) && Routable(cfg, env, mid) && Routable(cfg, env, svc)
    requires var was := sys.remote.services[k];
             && was.version != mid.version && was.version != svc.version && mid.version != svc.version
             && (if IsRemoteDiscovery(cfg.link, svc.labels)
                 then IsRemoteDiscovery(cfg.link, was.labels) || IsRemoteDiscovery(cfg.link, mid.labels)
                 else !IsRemoteDiscovery(cfg.link, was.labels))
    ensures var first := Receive(sys, RemoteUpdate(k, mid), endpoints);
            var end := InOrder(cfg, Receive(first, RemoteUpdate(k, svc), endpoints), env, n);
            && Possible(cfg, sys, RemoteUpdate(k, mid)) && !Quiet(first, k) && Timely(first, RemoteUpdate(k, svc))
            && end.queue == [] && Reflects(cfg, k, mid, ViewAt(cfg, end.st, k)) && !MirrorsExactly(cfg, end)
            && (cfg.link.cluster != "" ==> !ViewAt(cfg, end.st, k).reported)
            && Behind(cfg, end, [k])
  {
    hide Handle, Step, InOrder, ViewAt, Reflects, Succeeds, Routable, Headless, Desired, Tracking, MirrorsExactly;
    hide IsRemoteDiscovery, OnlyAt, Consistent, Behind, AllBase, InSync, Base, Records, Unfederated, MirrorKey;
    hide AllOutdated;
    var first := Receive(sys, RemoteUpdate(k, mid), endpoints);
    var s0 := Receive(first, RemoteUpdate(k, svc), endpoints);
    var was, v, mk := sys.remote.services[k], ViewAt(cfg, sys.st, k), MirrorKey(cfg.link, k);
    TwoUpdates(sys, first, s0, k, mid, svc, endpoints);
    TrackedMirror(cfg, sys, k);
    TrackingParts(cfg, sys);
    StaleView(cfg, first.remote, sys.st, k, was);
    StaleView(cfg, s0.remote, sys.st, k, was);
    OthersStay(cfg, sys, s0.remote, k);
    var s1 := DecidedUpdateOf(cfg, s0, env, k, mid);
    ViewIgnoresClock(cfg, s0.st, s1.st.now, k);
    UnfederatedIgnoresClock(cfg, s0.st, s1.st.now, k, svc);
    var s2 := DecidedUpdateOf(cfg, s1, env, k, svc);
    ViewIgnoresClock(cfg, s0.st, s2.st.now, k);
    OnlyTheClock(cfg, sys.st, s2.st.now, k);
    var ev := Updated(k, v.svc.value, v.ep, svc);
    assert s2.queue == [Item(s0.nextId, Updated(k, v.svc.value, v.ep, mid), 0), Item(s1.nextId, ev, 0)];
    var s3 := FirstUpdate(cfg, s2, env, k, mid);
    SecondIsOutdated(cfg, s3.st, ev, k, s2.st.now);
    ReceivedConsistent(cfg, sys, RemoteUpdate(k, mid), endpoints);
    ReceivedConsistent(cfg, first, RemoteUpdate(k, svc), endpoints);
    ThreeStepsConsistent(cfg, s0, s1, s2, s3, env);
    var m := GivenUp(cfg, s3, env, k);
    n := m + 3;
    var end := InOrder(cfg, s3, env, m);
    InOrderUnfolds(cfg, s0, env);
    InOrderUnfolds(cfg, s1, env);
    InOrderUnfolds(cfg, s2, env);
    assert InOrder(cfg, s0, env, n) == end;
    SameReflection(cfg, k, mid, ViewAt(cfg, s3.st, k), ViewAt(cfg, end.st, k));
    ReflectsHasService(cfg, k, mid, ViewAt(cfg, end.st, k));
    OnlyAtTransitive(cfg, sys.st, s2.st, s3.st, k);
    OnlyAtTransitive(cfg, sys.st, s3.st, end.st, k);
    StaleView(cfg, end.remote, end.st, k, mid);
    StaleIsNotExact(cfg, end, k);
    BehindAtOne(cfg, sys.st, end, k);
  }

  lemma UnfederatedIgnoresClock(cfg: Config, st: State, now: nat, k: Key, svc: Service)
    ensures Unfederated(cfg, st.(now := now), k, svc) == Unfederated(cfg, st, k, svc)
  {
    hide IsFederatedMember, FederatedKey;
  }

  lemma ThreeStepsConsistent(cfg: Config, s0: System, s1: System, s2: System, s3: System, env: Env)
    requires Consistent(cfg, s0) && Succeeds(env) && s0.queue != [] && s1.queue != [] && s2.queue != []
    requires s1 == Step(cfg, s0, 0, env) && s2 == Step(cfg, s1, 0, env) && s3 == Step(cfg, s2, 0, env)
    ensures Consistent(cfg, s3)
  {
    hide Consistent, Step, Succeeds;
    SuccessIsValid(env);
    StepConsistent(cfg, s0, 0, env);
    StepConsistent(cfg, s1, 0, env);
    StepConsistent(cfg, s2, 0, env);
  }

  /* ---------- gone and come back ---------- */

  /** The first queued event reports that k is gone, and queues the deletion of its mirror. */
  lemma DecidedDeletion(cfg: Config, sys: System, env: Env, k: Key, was: Service) returns (next: System)
    requires sys.queue != [] && sys.queue[0].event == OnDelete(k, was)
    requires Desired(cfg.link, was.labels) && !IsFederatedMember(cfg.link, was.labels)
    ensures next == Step(cfg, sys, 0, env)
    ensures next == System(sys.remote, sys.st.(now := sys.st.now + 1),
                           sys.queue[1..] + [Item(sys.nextId, Unexported(k), 0)], sys.nextId + 1)
  {
    hide Handle, Step, Desired, IsFederatedMember;
    next := Step(cfg, sys, 0, env);
    FirstStep(cfg, sys, env);
    DeletionIsHandled(cfg, sys.remote, env, sys.st, sys.queue[0].event);
    assert sys.queue[1..] + Fresh([Unexported(k)], sys.nextId) + []
        == sys.queue[1..] + [Item(sys.nextId, Unexported(k), 0)];
  }

  /** The first queued event deletes the mirror of k. */
  lemma Deleted(cfg: Config, sys: System, env: Env, k: Key) returns (next: System)
    requires Succeeds(env) && sys.queue != [] && sys.queue[0].event == Unexported(k)
    requires ViewAt(cfg, sys.st, k).svc.Some? && !Headless(ViewAt(cfg, sys.st, k).svc.value)
    ensures next == Step(cfg, sys, 0, env) && next.remote == sys.remote && next.queue == sys.queue[1..]
    ensures OnlyAt(cfg, sys.st, next.st, k) && next.st.namespaces == sys.st.namespaces
    ensures ViewAt(cfg, next.st, k).svc.None? && ViewAt(cfg, next.st, k).ep.None?
  {
    hide Handle, HandleUnexported, Step, Succeeds, Headless, ViewAt, OnlyAt;
    next := Step(cfg, sys, 0, env);
    FirstStep(cfg, sys, env);
    UnexportIsHandled(cfg, sys.remote, env, sys.st, k);
    UnexportSucceeds(cfg, env, sys.st, k);
    var post := HandleUnexported(cfg, env, sys.st, k).0;
    ViewIgnoresClock(cfg, post, sys.st.now + 1, k);
    OnlyTheClock(cfg, post, sys.st.now + 1, k);
    OnlyAtTransitive(cfg, sys.st, post, next.st, k);
    assert sys.queue[1..] + Fresh([], sys.nextId) + [] == sys.queue[1..];
  }

  lemma UnexportIsHandled(cfg: Config, remote: Remote, env: Env, st: State, k: Key)
    ensures Handle(cfg, remote, env, st, Unexported(k)) == Plain(HandleUnexported(cfg, env, st, k), Unexported(k))
  {
    hide HandleUnexported;
  }

  lemma GoneAndBack(sys: System, first: System, second: System, k: Key, svc: Service, endpoints: map<Key, Endpoints>)
    requires sys.queue == [] && k in sys.remote.services && first == Receive(sys, RemoteDelete(k), endpoints)
    requires second == Receive(first, RemoteAdd(k, svc), endpoints)
    ensures second.queue == [Item(sys.nextId, OnDelete(k, sys.remote.services[k]), 0),
                             Item(sys.nextId + 1, OnAdd(k, svc), 0)]
    ensures DifferAt(sys.remote, second.remote, k) && k in second.remote.services && second.remote.services[k] == svc
    ensures RemoteOk(sys.remote) && !Headless(svc) ==> RemoteOk(second.remote)
    ensures !Quiet(first, k) && second.st == sys.st && Timely(first, RemoteAdd(k, svc))
  {
    hide Headless;
    assert About(first.queue[0].event, k);
  }

  /** Where the mirror is gone, an update that was to find endpoints, or needs none, is outdated. */
  lemma GoneIsOutdated(cfg: Config, st: State, ev: Event, k: Key)
    requires ev.Updated? && ev.key == k && ViewAt(cfg, st, k).svc.None? && ViewAt(cfg, st, k).ep.None?
    requires IsRemoteDiscovery(cfg.link, ev.svc.labels) || ev.localEndpoints.Some?
    ensures AllOutdated(cfg, st, ev, k)
  {
    hide MirrorKey, IsRemoteDiscovery, Reported;
  }

  /** A mirrored service is deleted and added again before the deletion is decided upon. Every call goes through and
      events are handled in order. The queue drains, and the new service has no mirror: its report still finds the
      mirror of the old one, and the update that it queues comes after the deletion. So it goes unless that update has
      endpoints to create. */
  lemma AddedAgainUnmirrored(cfg: Config, sys: System, env: Env, k: Key, svc: Service, endpoints: map<Key, Endpoints>)
    returns (n: nat)
    requires Tracking(cfg, sys) && sys.queue == [] && Wanted(cfg, sys.remote, sys.st, k)
    requires !Headless(svc) && Desired(cfg.link, svc.labels) && Succeeds(env) && Routable(cfg, env, svc)
    requires var was := sys.remote.services[k];
             && was.version != svc.version && Unfederated(cfg, sys.st, k, was) && Unfederated(cfg, sys.st, k, svc)
             && (IsRemoteDiscovery(cfg.link, svc.labels) || !IsRemoteDiscovery(cfg.link, was.labels))
    ensures var first := Receive(sys, RemoteDelete(k), endpoints);
            var end := InOrder(cfg, Receive(first, RemoteAdd(k, svc), endpoints), env, n);
            && Possible(cfg, sys, RemoteDelete(k)) && !Quiet(first, k) && Timely(first, RemoteAdd(k, svc))
            && end.queue == [] && Wanted(cfg, end.remote, end.st, k) && ViewAt(cfg, end.st, k).svc.None?
            && !MirrorsExactly(cfg, end) && Behind(cfg, end, [k])
  {
    hide Handle, Step, InOrder, ViewAt, Reflects, Succeeds, Routable, Headless, Desired, Tracking, MirrorsExactly;
    hide IsRemoteDiscovery, OnlyAt, Consistent, Behind, AllBase, InSync, Base, Records, MirrorKey, AllOutdated;
    hide IsFederatedMember, FederatedKey;
    var first := Receive(sys, RemoteDelete(k), endpoints);
    var s0 := Receive(first, RemoteAdd(k, svc), endpoints);
    var was, v := sys.remote.services[k], ViewAt(cfg, sys.st, k);
    GoneAndBack(sys, first, s0, k, svc, endpoints);
    TrackedMirror(cfg, sys, k);
    TrackingParts(cfg, sys);
    StaleView(cfg, s0.remote, sys.st, k, was);
    OthersStay(cfg, sys, s0.remote, k);
    var s1 := DecidedDeletion(cfg, s0, env, k, was);
    ViewIgnoresClock(cfg, s0.st, s1.st.now, k);
    var s2 := DecidedUpdateOf(cfg, s1, env, k, svc);
    ViewIgnoresClock(cfg, s0.st, s2.st.now, k);
    OnlyTheClock(cfg, sys.st, s2.st.now, k);
    var ev := Updated(k, v.svc.value, v.ep, svc);
    assert s2.queue == [Item(s0.nextId, Unexported(k), 0), Item(s1.nextId, ev, 0)];
    var s3 := Deleted(cfg, s2, env, k);
    GoneIsOutdated(cfg, s3.st, ev, k);
    ReceivedConsistent(cfg, sys, RemoteDelete(k), endpoints);
    ReceivedConsistent(cfg, first, RemoteAdd(k, svc), endpoints);
    ThreeStepsConsistent(cfg, s0, s1, s2, s3, env);
    var m := GivenUp(cfg, s3, env, k);
    n := m + 3;
    var end := InOrder(cfg, s3, env, m);
    InOrderUnfolds(cfg, s0, env);
    InOrderUnfolds(cfg, s1, env);
    InOrderUnfolds(cfg, s2, env);
    assert InOrder(cfg, s0, env, n) == end;
    OnlyAtTransitive(cfg, sys.st, s2.st, s3.st, k);
    OnlyAtTransitive(cfg, sys.st, s3.st, end.st, k);
    AbsentIsBase(cfg, end.remote, end.st, k);
    if Reflects(cfg, k, svc, ViewAt(cfg, end.st, k)) {
      ReflectsHasService(cfg, k, svc, ViewAt(cfg, end.st, k));
    }
    StaleIsNotExact(cfg, end, k);
    BehindAtOne(cfg, sys.st, end, k);
  }
}
