/** The link's mirrors, after every drained input, are exactly what the remote services ask for. */
module Refinement {
  import opened Strings
  import opened Kubernetes
  import opened Mirror
  import opened StatusList
  import opened Federation
  import opened Api
  import opened HeadlessMirror
  import opened Handlers
  import opened Effects
  import opened Machine
  import opened Liveness

  type State = Api.State

  /* ---------- what is wanted ---------- */

  /** The remote service k should be mirrored: a selector matches and the namespace is, or can be made, there. */
  predicate Wanted(cfg: Config, remote: Remote, st: State, k: Key) {
    k in remote.services && Desired(cfg.link, remote.services[k].labels)
    && (cfg.namespaceCreation || k.ns in st.namespaces)
  }

  /** What the local store holds under the mirror name of k, and whether the Link reports k as mirrored. */
  datatype View = View(svc: Option<Service>, ep: Option<Endpoints>, reported: bool)

  function Reported(list: seq<Status>, k: Key): bool {
    k in AsMap(list) && AsMap(list)[k].mirrored
  }

  function ViewAt(cfg: Config, st: State, k: Key): View {
    var n := MirrorKey(cfg.link, k);
    View(
      if n in st.services then Some(st.services[n]) else None,
      if n in st.endpoints then Some(st.endpoints[n]) else None,
      Reported(st.mirrorStatus, k))
  }

  /** Labels, annotations and ports are those computed from this version of the remote service, and
      endpoints exist exactly in gateway mode. */
  predicate Reflects(cfg: Config, k: Key, remote: Service, v: View) {
    && v.svc.Some?
    && v.svc.value.labels == MirrorLabels(cfg.link, k, remote.labels)
    && v.svc.value.annotations == MirrorAnnotations(cfg.link, k, remote)
    && v.svc.value.ports == RemapPorts(remote.ports)
    && (v.ep.Some? <==> !IsRemoteDiscovery(cfg.link, remote.labels))
  }

  predicate InSync(cfg: Config, remote: Remote, st: State, k: Key) {
    if Wanted(cfg, remote, st, k) then Reflects(cfg, k, remote.services[k], ViewAt(cfg, st, k))
    else ViewAt(cfg, st, k).svc.None? && ViewAt(cfg, st, k).ep.None?
  }

  /** What is asked of the objects under the mirror name of k between any two handled events, drained or not:
      they are the link's, and a mirror that records the current remote version is the mirror of that version. */
  predicate Base(cfg: Config, remote: Remote, st: State, k: Key) {
    var v := ViewAt(cfg, st, k);
    && (v.ep.Some? ==> v.svc.Some?)
    && (v.svc.Some? ==>
          && k.ns in st.namespaces
          && Claimed(cfg, v.svc.value)
          && (k in remote.services ==> Unreused(cfg, k, remote.services[k], v)))
  }

  /** A mirror of the link, and not one of its headless or endpoint mirrors. */
  predicate Claimed(cfg: Config, svc: Service) {
    OfLink(cfg.link, svc.labels) && HEADLESS_NAME !in svc.labels && !Headless(svc) && REMOTE_VERSION in svc.annotations
  }

  /** A version that the mirror records has not been given to other contents. */
  predicate Unreused(cfg: Config, k: Key, svc: Service, v: View) {
    v.svc.Some? && Records(v.svc.value, svc.version) ==> Desired(cfg.link, svc.labels) && Reflects(cfg, k, svc, v)
  }

  predicate Records(svc: Service, version: nat) {
    REMOTE_VERSION in svc.annotations && svc.annotations[REMOTE_VERSION] == FormatNat(version)
  }

  /** The Link of another cluster reports k exactly when k has a mirror. */
  predicate Honest(cfg: Config, st: State, k: Key) {
    cfg.link.cluster != "" ==> (ViewAt(cfg, st, k).reported <==> ViewAt(cfg, st, k).svc.Some?)
  }

  ghost predicate AllHonest(cfg: Config, st: State) {
    forall k :: Honest(cfg, st, k)
  }

  /* ---------- what is on its way ---------- */

  predicate Neutral(ev: Event) {
    ev.CreateFederated? || ev.JoinFederated? || ev.LeaveFederated?
  }

  /** The event carries a finding about the one remote service k. */
  predicate About(ev: Event, k: Key) {
    && (ev.OnAdd? || ev.OnUpdate? || ev.OnDelete? || ev.Exported? || ev.Updated? || ev.Unexported?)
    && ev.key == k
  }

  predicate Decides(ev: Event) {
    ev.OnAdd? || ev.OnUpdate?
  }

  /** An export or an update relies on how the mirror was found. */
  predicate Acts(ev: Event) {
    ev.Exported? || ev.Updated?
  }

  predicate Expected(ev: Event) {
    || Neutral(ev) || ev.OnAdd? || ev.OnUpdate? || ev.OnDelete? || ev.NamespaceAdded? || ev.GcTriggered?
    || ev.Exported? || ev.Updated? || ev.Unexported?
  }

  /** What an event about k says of k is still so. */
  predicate Apt(cfg: Config, remote: Remote, st: State, ev: Event, k: Key) {
    var v := ViewAt(cfg, st, k);
    match ev
    case OnAdd(_, svc) => k in remote.services && svc == remote.services[k]
    case OnUpdate(_, svc) => k in remote.services && svc == remote.services[k]
    case OnDelete(_, svc) => k !in remote.services
    case Exported(_, svc) =>
      k in remote.services && svc == remote.services[k] && Desired(cfg.link, svc.labels) && v.svc.None?
    case Updated(_, local, localEndpoints, svc) =>
      k in remote.services && svc == remote.services[k] && Desired(cfg.link, svc.labels)
      && v.svc == Some(local) && v.ep == localEndpoints
    case Unexported(_) => !(k in remote.services && Desired(cfg.link, remote.services[k].labels))
    case _ => true
  }

  /** Handling this event, and what it queues, will bring k in sync. */
  predicate Covers(cfg: Config, remote: Remote, st: State, ev: Event, k: Key) {
    var v := ViewAt(cfg, st, k);
    match ev
    case NamespaceAdded(ns) => k.ns == ns && k in remote.services && v.svc.None?
    case GcTriggered => k !in remote.services
    case OnDelete(j, svc) => j == k && k !in remote.services && (Desired(cfg.link, svc.labels) || v.svc.None?)
    case _ => About(ev, k) && Apt(cfg, remote, st, ev, k)
  }

  predicate Covered(cfg: Config, remote: Remote, st: State, events: seq<Event>, k: Key) {
    exists i :: 0 <= i < |events| && Covers(cfg, remote, st, events[i], k)
  }

  /** Only known events, all of them still apt, and never two that rely on how one mirror was found. */
  ghost predicate Orderly(cfg: Config, remote: Remote, st: State, events: seq<Event>) {
    && (forall i :: 0 <= i < |events| ==> Expected(events[i]))
    && (forall i, k :: 0 <= i < |events| && About(events[i], k) ==> Apt(cfg, remote, st, events[i], k))
    && OneActs(events)
  }

  ghost predicate OneActs(events: seq<Event>) {
    forall i, j, k :: 0 <= i < j < |events| && Acts(events[i]) && Acts(events[j]) ==>
      !(About(events[i], k) && About(events[j], k))
  }

  /** Nothing is lost: every service is in sync or an event for it is on its way. */
  ghost predicate Progress(cfg: Config, remote: Remote, st: State, events: seq<Event>) {
    forall k :: InSync(cfg, remote, st, k) || Covered(cfg, remote, st, events, k)
  }

  predicate RemoteOk(remote: Remote) {
    forall k :: k in remote.services ==> !Headless(remote.services[k])
  }

  ghost predicate AllBase(cfg: Config, remote: Remote, st: State) {
    forall k :: Base(cfg, remote, st, k)
  }

  /* ---------- successful handlers ---------- */

  /** Every call succeeds. */
  ghost predicate Succeeds(env: Env) {
    ValidEnv(env) && forall c :: env.ok(c)
  }

  /** DNS answers for the gateway, and its port is a number. A link made for discovery alone has neither. */
  predicate Resolves(cfg: Config, env: Env) {
    ResolveGateway(cfg.link, env.lookup).Some? && ParseInt(cfg.link.gatewayPort, HALF_32).Some?
  }

  /** The mirror of svc can be written: only gateway mode asks for the gateway. */
  predicate Routable(cfg: Config, env: Env, svc: Service) {
    IsRemoteDiscovery(cfg.link, svc.labels) || Resolves(cfg, env)
  }

  /** Nothing fails while the event is handled. */
  ghost predicate Smooth(cfg: Config, env: Env, ev: Event) {
    Succeeds(env) && (ev.Exported? || ev.Updated? ==> Routable(cfg, env, ev.svc))
  }

  /** A handler leaves every service but k0's alone. */
  ghost predicate OnlyAt(cfg: Config, pre: State, post: State, k0: Key) {
    && pre.namespaces <= post.namespaces
    && (post.namespaces == pre.namespaces || cfg.namespaceCreation)
    && forall k :: k != k0 ==> ViewAt(cfg, post, k) == ViewAt(cfg, pre, k)
  }

  lemma OnlyAtTransitive(cfg: Config, a: State, b: State, c: State, k0: Key)
    requires OnlyAt(cfg, a, b, k0) && OnlyAt(cfg, b, c, k0)
    ensures OnlyAt(cfg, a, c, k0)
  {
    hide ViewAt;
  }

  /** One key of the store was rewritten, and nothing else that a view shows. */
  lemma OneKeyChanged(cfg: Config, pre: State, post: State, k0: Key)
    requires pre.namespaces <= post.namespaces && (post.namespaces == pre.namespaces || cfg.namespaceCreation)
    requires forall n :: n != MirrorKey(cfg.link, k0) ==>
               (n in post.services <==> n in pre.services)
               && (n in pre.services ==> post.services[n] == pre.services[n])
    requires forall n :: n != MirrorKey(cfg.link, k0) ==>
               (n in post.endpoints <==> n in pre.endpoints)
               && (n in pre.endpoints ==> post.endpoints[n] == pre.endpoints[n])
    requires forall j :: j != k0 ==> Reported(post.mirrorStatus, j) == Reported(pre.mirrorStatus, j)
    ensures OnlyAt(cfg, pre, post, k0)
  {
    hide Reported, MirrorKey;
    forall k | k != k0 ensures ViewAt(cfg, post, k) == ViewAt(cfg, pre, k) {
      MirrorKeyInjective(cfg.link, k, k0);
    }
  }

  /** Writing the status of k shows in k's view alone, as the condition's truth. */
  lemma PutStatusView(cfg: Config, st: State, k: Key, c: Condition)
    ensures var post := PutMirrorStatus(cfg, st, k, c);
            && OnlyAt(cfg, st, post, k) && post.namespaces == st.namespaces
            && ViewAt(cfg, post, k) == ViewAt(cfg, st, k).(reported := ViewAt(cfg, post, k).reported)
            && (cfg.link.cluster != "" ==> ViewAt(cfg, post, k).reported == c.mirrored)
  {
    hide Update, MirrorKey, AsMap;
    UpdateRefines(st.mirrorStatus, k, c);
    OneKeyChanged(cfg, st, PutMirrorStatus(cfg, st, k, c), k);
  }

  lemma DropStatusView(cfg: Config, st: State, k: Key)
    ensures var post := DropMirrorStatus(cfg, st, k);
            && OnlyAt(cfg, st, post, k) && post == st.(mirrorStatus := post.mirrorStatus)
            && ViewAt(cfg, post, k) == ViewAt(cfg, st, k).(reported := ViewAt(cfg, post, k).reported)
            && (cfg.link.cluster != "" ==> !ViewAt(cfg, post, k).reported)
  {
    hide Delete, MirrorKey, AsMap;
    DeleteRefines(st.mirrorStatus, k);
    OneKeyChanged(cfg, st, DropMirrorStatus(cfg, st, k), k);
  }

  lemma GatewayEndpointsSucceed(cfg: Config, remote: Remote, env: Env, st: State, k: Key, svc: Service)
    requires Succeeds(env) && Resolves(cfg, env) && k.ns in st.namespaces && ViewAt(cfg, st, k).ep.None?
    ensures var (post, outcome) := CreateGatewayEndpoints(cfg, remote, env, st, k, svc);
            && outcome == Done && OnlyAt(cfg, st, post, k) && post.namespaces == st.namespaces
            && ViewAt(cfg, post, k).ep.Some?
            && ViewAt(cfg, post, k) == ViewAt(cfg, st, k).(ep := ViewAt(cfg, post, k).ep)
            && post == st.(endpoints := post.endpoints)
  {
    hide NewGatewayEndpoints, ResolveGateway, ParseInt, ByLiveness, MirrorKey, Reported;
    SameNamespace(cfg, k);
    var (post, outcome) := CreateGatewayEndpoints(cfg, remote, env, st, k, svc);
    var n := MirrorKey(cfg.link, k);
    assert n in post.endpoints && post == st.(endpoints := st.endpoints[n := post.endpoints[n]]);
    OneKeyChanged(cfg, st, post, k);
  }

  lemma CreateServiceView(cfg: Config, st: State, k: Key, svc: Service)
    requires cfg.namespaceCreation || k.ns in st.namespaces
    ensures var post := st.(namespaces := st.namespaces + {k.ns},
                            services := st.services[MirrorKey(cfg.link, k) := svc]);
            OnlyAt(cfg, st, post, k) && ViewAt(cfg, post, k) == ViewAt(cfg, st, k).(svc := Some(svc))
  {
    hide MirrorKey, Reported;
    var post := st.(namespaces := st.namespaces + {k.ns}, services := st.services[MirrorKey(cfg.link, k) := svc]);
    assert k.ns in st.namespaces ==> post.namespaces == st.namespaces;
    OneKeyChanged(cfg, st, post, k);
  }

  lemma ExportUnfolds(cfg: Config, remote: Remote, env: Env, st: State, k: Key, svc: Service)
    requires Succeeds(env) && Routable(cfg, env, svc) && !Headless(svc)
    requires ViewAt(cfg, st, k).svc.None? && ViewAt(cfg, st, k).ep.None?
    ensures var n := MirrorKey(cfg.link, k);
            var r := HandleExported(cfg, remote, env, st, k, svc);
            if cfg.namespaceCreation || k.ns in st.namespaces then
              var st2 := st.(namespaces := st.namespaces + {k.ns},
                             services := st.services[n := Stamp(env, st, n, NewMirror(cfg, k, svc, ""))]);
              if IsRemoteDiscovery(cfg.link, svc.labels) then r == (PutMirrorStatus(cfg, st2, k, Mirrored(n)), Done)
              else r == (PutMirrorStatus(cfg, CreateGatewayEndpoints(cfg, remote, env, st2, k, svc).0, k, Mirrored(n)),
                         Done)
            else r == (PutMirrorStatus(cfg, st, k, Failure(REASON_MISSING_NAMESPACE)), Done)
  {
    hide NewMirror, IsRemoteDiscovery, Reported, PutMirrorStatus, CreateGatewayEndpoints, Mirrored, MirrorKey, Failure;
    hide ResolveGateway, ParseInt;
    var n := MirrorKey(cfg.link, k);
    assert n.ns == k.ns by { SameNamespace(cfg, k); }
    assert forall c :: env.ok(c);
    if cfg.namespaceCreation || k.ns in st.namespaces {
      var st1 := EnsureNamespace(cfg, env, st, k.ns).0;
      assert st1 == st.(namespaces := st.namespaces + {k.ns});
      var st2 := CreateService(env, st1, n, NewMirror(cfg, k, svc, "")).0;
      if !IsRemoteDiscovery(cfg.link, svc.labels) {
        GatewayEndpointsSucceed(cfg, remote, env, st2, k, svc);
      }
    }
  }

  /** A successful export creates the mirror, or reports that its namespace is missing. */
  lemma ExportSucceeds(cfg: Config, remote: Remote, env: Env, st: State, k: Key, svc: Service)
    requires Succeeds(env) && Routable(cfg, env, svc) && !Headless(svc)
    requires ViewAt(cfg, st, k).svc.None? && ViewAt(cfg, st, k).ep.None?
    ensures var (post, outcome) := HandleExported(cfg, remote, env, st, k, svc);
            var v := ViewAt(cfg, post, k);
            && outcome == Done && OnlyAt(cfg, st, post, k)
            && (cfg.link.cluster != "" ==> (v.reported <==> v.svc.Some?))
            && (cfg.namespaceCreation || k.ns in st.namespaces ==>
                  k.ns in post.namespaces && Reflects(cfg, k, svc, v) && !Headless(v.svc.value))
            && (!cfg.namespaceCreation && k.ns !in st.namespaces ==> v.svc.None? && v.ep.None?)
  {
    hide HandleExported, MirrorLabels, MirrorAnnotations, RemapPorts, IsRemoteDiscovery, PutMirrorStatus;
    hide CreateGatewayEndpoints, Mirrored, MirrorKey, Failure, Succeeds, OnlyAt, ViewAt, Headless;
    ExportUnfolds(cfg, remote, env, st, k, svc);
    var n := MirrorKey(cfg.link, k);
    if cfg.namespaceCreation || k.ns in st.namespaces {
      assert !Headless(Stamp(env, st, n, NewMirror(cfg, k, svc, ""))) by { AssignedIP(cfg, env, st, n, k, svc); }
      var mirror := Stamp(env, st, n, NewMirror(cfg, k, svc, ""));
      var st2 := st.(namespaces := st.namespaces + {k.ns}, services := st.services[n := mirror]);
      CreateServiceView(cfg, st, k, mirror);
      MirroredIsTrue(n);
      if IsRemoteDiscovery(cfg.link, svc.labels) {
        PutStatusView(cfg, st2, k, Mirrored(n));
        OnlyAtTransitive(cfg, st, st2, PutMirrorStatus(cfg, st2, k, Mirrored(n)), k);
      } else {
        GatewayEndpointsSucceed(cfg, remote, env, st2, k, svc);
        var st3 := CreateGatewayEndpoints(cfg, remote, env, st2, k, svc).0;
        OnlyAtTransitive(cfg, st, st2, st3, k);
        PutStatusView(cfg, st3, k, Mirrored(n));
        OnlyAtTransitive(cfg, st, st3, PutMirrorStatus(cfg, st3, k, Mirrored(n)), k);
      }
    } else {
      FailureIsFalse(REASON_MISSING_NAMESPACE);
      PutStatusView(cfg, st, k, Failure(REASON_MISSING_NAMESPACE));
    }
  }

  lemma AssignedIP(cfg: Config, env: Env, st: State, n: Key, k: Key, svc: Service)
    requires Succeeds(env)
    ensures !Headless(Stamp(env, st, n, NewMirror(cfg, k, svc, "")))
  {
    hide MirrorLabels, MirrorAnnotations, RemapPorts;
    assert |""| != |CLUSTER_IP_NONE|;
  }

  lemma FailureIsFalse(reason: string)
    ensures !Failure(reason).mirrored
  {
  }

  lemma MirroredIsTrue(n: Key)
    ensures Mirrored(n).mirrored
  {
  }

  lemma UpdateModeSucceeds(cfg: Config, remote: Remote, env: Env, st: State, ev: Event)
    requires ev.Updated? && Succeeds(env) && Routable(cfg, env, ev.svc) && ev.key.ns in st.namespaces
    requires ViewAt(cfg, st, ev.key).ep == ev.localEndpoints
    ensures var (post, outcome) := UpdateMode(cfg, remote, env, st, ev);
            && outcome == Done && OnlyAt(cfg, st, post, ev.key)
            && post == st.(endpoints := post.endpoints)
            && ViewAt(cfg, post, ev.key) == ViewAt(cfg, st, ev.key).(ep := ViewAt(cfg, post, ev.key).ep)
            && (ViewAt(cfg, post, ev.key).ep.Some? <==> !IsRemoteDiscovery(cfg.link, ev.svc.labels))
  {
    hide CreateGatewayEndpoints, ResolveGateway, ParseInt, Readiness, GatewaySubsets, MirrorKey, IsRemoteDiscovery;
    hide PutMirrorStatus, Failure, Reported;
    var k := ev.key;
    var n := MirrorKey(cfg.link, k);
    var post := UpdateMode(cfg, remote, env, st, ev).0;
    assert forall c :: env.ok(c);
    if !IsRemoteDiscovery(cfg.link, ev.svc.labels) && ev.localEndpoints.None? {
      GatewayEndpointsSucceed(cfg, remote, env, st, k, ev.svc);
    } else {
      OneKeyChanged(cfg, st, post, k);
    }
  }

  /** A successful update of a mirror that is still the one the event was queued with. */
  lemma UpdateSucceeds(cfg: Config, remote: Remote, env: Env, st: State, ev: Event)
    requires ev.Updated? && Succeeds(env) && Routable(cfg, env, ev.svc) && ev.key.ns in st.namespaces
    requires ViewAt(cfg, st, ev.key).svc == Some(ev.local) && ViewAt(cfg, st, ev.key).ep == ev.localEndpoints
    ensures var out := HandleUpdated(cfg, remote, env, st, ev);
            var v := ViewAt(cfg, out.st, ev.key);
            && out.outcome == Done && out.spawned == [] && OnlyAt(cfg, st, out.st, ev.key)
            && Reflects(cfg, ev.key, ev.svc, v) && v.svc.value.clusterIP == ev.local.clusterIP
            && (cfg.link.cluster != "" ==> v.reported)
            && ev.key.ns in out.st.namespaces
  {
    hide UpdateMode, MirrorKey, PutMirrorStatus, Mirrored, Failure, MirrorLabels, MirrorAnnotations, RemapPorts;
    hide IsRemoteDiscovery;
    hide OnlyAt, Reported;
    var k := ev.key;
    UpdateModeSucceeds(cfg, remote, env, st, ev);
    var st1 := UpdateMode(cfg, remote, env, st, ev).0;
    var n := MirrorKey(cfg.link, k);
    var local := UpdatedLocal(cfg, ev);
    assert env.ok(UpdateServiceCall(n)) by { CallSucceeds(env, UpdateServiceCall(n)); }
    var (st2, updated) := UpdateService(env, st1, n, local);
    assert updated == Ok;
    UpdateServiceView(cfg, st1, k, local.(version := st1.now));
    OnlyAtTransitive(cfg, st, st1, st2, k);
    MirroredIsTrue(n);
    PutStatusView(cfg, st2, k, Mirrored(n));
    OnlyAtTransitive(cfg, st, st2, PutMirrorStatus(cfg, st2, k, Mirrored(n)), k);
  }

  lemma CallSucceeds(env: Env, c: Call)
    requires Succeeds(env)
    ensures env.ok(c)
  {
  }

  lemma UpdateServiceView(cfg: Config, st: State, k: Key, svc: Service)
    ensures var post := st.(services := st.services[MirrorKey(cfg.link, k) := svc]);
            OnlyAt(cfg, st, post, k) && ViewAt(cfg, post, k) == ViewAt(cfg, st, k).(svc := Some(svc))
  {
    hide MirrorKey, Reported;
    OneKeyChanged(cfg, st, st.(services := st.services[MirrorKey(cfg.link, k) := svc]), k);
  }

  /** A successful unexport leaves nothing under the mirror name. */
  lemma UnexportSucceeds(cfg: Config, env: Env, st: State, k: Key)
    requires Succeeds(env)
    requires var v := ViewAt(cfg, st, k); (v.svc.Some? ==> !Headless(v.svc.value)) && (v.svc.None? ==> v.ep.None?)
    ensures var (post, outcome) := HandleUnexported(cfg, env, st, k);
            && outcome == Done && OnlyAt(cfg, st, post, k) && post.namespaces == st.namespaces
            && ViewAt(cfg, post, k).svc.None? && ViewAt(cfg, post, k).ep.None?
            && (cfg.link.cluster != "" ==> !ViewAt(cfg, post, k).reported)
  {
    hide MirrorKey, DropMirrorStatus, EndpointMirrorsOf, Headless, Reported, OnlyAt;
    DropStatusView(cfg, st, k);
    var st1 := DropMirrorStatus(cfg, st, k);
    var n := MirrorKey(cfg.link, k);
    CallSucceeds(env, GetService(n));
    CallSucceeds(env, DeleteServiceCall(n));
    if n in st1.services {
      assert Purge(env, st1, {}) == st1 by { PurgeNothing(env, st1); }
      var st2 := st1.(services := st1.services - {n}, endpoints := st1.endpoints - {n});
      DeleteServiceView(cfg, st1, k);
      OnlyAtTransitive(cfg, st, st1, st2, k);
      assert HandleUnexported(cfg, env, st, k) == (st2, Done);
    }
  }

  lemma PurgeNothing(env: Env, st: State)
    ensures Purge(env, st, {}) == st
  {
    assert st.services - {} == st.services && st.endpoints - {} == st.endpoints;
  }

  lemma DeleteServiceView(cfg: Config, st: State, k: Key)
    ensures var n := MirrorKey(cfg.link, k);
            var post := st.(services := st.services - {n}, endpoints := st.endpoints - {n});
            OnlyAt(cfg, st, post, k) && ViewAt(cfg, post, k) == ViewAt(cfg, st, k).(svc := None, ep := None)
  {
    hide MirrorKey, Reported;
    var n := MirrorKey(cfg.link, k);
    OneKeyChanged(cfg, st, st.(services := st.services - {n}, endpoints := st.endpoints - {n}), k);
  }

  /* ---------- federated events leave mirrors alone ---------- */

  /** Only the object at one key, the federated status and, if allowed, the namespaces differ. */
  ghost predicate AwayFrom(cfg: Config, pre: State, post: State, fk: Key) {
    && pre.namespaces <= post.namespaces && (post.namespaces == pre.namespaces || cfg.namespaceCreation)
    && post.mirrorStatus == pre.mirrorStatus
    && (forall n :: n != fk ==> SameAt(pre, post, n))
  }

  predicate SameAt(pre: State, post: State, n: Key) {
    && (n in post.services <==> n in pre.services) && (n in pre.services ==> post.services[n] == pre.services[n])
    && (n in post.endpoints <==> n in pre.endpoints) && (n in pre.endpoints ==> post.endpoints[n] == pre.endpoints[n])
  }

  lemma AwayFromTransitive(cfg: Config, a: State, b: State, c: State, fk: Key)
    requires AwayFrom(cfg, a, b, fk) && AwayFrom(cfg, b, c, fk)
    ensures AwayFrom(cfg, a, c, fk)
  {
    forall n | n != fk ensures SameAt(a, c, n) {
      assert SameAt(a, b, n) && SameAt(b, c, n);
    }
  }

  lemma CallsAwayFrom(cfg: Config, env: Env, st: State, fk: Key, svc: Service)
    ensures AwayFrom(cfg, st, st, fk)
    ensures AwayFrom(cfg, st, EnsureNamespace(cfg, env, st, fk.ns).0, fk)
    ensures AwayFrom(cfg, st, CreateService(env, st, fk, svc).0, fk)
    ensures AwayFrom(cfg, st, UpdateService(env, st, fk, svc).0, fk)
    ensures AwayFrom(cfg, st, DeleteService(env, st, fk).0, fk)
  {
    hide Stamp;
  }

  lemma StatusAwayFrom(cfg: Config, st: State, st1: State, k: Key, c: Condition)
    requires AwayFrom(cfg, st, st1, FederatedKey(k))
    ensures AwayFrom(cfg, st, PutFederatedStatus(cfg, st1, k, c), FederatedKey(k))
    ensures AwayFrom(cfg, st, DropFederatedStatus(cfg, st1, k), FederatedKey(k))
  {
    hide Update, Delete, FederatedKey;
    forall n | n != FederatedKey(k)
      ensures SameAt(st, PutFederatedStatus(cfg, st1, k, c), n) && SameAt(st, DropFederatedStatus(cfg, st1, k), n)
    {
      assert SameAt(st, st1, n);
    }
  }

  lemma CreateFederatedAwayFrom(cfg: Config, env: Env, st: State, k: Key, svc: Service)
    ensures AwayFrom(cfg, st, HandleCreateFederated(cfg, env, st, k, svc).0, FederatedKey(k))
  {
    hide AwayFrom, CreatedAnnotations, CommonLabels, RemapPorts, PutFederatedStatus, Mirrored, Failure, Headless;
    hide EnsureNamespace, CreateService;
    var fk := FederatedKey(k);
    var federated := Service(CommonLabels(svc.labels), CreatedAnnotations(cfg.link.cluster, k.name, svc.annotations),
                             RemapPorts(svc.ports), "", 0);
    CallsAwayFrom(cfg, env, st, fk, federated);
    var st1 := EnsureNamespace(cfg, env, st, k.ns).0;
    CallsAwayFrom(cfg, env, st1, fk, federated);
    var st2 := CreateService(env, st1, fk, federated).0;
    AwayFromTransitive(cfg, st, st1, st2, fk);
    forall c: Condition ensures
      && AwayFrom(cfg, st, PutFederatedStatus(cfg, st, k, c), fk)
      && AwayFrom(cfg, st, PutFederatedStatus(cfg, st1, k, c), fk)
      && AwayFrom(cfg, st, PutFederatedStatus(cfg, st2, k, c), fk)
    {
      StatusAwayFrom(cfg, st, st, k, c);
      StatusAwayFrom(cfg, st, st1, k, c);
      StatusAwayFrom(cfg, st, st2, k, c);
    }
  }

  lemma JoinAwayFrom(cfg: Config, env: Env, st: State, ev: Event)
    requires ev.JoinFederated?
    ensures var out := HandleJoin(cfg, env, st, ev);
            AwayFrom(cfg, st, out.st, FederatedKey(ev.key)) && out.spawned == [] && out.event.JoinFederated?
  {
    hide AwayFrom, JoinedAnnotations, FederatedKey, PutFederatedStatus, Mirrored, Failure, Headless, UpdateService;
    var fk := FederatedKey(ev.key);
    CallsAwayFrom(cfg, env, st, fk, ev.local);
    StatusAwayFrom(cfg, st, st, ev.key, Failure(REASON_INVALID_SERVICE));
    var joined := JoinedAnnotations(cfg.link.cluster, ev.key.name, ev.local.annotations);
    if joined.Some? {
      var local := ev.local.(annotations := joined.value);
      CallsAwayFrom(cfg, env, st, fk, local);
      var st1 := UpdateService(env, st, fk, local).0;
      StatusAwayFrom(cfg, st, st1, ev.key, Mirrored(fk));
      StatusAwayFrom(cfg, st, st1, ev.key, Failure(REASON_ERROR));
    }
  }

  lemma LeaveAwayFrom(cfg: Config, env: Env, st: State, k: Key)
    ensures AwayFrom(cfg, st, HandleLeave(cfg, env, st, k).0, FederatedKey(k))
  {
    hide AwayFrom, LeftAnnotations, NoMembers, FederatedKey, DropFederatedStatus, UpdateService, DeleteService;
    var fk := FederatedKey(k);
    var st1 := DropFederatedStatus(cfg, st, k);
    var any := Service(map[], map[], [], "", 0);
    CallsAwayFrom(cfg, env, st, fk, any);
    StatusAwayFrom(cfg, st, st, k, Failure(REASON_ERROR));
    CallsAwayFrom(cfg, env, st1, fk, any);
    var st2 := DeleteService(env, st1, fk).0;
    AwayFromTransitive(cfg, st, st1, st2, fk);
    StatusAwayFrom(cfg, st, st2, k, Failure(REASON_ERROR));
    if fk in st1.services {
      var left := LeftAnnotations(cfg.link.cluster, k.name, st1.services[fk].annotations);
      if left.Some? {
        var local := st1.services[fk].(annotations := left.value);
        CallsAwayFrom(cfg, env, st1, fk, local);
        AwayFromTransitive(cfg, st, st1, UpdateService(env, st1, fk, local).0, fk);
      }
    }
  }

  lemma FederatedAwayFrom(cfg: Config, remote: Remote, env: Env, st: State, ev: Event)
    requires Neutral(ev)
    ensures var out := Handle(cfg, remote, env, st, ev);
            AwayFrom(cfg, st, out.st, FederatedKey(ev.key)) && out.spawned == [] && Neutral(out.event)
  {
    hide HandleCreateFederated, HandleJoin, HandleLeave, AwayFrom, FederatedKey;
    match ev
    case CreateFederated(k, svc) => CreateFederatedAwayFrom(cfg, env, st, k, svc);
    case JoinFederated(_, _, _) => JoinAwayFrom(cfg, env, st, ev);
    case LeaveFederated(k) => LeaveAwayFrom(cfg, env, st, k);
  }

  lemma NeutralKeepsViews(cfg: Config, pre: State, post: State, j: Key)
    requires !FederatedLike(cfg.link.cluster) && AwayFrom(cfg, pre, post, FederatedKey(j))
    ensures forall k :: ViewAt(cfg, post, k) == ViewAt(cfg, pre, k)
  {
    hide MirrorKey, FederatedKey, Reported, FederatedLike;
    forall k ensures ViewAt(cfg, post, k) == ViewAt(cfg, pre, k) {
      MirrorAvoidsFederated(cfg.link, k, j);
      assert SameAt(pre, post, MirrorKey(cfg.link, k));
    }
  }

  /* ---------- the effect of one event ---------- */

  /** The events that write or delete a mirror. */
  predicate Writes(remote: Remote, ev: Event, k: Key) {
    (About(ev, k) && (Acts(ev) || ev.Unexported?)) || (ev.GcTriggered? && k !in remote.services)
  }

  /** The services an event covers end in sync or covered by what it queued; mirrors it does not write are as
      before; and only a decision queues an event that relies on how the mirror was found. */
  ghost predicate Local(cfg: Config, remote: Remote, pre: State, ev: Event, out: Out) {
    && pre.namespaces <= out.st.namespaces && (out.st.namespaces == pre.namespaces || cfg.namespaceCreation)
    && (forall k :: !Writes(remote, ev, k) ==> ViewAt(cfg, out.st, k) == ViewAt(cfg, pre, k))
    && (forall k :: Covers(cfg, remote, pre, ev, k) ==>
          InSync(cfg, remote, out.st, k) || Covered(cfg, remote, out.st, out.spawned, k))
    && Orderly(cfg, remote, out.st, out.spawned)
    && (forall i, k :: 0 <= i < |out.spawned| && Acts(out.spawned[i]) && About(out.spawned[i], k) ==>
          Decides(ev) && About(ev, k))
    && (forall i :: 0 <= i < |out.spawned| ==> !out.spawned[i].GcTriggered?)
    && (out.outcome == Retry ==> Neutral(out.event))
    && AllBase(cfg, remote, out.st)
    && (AllHonest(cfg, pre) && !ev.GcTriggered? ==> AllHonest(cfg, out.st))
  }

  lemma BaseDependsOnView(cfg: Config, remote: Remote, pre: State, post: State, k: Key)
    requires Base(cfg, remote, pre, k) && ViewAt(cfg, post, k) == ViewAt(cfg, pre, k)
    requires pre.namespaces <= post.namespaces
    ensures Base(cfg, remote, post, k)
  {
    hide ViewAt, Claimed, Unreused;
  }

  lemma BaseElsewhere(cfg: Config, remote: Remote, pre: State, post: State, k0: Key)
    requires AllBase(cfg, remote, pre) && OnlyAt(cfg, pre, post, k0) && Base(cfg, remote, post, k0)
    ensures AllBase(cfg, remote, post)
  {
    hide ViewAt, Base;
    forall k ensures Base(cfg, remote, post, k) {
      if k != k0 { BaseDependsOnView(cfg, remote, pre, post, k); }
    }
  }

  /** A mirror computed from the current remote version satisfies everything asked of a mirror. */
  lemma ReflectedIsBase(cfg: Config, remote: Remote, st: State, k: Key)
    requires k in remote.services && Desired(cfg.link, remote.services[k].labels)
    requires Reflects(cfg, k, remote.services[k], ViewAt(cfg, st, k)) && k.ns in st.namespaces
    requires !Headless(ViewAt(cfg, st, k).svc.value)
    ensures Base(cfg, remote, st, k) && InSync(cfg, remote, st, k)
  {
    hide ViewAt, MirrorLabels, MirrorAnnotations, RemapPorts, Desired, Headless, OfLink, IsRemoteDiscovery;
    var svc := remote.services[k];
    MirrorLabelFacts(cfg.link, k, svc.labels);
    RecordedVersion(cfg.link, k, svc);
    assert Records(ViewAt(cfg, st, k).svc.value, svc.version);
  }

  lemma AbsentIsBase(cfg: Config, remote: Remote, st: State, k: Key)
    requires ViewAt(cfg, st, k).svc.None? && ViewAt(cfg, st, k).ep.None?
    ensures Base(cfg, remote, st, k)
    ensures !Wanted(cfg, remote, st, k) ==> InSync(cfg, remote, st, k)
  {
    hide ViewAt, Reflects, Desired;
  }

  lemma MirrorDecisionLocal(cfg: Config, remote: Remote, env: Env, st: State, k: Key)
    requires Succeeds(env) && k in remote.services && Base(cfg, remote, st, k)
    ensures var (first, outcome) := MirrorDecision(cfg, env, st, k, remote.services[k]);
            && outcome == Done && |first| <= 1
            && (first == [] ==> InSync(cfg, remote, st, k))
            && (first != [] ==> (first[0].Exported? || first[0].Updated? || first[0].Unexported?)
                                && first[0].key == k && Apt(cfg, remote, st, first[0], k))
  {
    hide MirrorKey, Desired, Reflects, FormatNat, Headless;
    var n := MirrorKey(cfg.link, k);
    CallSucceeds(env, GetService(n));
    CallSucceeds(env, GetEndpoints(n));
  }

  lemma FederatedDecisionLocal(cfg: Config, env: Env, st: State, k: Key, svc: Service)
    requires Succeeds(env)
    ensures var (st', second, outcome) := FederatedDecision(cfg, env, st, k, svc);
            && st' == st && outcome == Done && |second| <= 1 && (second != [] ==> Neutral(second[0]))
  {
    hide FederatedKey, IsFederatedMember, PutFederatedStatus;
    CallSucceeds(env, GetService(FederatedKey(k)));
  }

  lemma DecisionLocal(cfg: Config, remote: Remote, env: Env, st: State, ev: Event)
    requires Decides(ev) && Succeeds(env) && AllBase(cfg, remote, st) && Apt(cfg, remote, st, ev, ev.key)
    ensures Local(cfg, remote, st, ev, CreateOrUpdate(cfg, env, st, ev))
  {
    hide MirrorDecision, FederatedDecision, Succeeds, Base, ViewAt, InSync, Desired, Local;
    var k, svc := ev.key, ev.svc;
    assert Base(cfg, remote, st, k);
    MirrorDecisionLocal(cfg, remote, env, st, k);
    FederatedDecisionLocal(cfg, env, st, k, svc);
    var first := MirrorDecision(cfg, env, st, k, svc).0;
    var out := CreateOrUpdate(cfg, env, st, ev);
    SpawnIsLocal(cfg, remote, st, ev, out, first, out.spawned[|first|..]);
  }

  /** At most one event for the service itself, then only federated ones. */
  lemma SpawnIsLocal(cfg: Config, remote: Remote, st: State, ev: Event, out: Out,
                     first: seq<Event>, second: seq<Event>)
    requires Decides(ev) && AllBase(cfg, remote, st)
    requires out.st == st && out.outcome == Done && out.spawned == first + second && |first| <= 1
    requires if first == [] then InSync(cfg, remote, st, ev.key)
             else (first[0].Exported? || first[0].Updated? || first[0].Unexported?)
                  && first[0].key == ev.key && Apt(cfg, remote, st, first[0], ev.key)
    requires |second| <= 1 && (second != [] ==> Neutral(second[0]))
    ensures Local(cfg, remote, st, ev, out)
  {
    hide ViewAt, InSync, Desired, AllBase, Apt, AllHonest;
    if first != [] {
      assert Covers(cfg, remote, st, out.spawned[0], ev.key);
    }
  }

  lemma DeleteLocal(cfg: Config, remote: Remote, st: State, ev: Event)
    requires ev.OnDelete? && AllBase(cfg, remote, st) && Apt(cfg, remote, st, ev, ev.key)
    ensures Local(cfg, remote, st, ev, HandleDelete(cfg, st, ev))
  {
    hide ViewAt, Desired, IsFederatedMember, Claimed, Unreused, Reflects, AllHonest;
    hide Orderly, Covered, AllBase;
    BaseAt(cfg, remote, st, ev.key);
    DeletionOrderly(cfg, remote, st, ev);
    var spawned := HandleDelete(cfg, st, ev).spawned;
    forall k | Covers(cfg, remote, st, ev, k)
      ensures InSync(cfg, remote, st, k) || Covered(cfg, remote, st, spawned, k)
    {
      if Desired(cfg.link, ev.svc.labels) {
        DeletionCovers(cfg, remote, st, ev);
      }
    }
    assert forall i :: 0 <= i < |spawned| ==> !Acts(spawned[i]) && !spawned[i].GcTriggered?;
    assert HandleDelete(cfg, st, ev) == Out(st, spawned, Done, ev);
  }

  lemma BaseAt(cfg: Config, remote: Remote, st: State, k: Key)
    requires AllBase(cfg, remote, st)
    ensures Base(cfg, remote, st, k)
  {
    hide Base;
  }

  lemma DeletionOrderly(cfg: Config, remote: Remote, st: State, ev: Event)
    requires ev.OnDelete? && Apt(cfg, remote, st, ev, ev.key)
    ensures Orderly(cfg, remote, st, HandleDelete(cfg, st, ev).spawned)
  {
    hide ViewAt, Desired, IsFederatedMember;
  }

  lemma DeletionCovers(cfg: Config, remote: Remote, st: State, ev: Event)
    requires ev.OnDelete? && Apt(cfg, remote, st, ev, ev.key) && Desired(cfg.link, ev.svc.labels)
    ensures Covered(cfg, remote, st, HandleDelete(cfg, st, ev).spawned, ev.key)
  {
    hide ViewAt, Desired, IsFederatedMember;
    assert Covers(cfg, remote, st, HandleDelete(cfg, st, ev).spawned[0], ev.key);
  }

  lemma NamespaceLocal(cfg: Config, remote: Remote, env: Env, st: State, ns: string)
    requires Succeeds(env) && AllBase(cfg, remote, st)
    ensures Local(cfg, remote, st, NamespaceAdded(ns), HandleNamespaceAdded(remote, env, st, ns))
  {
    hide ViewAt, AllBase, InSync, OnAdds, Orderly, Covered, AllHonest;
    CallSucceeds(env, RemoteListServices(ns));
    var keys := RemoteIn(remote, ns);
    var list := env.list(keys);
    assert Enumerates(list, keys);
    OnAddsExact(remote, list);
    AddsOrderly(cfg, remote, st, list, OnAdds(remote, list));
    forall k: Key | k.ns == ns && k in remote.services ensures Covered(cfg, remote, st, OnAdds(remote, list), k) {
      assert k in keys;
      var i :| 0 <= i < |list| && list[i] == k;
      AddCovers(cfg, remote, st, OnAdds(remote, list), i, k);
    }
    var out := HandleNamespaceAdded(remote, env, st, ns);
    assert out == Out(st, OnAdds(remote, list), Done, NamespaceAdded(ns));
    assert forall i :: 0 <= i < |out.spawned| ==> !Acts(out.spawned[i]);
    assert forall k :: Covers(cfg, remote, st, NamespaceAdded(ns), k) ==> Covered(cfg, remote, st, out.spawned, k);
  }

  lemma AddCovers(cfg: Config, remote: Remote, st: State, adds: seq<Event>, i: nat, k: Key)
    requires i < |adds| && k in remote.services && adds[i] == OnAdd(k, remote.services[k])
    ensures Covered(cfg, remote, st, adds, k)
  {
    hide ViewAt;
    assert Covers(cfg, remote, st, adds[i], k);
  }

  lemma AddsOrderly(cfg: Config, remote: Remote, st: State, keys: seq<Key>, adds: seq<Event>)
    requires |adds| == |keys|
    requires forall i :: 0 <= i < |keys| ==>
               keys[i] in remote.services && adds[i] == OnAdd(keys[i], remote.services[keys[i]])
    ensures Orderly(cfg, remote, st, adds)
  {
    hide ViewAt, Desired;
  }

  lemma {:induction false} OnAddsExact(remote: Remote, keys: seq<Key>)
    requires forall i :: 0 <= i < |keys| ==> keys[i] in remote.services
    ensures |OnAdds(remote, keys)| == |keys|
    ensures forall i :: 0 <= i < |keys| ==> OnAdds(remote, keys)[i] == OnAdd(keys[i], remote.services[keys[i]])
  {
    if keys != [] {
      OnAddsExact(remote, keys[..|keys| - 1]);
    }
  }

  lemma LocalWithoutSpawn(cfg: Config, remote: Remote, pre: State, ev: Event, post: State, k: Key)
    requires About(ev, k) && (Acts(ev) || ev.Unexported?)
    requires OnlyAt(cfg, pre, post, k) && InSync(cfg, remote, post, k) && AllBase(cfg, remote, post)
    requires Honest(cfg, post, k)
    ensures Local(cfg, remote, pre, ev, Out(post, [], Done, ev))
  {
    hide ViewAt, InSync, Base, Apt;
    forall j | AllHonest(cfg, pre) ensures Honest(cfg, post, j) {
      assert Honest(cfg, pre, j);
    }
  }

  lemma ExportLocal(cfg: Config, remote: Remote, env: Env, st: State, k: Key, svc: Service)
    requires Succeeds(env) && Routable(cfg, env, svc) && AllBase(cfg, remote, st) && RemoteOk(remote)
    requires Apt(cfg, remote, st, Exported(k, svc), k)
    ensures Local(cfg, remote, st, Exported(k, svc),
                  Plain(HandleExported(cfg, remote, env, st, k, svc), Exported(k, svc)))
  {
    hide Routable, HandleExported, ViewAt, Reflects, Desired, Claimed, Headless, Succeeds, OnlyAt, Local, InSync;
    assert Base(cfg, remote, st, k);
    ExportSucceeds(cfg, remote, env, st, k, svc);
    var post := HandleExported(cfg, remote, env, st, k, svc).0;
    if cfg.namespaceCreation || k.ns in st.namespaces {
      ReflectsHasService(cfg, k, svc, ViewAt(cfg, post, k));
      ReflectedIsBase(cfg, remote, post, k);
    } else {
      AbsentIsBase(cfg, remote, post, k);
      assert post.namespaces == st.namespaces by { OnlyAtNamespaces(cfg, st, post, k); }
    }
    BaseElsewhere(cfg, remote, st, post, k);
    LocalWithoutSpawn(cfg, remote, st, Exported(k, svc), post, k);
  }

  lemma ReflectsHasService(cfg: Config, k: Key, svc: Service, v: View)
    requires Reflects(cfg, k, svc, v)
    ensures v.svc.Some?
  {
    hide MirrorLabels, MirrorAnnotations, RemapPorts, IsRemoteDiscovery;
  }

  lemma OnlyAtNamespaces(cfg: Config, pre: State, post: State, k: Key)
    requires OnlyAt(cfg, pre, post, k) && !cfg.namespaceCreation
    ensures post.namespaces == pre.namespaces
  {
  }

  lemma UpdateLocal(cfg: Config, remote: Remote, env: Env, st: State, ev: Event)
    requires ev.Updated? && Succeeds(env) && Routable(cfg, env, ev.svc)
    requires AllBase(cfg, remote, st) && RemoteOk(remote) && Apt(cfg, remote, st, ev, ev.key)
    ensures Local(cfg, remote, st, ev, HandleUpdated(cfg, remote, env, st, ev))
  {
    hide Routable, HandleUpdated, ViewAt, Reflects, Desired, Succeeds, OnlyAt, InSync, Local;
    var k := ev.key;
    assert Base(cfg, remote, st, k);
    UpdateSucceeds(cfg, remote, env, st, ev);
    var out := HandleUpdated(cfg, remote, env, st, ev);
    var post := out.st;
    ReflectsHasService(cfg, k, ev.svc, ViewAt(cfg, post, k));
    ReflectedIsBase(cfg, remote, post, k);
    BaseElsewhere(cfg, remote, st, post, k);
    LocalWithoutSpawn(cfg, remote, st, ev, post, k);
    DoneIsForgotten(cfg, remote, st, ev, out);
  }

  /** The event of a finished handler does not matter. */
  lemma DoneIsForgotten(cfg: Config, remote: Remote, st: State, ev: Event, out: Out)
    requires out.outcome == Done && out.spawned == [] && Local(cfg, remote, st, ev, Out(out.st, [], Done, ev))
    ensures Local(cfg, remote, st, ev, out)
  {
    hide ViewAt, InSync, AllBase, Apt, AllHonest, Covers;
  }

  lemma UnexportLocal(cfg: Config, remote: Remote, env: Env, st: State, k: Key)
    requires Succeeds(env) && AllBase(cfg, remote, st) && Apt(cfg, remote, st, Unexported(k), k)
    ensures Local(cfg, remote, st, Unexported(k), Plain(HandleUnexported(cfg, env, st, k), Unexported(k)))
  {
    hide HandleUnexported, ViewAt, Reflects, Desired, OfLink, Headless, Succeeds, OnlyAt, Local, InSync;
    assert Base(cfg, remote, st, k);
    UnexportSucceeds(cfg, env, st, k);
    var post := HandleUnexported(cfg, env, st, k).0;
    AbsentIsBase(cfg, remote, post, k);
    BaseElsewhere(cfg, remote, st, post, k);
    LocalWithoutSpawn(cfg, remote, st, Unexported(k), post, k);
  }

  lemma NeutralLocal(cfg: Config, remote: Remote, env: Env, st: State, ev: Event)
    requires Neutral(ev) && !FederatedLike(cfg.link.cluster) && AllBase(cfg, remote, st)
    ensures Local(cfg, remote, st, ev, Handle(cfg, remote, env, st, ev))
  {
    hide Handle, ViewAt, Base, FederatedLike, FederatedKey, SameAt, InSync, Apt;
    var out := Handle(cfg, remote, env, st, ev);
    FederatedAwayFrom(cfg, remote, env, st, ev);
    NeutralKeepsViews(cfg, st, out.st, ev.key);
    forall k ensures Base(cfg, remote, out.st, k) {
      BaseDependsOnView(cfg, remote, st, out.st, k);
    }
    forall k | AllHonest(cfg, st) ensures Honest(cfg, out.st, k) {
      assert Honest(cfg, st, k);
    }
  }

  /** Collecting takes the mirrors of the services that are gone, and their endpoints; the status stays. */
  lemma CollectedView(cfg: Config, remote: Remote, env: Env, st: State, k: Key)
    requires Succeeds(env) && Base(cfg, remote, st, k)
    ensures var (post, outcome) := HandleGc(cfg, remote, env, st); var v := ViewAt(cfg, post, k);
            && outcome == Done && post.namespaces == st.namespaces
            && (if k in remote.services then v == ViewAt(cfg, st, k)
                else v == ViewAt(cfg, st, k).(svc := None, ep := None))
  {
    hide MirrorKey, OriginalName, Reported, OfLink, Headless, Unreused;
    var n := MirrorKey(cfg.link, k);
    assert forall c :: env.ok(c);
    assert n.ns == k.ns && OriginalName(cfg.link, n.name) == k.name by {
      SameNamespace(cfg, k);
      OriginalInvertsMirror(cfg.link, k);
    }
    if n in st.services {
      assert OriginOf(cfg, n, st.services[n]) == k;
    }
  }

  lemma GcLocal(cfg: Config, remote: Remote, env: Env, st: State)
    requires Succeeds(env) && AllBase(cfg, remote, st)
    ensures Local(cfg, remote, st, GcTriggered, Plain(HandleGc(cfg, remote, env, st), GcTriggered))
  {
    hide HandleGc, ViewAt, Base, Succeeds, Desired, Reflects;
    var post := HandleGc(cfg, remote, env, st).0;
    CollectedView(cfg, remote, env, st, Key("", ""));
    forall k
      ensures Base(cfg, remote, post, k)
      ensures k in remote.services ==> ViewAt(cfg, post, k) == ViewAt(cfg, st, k)
      ensures k !in remote.services ==> InSync(cfg, remote, post, k)
    {
      CollectedView(cfg, remote, env, st, k);
      if k in remote.services {
        BaseDependsOnView(cfg, remote, st, post, k);
      } else {
        AbsentIsBase(cfg, remote, post, k);
      }
    }
  }

  /** Every event of a run in which nothing fails is local. */
  lemma HandleLocal(cfg: Config, remote: Remote, env: Env, st: State, ev: Event)
    requires Expected(ev) && !FederatedLike(cfg.link.cluster)
    requires Smooth(cfg, env, ev) && AllBase(cfg, remote, st) && RemoteOk(remote)
    requires forall k :: About(ev, k) ==> Apt(cfg, remote, st, ev, k)
    ensures Local(cfg, remote, st, ev, Handle(cfg, remote, env, st, ev))
  {
    hide CreateOrUpdate, HandleDelete, HandleExported, HandleUpdated, HandleUnexported, HandleNamespaceAdded;
    hide HandleCreateFederated, HandleJoin, HandleLeave, HandleCleanup, HandleGc, HandleRepair, HandleEndpoints;
    hide Local, AllBase, RemoteOk, Succeeds, Routable, Apt, FederatedLike;
    match ev
    case OnAdd(k, svc) => assert About(ev, k); DecisionLocal(cfg, remote, env, st, ev);
    case OnUpdate(k, svc) => assert About(ev, k); DecisionLocal(cfg, remote, env, st, ev);
    case OnDelete(k, svc) => assert About(ev, k); DeleteLocal(cfg, remote, st, ev);
    case Exported(k, svc) => assert About(ev, k); ExportLocal(cfg, remote, env, st, k, svc);
    case Updated(k, _, _, svc) => assert About(ev, k); UpdateLocal(cfg, remote, env, st, ev);
    case Unexported(k) => assert About(ev, k); UnexportLocal(cfg, remote, env, st, k);
    case NamespaceAdded(ns) => NamespaceLocal(cfg, remote, env, st, ns);
    case GcTriggered => GcLocal(cfg, remote, env, st);
    case CreateFederated(_, _) => NeutralLocal(cfg, remote, env, st, ev);
    case JoinFederated(_, _, _) => NeutralLocal(cfg, remote, env, st, ev);
    case LeaveFederated(_) => NeutralLocal(cfg, remote, env, st, ev);
  }

  /* ---------- the queue ---------- */

  function Events(queue: seq<Item>): (events: seq<Event>)
    ensures |events| == |queue|
    ensures forall i :: 0 <= i < |queue| ==> events[i] == queue[i].event
  {
    seq(|queue|, i requires 0 <= i < |queue| => queue[i].event)
  }

  ghost predicate Tracking(cfg: Config, sys: System) {
    && Consistent(cfg, sys)
    && RemoteOk(sys.remote)
    && AllBase(cfg, sys.remote, sys.st)
    && Orderly(cfg, sys.remote, sys.st, Events(sys.queue))
    && Progress(cfg, sys.remote, sys.st, Events(sys.queue))
  }

  /** A service is not decided upon while an export or an update of it is queued. */
  predicate Polite(events: seq<Event>, i: nat)
    requires i < |events|
  {
    Decides(events[i]) ==> forall j :: 0 <= j < |events| ==> !(Acts(events[j]) && events[j].key == events[i].key)
  }

  lemma CoversDependsOnView(cfg: Config, remote: Remote, pre: State, post: State, ev: Event, k: Key)
    requires ViewAt(cfg, post, k) == ViewAt(cfg, pre, k)
    ensures Covers(cfg, remote, pre, ev, k) ==> Covers(cfg, remote, post, ev, k)
    ensures Apt(cfg, remote, pre, ev, k) ==> Apt(cfg, remote, post, ev, k)
  {
    hide ViewAt, Desired;
  }

  lemma InSyncDependsOnView(cfg: Config, remote: Remote, pre: State, post: State, k: Key)
    requires InSync(cfg, remote, pre, k) && ViewAt(cfg, post, k) == ViewAt(cfg, pre, k)
    requires pre.namespaces <= post.namespaces && (post.namespaces == pre.namespaces || cfg.namespaceCreation)
    ensures InSync(cfg, remote, post, k)
  {
    hide ViewAt, Desired, Reflects;
  }

  /** Where the l-th event of the new queue comes from. */
  lemma QueueOrigin(rest: seq<Event>, spawned: seq<Event>, again: seq<Event>, events: seq<Event>, i: nat, l: nat)
    requires i < |events| && rest == events[..i] + events[i + 1..] && l < |rest + spawned + again|
    ensures var ev := (rest + spawned + again)[l];
            || (exists j :: 0 <= j < |events| && j != i && ev == events[j] && l < |rest|
                            && j == if l < i then l else l + 1)
            || (0 <= l - |rest| < |spawned| && ev == spawned[l - |rest|])
            || ev in again
  {
    if l < |rest| {
      var j := if l < i then l else l + 1;
      assert rest[l] == events[j];
    }
  }

  ghost predicate Replaces(events: seq<Event>, i: nat, spawned: seq<Event>, again: seq<Event>, after: seq<Event>) {
    i < |events| && after == events[..i] + events[i + 1..] + spawned + again
    && (forall ev :: ev in again ==> Neutral(ev))
  }

  lemma ReplacedOrderly(cfg: Config, remote: Remote, pre: State, out: Out,
                        events: seq<Event>, i: nat, again: seq<Event>, after: seq<Event>)
    requires Orderly(cfg, remote, pre, events) && Replaces(events, i, out.spawned, again, after) && Polite(events, i)
    requires Local(cfg, remote, pre, events[i], out)
    ensures Orderly(cfg, remote, out.st, after)
  {
    hide ViewAt, Covers, Covered, InSync, AllBase, About, Apt, Acts, Decides, Polite, OneActs, AllHonest;
    var rest := events[..i] + events[i + 1..];
    forall l | 0 <= l < |after|
      ensures Expected(after[l])
      ensures forall k :: About(after[l], k) ==> Apt(cfg, remote, out.st, after[l], k)
    {
      QueueOrigin(rest, out.spawned, again, events, i, l);
      forall k | About(after[l], k) ensures Apt(cfg, remote, out.st, after[l], k) {
        StillApt(cfg, remote, pre, out, events, i, again, after, l, k);
      }
    }
    assert OneActs(after) by { ReplacedOneActs(cfg, remote, pre, out, events, i, again, after); }
  }

  lemma NeutralIsAboutNothing(ev: Event, k: Key)
    requires Neutral(ev)
    ensures !About(ev, k) && Expected(ev)
  {
  }

  /** An event that relies on the mirror of k keeps the others from writing it. */
  lemma ActingIsUndisturbed(cfg: Config, remote: Remote, st: State, events: seq<Event>, i: nat, j: nat, k: Key)
    requires Orderly(cfg, remote, st, events) && i < |events| && j < |events| && i != j
    requires About(events[j], k) && Acts(events[j])
    ensures !Writes(remote, events[i], k)
  {
    hide ViewAt, Desired;
    assert Apt(cfg, remote, st, events[j], k);
    if About(events[i], k) {
      assert Apt(cfg, remote, st, events[i], k);
      assert !Acts(events[i]);
    }
  }

  lemma StillApt(cfg: Config, remote: Remote, pre: State, out: Out,
                 events: seq<Event>, i: nat, again: seq<Event>, after: seq<Event>, l: nat, k: Key)
    requires Orderly(cfg, remote, pre, events) && Replaces(events, i, out.spawned, again, after)
    requires Local(cfg, remote, pre, events[i], out)
    requires l < |after| && About(after[l], k)
    ensures Apt(cfg, remote, out.st, after[l], k)
  {
    hide ViewAt, Covers, Covered, InSync, AllBase, About, Apt, Acts, Expected, OneActs, AllHonest, Writes;
    var rest := events[..i] + events[i + 1..];
    QueueOrigin(rest, out.spawned, again, events, i, l);
    if after[l] in again {
      NeutralIsAboutNothing(after[l], k);
    } else if l < |rest| {
      var j := if l < i then l else l + 1;
      assert after[l] == events[j] && Apt(cfg, remote, pre, events[j], k);
      if Acts(events[j]) {
        ActingIsUndisturbed(cfg, remote, pre, events, i, j, k);
        CoversDependsOnView(cfg, remote, pre, out.st, events[j], k);
      } else {
        ReportsStayApt(cfg, remote, pre, out.st, events[j], k);
      }
    }
  }

  lemma ReportsStayApt(cfg: Config, remote: Remote, pre: State, post: State, ev: Event, k: Key)
    requires !Acts(ev)
    ensures Apt(cfg, remote, pre, ev, k) ==> Apt(cfg, remote, post, ev, k)
  {
    hide ViewAt, Desired;
  }

  lemma ReplacedOneActs(cfg: Config, remote: Remote, pre: State, out: Out,
                        events: seq<Event>, i: nat, again: seq<Event>, after: seq<Event>)
    requires Orderly(cfg, remote, pre, events) && Replaces(events, i, out.spawned, again, after) && Polite(events, i)
    requires Local(cfg, remote, pre, events[i], out)
    ensures OneActs(after)
  {
    hide ViewAt, Covers, Covered, InSync, AllBase, Apt, Expected, AllHonest, Writes;
    var rest := events[..i] + events[i + 1..];
    forall a, b, k | 0 <= a < b < |after| && Acts(after[a]) && Acts(after[b])
      ensures !(About(after[a], k) && About(after[b], k))
    {
      QueueOrigin(rest, out.spawned, again, events, i, a);
      QueueOrigin(rest, out.spawned, again, events, i, b);
      if after[a] !in again && after[b] !in again {
        if a < |rest| && b < |rest| {
          var ja, jb := if a < i then a else a + 1, if b < i then b else b + 1;
          assert !(About(events[ja], k) && About(events[jb], k));
        } else if a < |rest| {
          var ja := if a < i then a else a + 1;
          assert About(out.spawned[b - |rest|], k) ==> Decides(events[i]) && About(events[i], k);
          assert Decides(events[i]) ==> !(Acts(events[ja]) && events[ja].key == events[i].key);
        } else {
          assert !(About(out.spawned[a - |rest|], k) && About(out.spawned[b - |rest|], k));
        }
      }
    }
  }

  lemma ReplacedProgress(cfg: Config, remote: Remote, pre: State, out: Out,
                         events: seq<Event>, i: nat, again: seq<Event>, after: seq<Event>, k: Key)
    requires Orderly(cfg, remote, pre, events) && Progress(cfg, remote, pre, events)
    requires Replaces(events, i, out.spawned, again, after) && Local(cfg, remote, pre, events[i], out)
    ensures InSync(cfg, remote, out.st, k) || Covered(cfg, remote, out.st, after, k)
  {
    hide ViewAt, Covers, InSync, AllBase, About, Apt, Acts, Expected, OneActs, AllHonest, Writes;
    var rest := events[..i] + events[i + 1..];
    if Covers(cfg, remote, pre, events[i], k) {
      if Covered(cfg, remote, out.st, out.spawned, k) {
        var j :| 0 <= j < |out.spawned| && Covers(cfg, remote, out.st, out.spawned[j], k);
        assert after[|rest| + j] == out.spawned[j];
      }
    } else {
      assert !Writes(remote, events[i], k) by { WritingCovers(cfg, remote, pre, events, i, k); }
      if InSync(cfg, remote, pre, k) {
        InSyncDependsOnView(cfg, remote, pre, out.st, k);
      } else {
        var j :| 0 <= j < |events| && Covers(cfg, remote, pre, events[j], k);
        CoversDependsOnView(cfg, remote, pre, out.st, events[j], k);
        assert after[if j < i then j else j - 1] == events[j];
      }
    }
  }

  lemma WritingCovers(cfg: Config, remote: Remote, st: State, events: seq<Event>, i: nat, k: Key)
    requires Orderly(cfg, remote, st, events) && i < |events|
    ensures Writes(remote, events[i], k) ==> Covers(cfg, remote, st, events[i], k)
  {
    hide ViewAt, Desired, OneActs;
    if About(events[i], k) { assert Apt(cfg, remote, st, events[i], k); }
  }

  /** The clock is no part of what is tracked. */
  lemma ClockIsNotTracked(cfg: Config, remote: Remote, st: State, now: nat, events: seq<Event>)
    requires AllBase(cfg, remote, st) && Orderly(cfg, remote, st, events) && Progress(cfg, remote, st, events)
    ensures var st' := st.(now := now);
            AllBase(cfg, remote, st') && Orderly(cfg, remote, st', events) && Progress(cfg, remote, st', events)
    ensures AllHonest(cfg, st) ==> AllHonest(cfg, st.(now := now))
  {
    hide Base, Covers, InSync, About, Apt, Expected, Covered, OneActs;
    var st' := st.(now := now);
    forall k
      ensures Base(cfg, remote, st', k)
      ensures InSync(cfg, remote, st', k) || Covered(cfg, remote, st', events, k)
      ensures AllHonest(cfg, st) ==> Honest(cfg, st', k)
    {
      assert ViewAt(cfg, st', k) == ViewAt(cfg, st, k);
      BaseDependsOnView(cfg, remote, st, st', k);
      if InSync(cfg, remote, st, k) {
        InSyncDependsOnView(cfg, remote, st, st', k);
      } else {
        SameCover(cfg, remote, st, st', events, k);
      }
      assert AllHonest(cfg, st) ==> Honest(cfg, st, k);
    }
    forall i, k | 0 <= i < |events| && About(events[i], k) ensures Apt(cfg, remote, st', events[i], k) {
      assert Apt(cfg, remote, st, events[i], k);
      assert ViewAt(cfg, st', k) == ViewAt(cfg, st, k);
      CoversDependsOnView(cfg, remote, st, st', events[i], k);
    }
  }

  lemma SameCover(cfg: Config, remote: Remote, pre: State, post: State, events: seq<Event>, k: Key)
    requires Covered(cfg, remote, pre, events, k) && ViewAt(cfg, post, k) == ViewAt(cfg, pre, k)
    ensures Covered(cfg, remote, post, events, k)
  {
    hide ViewAt, Covers;
    var i :| 0 <= i < |events| && Covers(cfg, remote, pre, events[i], k);
    CoversDependsOnView(cfg, remote, pre, post, events[i], k);
  }

  lemma EventsAfter(cfg: Config, sys: System, i: nat, env: Env, out: Out)
    requires i < |sys.queue| && out == Handle(cfg, sys.remote, env, sys.st, sys.queue[i].event)
    requires out.outcome == Retry ==> Neutral(out.event)
    ensures Replaces(Events(sys.queue), i, out.spawned, Events(Requeued(cfg, sys.queue[i], out)),
                     Events(Step(cfg, sys, i, env).queue))
  {
    hide Handle;
    var after := Events(Step(cfg, sys, i, env).queue);
    var again := Events(Requeued(cfg, sys.queue[i], out));
    var events := Events(sys.queue);
    assert after == events[..i] + events[i + 1..] + out.spawned + again;
  }

  /** Handling the i-th event: nothing fails, and nothing that the queue relies on is decided anew. */
  ghost predicate Welcome(cfg: Config, sys: System, i: nat, env: Env) {
    i < |sys.queue| && Smooth(cfg, env, sys.queue[i].event) && Polite(Events(sys.queue), i)
  }

  lemma StepTracks(cfg: Config, sys: System, i: nat, env: Env)
    requires Tracking(cfg, sys) && Welcome(cfg, sys, i, env) && !FederatedLike(cfg.link.cluster)
    ensures Tracking(cfg, Step(cfg, sys, i, env))
    ensures AllHonest(cfg, sys.st) && NeverCollects(sys) ==>
              AllHonest(cfg, Step(cfg, sys, i, env).st) && NeverCollects(Step(cfg, sys, i, env))
  {
    hide Handle, Consistent, Orderly, Progress, AllBase, Succeeds, Routable, Local, RemoteOk, Replaces, FederatedLike;
    hide Neutral, Fresh, Drop, Polite, AllHonest, NeverCollects;
    var events := Events(sys.queue);
    var item := sys.queue[i];
    var out := Handle(cfg, sys.remote, env, sys.st, item.event);
    OrderlyAt(cfg, sys.remote, sys.st, events, i);
    HandleLocal(cfg, sys.remote, env, sys.st, item.event);
    LocalParts(cfg, sys.remote, sys.st, item.event, out);
    EventsAfter(cfg, sys, i, env, out);
    var after := Events(Step(cfg, sys, i, env).queue);
    var again := Events(Requeued(cfg, item, out));
    ReplacedOrderly(cfg, sys.remote, sys.st, out, events, i, again, after);
    forall k ensures InSync(cfg, sys.remote, out.st, k) || Covered(cfg, sys.remote, out.st, after, k) {
      ReplacedProgress(cfg, sys.remote, sys.st, out, events, i, again, after, k);
    }
    ProgressFrom(cfg, sys.remote, out.st, after);
    ClockIsNotTracked(cfg, sys.remote, out.st, sys.st.now + 1, after);
    if NeverCollects(sys) { ReplacedCollects(cfg, sys, i, env, out); }
    assert Consistent(cfg, Step(cfg, sys, i, env)) by {
      SuccessIsValid(env);
      StepConsistent(cfg, sys, i, env);
    }
  }

  /** No collection is queued. */
  predicate NeverCollects(sys: System) {
    forall i :: 0 <= i < |sys.queue| ==> !sys.queue[i].event.GcTriggered?
  }

  lemma ReplacedCollects(cfg: Config, sys: System, i: nat, env: Env, out: Out)
    requires i < |sys.queue| && NeverCollects(sys) && out == Handle(cfg, sys.remote, env, sys.st, sys.queue[i].event)
    requires out.outcome == Retry ==> Neutral(out.event)
    requires forall j :: 0 <= j < |out.spawned| ==> !out.spawned[j].GcTriggered?
    ensures NeverCollects(Step(cfg, sys, i, env)) && !sys.queue[i].event.GcTriggered?
  {
    hide Handle;
    var next := Step(cfg, sys, i, env).queue;
    forall l | 0 <= l < |next| ensures !next[l].event.GcTriggered? {
      if l < |sys.queue| - 1 {
        assert next[l] == sys.queue[if l < i then l else l + 1];
      } else if l < |sys.queue| - 1 + |out.spawned| {
        assert next[l].event == out.spawned[l - (|sys.queue| - 1)];
      }
    }
  }

  lemma OrderlyAt(cfg: Config, remote: Remote, st: State, events: seq<Event>, i: nat)
    requires Orderly(cfg, remote, st, events) && i < |events|
    ensures Expected(events[i]) && forall k :: About(events[i], k) ==> Apt(cfg, remote, st, events[i], k)
  {
    hide Apt, About, OneActs;
  }

  lemma LocalParts(cfg: Config, remote: Remote, pre: State, ev: Event, out: Out)
    requires Local(cfg, remote, pre, ev, out)
    ensures (out.outcome == Retry ==> Neutral(out.event)) && AllBase(cfg, remote, out.st)
    ensures forall i :: 0 <= i < |out.spawned| ==> !out.spawned[i].GcTriggered?
    ensures AllHonest(cfg, pre) && !ev.GcTriggered? ==> AllHonest(cfg, out.st)
  {
    hide AllBase, Covered, Covers, InSync, ViewAt, About, AllHonest, Writes, Orderly;
  }

  lemma ProgressFrom(cfg: Config, remote: Remote, st: State, events: seq<Event>)
    requires forall k :: InSync(cfg, remote, st, k) || Covered(cfg, remote, st, events, k)
    ensures Progress(cfg, remote, st, events)
  {
    hide InSync, Covered;
  }

  lemma SuccessIsValid(env: Env)
    requires Succeeds(env)
    ensures ValidEnv(env)
  {
  }

  /* ---------- inputs ---------- */

  /** Changes of the remote services, with their endpoints as they then are; namespaces appearing locally; and the
      watcher starting again, with `services` in the remote cluster and `events` from its first look around. */
  datatype Input =
    | RemoteAdd(key: Key, svc: Service)
    | RemoteUpdate(key: Key, svc: Service)
    | RemoteDelete(key: Key)
    | NamespaceAppears(ns: string)
    | Restart(services: map<Key, Service>, events: seq<Event>)

  predicate Quiet(sys: System, k: Key) {
    forall i :: 0 <= i < |sys.queue| ==> !About(sys.queue[i].event, k)
  }

  predicate Collecting(sys: System) {
    exists i :: 0 <= i < |sys.queue| && sys.queue[i].event.GcTriggered?
  }

  /** What a starting watcher queues: the collection, every remote service in any order, and any namespaces. */
  predicate Initial(services: map<Key, Service>, events: seq<Event>) {
    && (forall i :: 0 <= i < |events| ==>
          || events[i].GcTriggered? || events[i].NamespaceAdded?
          || (events[i].OnAdd? && events[i].key in services && events[i].svc == services[events[i].key]))
    && GcTriggered in events
    && (forall k :: k in services ==> OnAdd(k, services[k]) in events)
  }

  /** None of the services is headless; one of them changes only while no event about it is queued, and never
      without a new version. Versions are otherwise arbitrary: the first services come in any order, and an
      unchanged one may be reported again. Where mirrors outlive what is known of the remote cluster, no version
      that they record has been reused. */
  predicate Possible(cfg: Config, sys: System, input: Input) {
    match input
    case RemoteAdd(k, svc) =>
      && k !in sys.remote.services && !Headless(svc) && Quiet(sys, k)
      && (Collecting(sys) ==> Unreused(cfg, k, svc, ViewAt(cfg, sys.st, k)))
    case RemoteUpdate(k, svc) =>
      && k in sys.remote.services && !Headless(svc) && Quiet(sys, k)
      && (svc.version == sys.remote.services[k].version ==> svc == sys.remote.services[k])
    case RemoteDelete(k) => k in sys.remote.services && Quiet(sys, k)
    case NamespaceAppears(_) => true
    case Restart(services, events) =>
      && Initial(services, events)
      && forall k :: k in services ==> !Headless(services[k]) && Unreused(cfg, k, services[k], ViewAt(cfg, sys.st, k))
  }

  function Receive(sys: System, input: Input, endpoints: map<Key, Endpoints>): System
    requires input.RemoteDelete? ==> input.key in sys.remote.services
  {
    match input
    case RemoteAdd(k, svc) => Enqueue(sys.(remote := Remote(sys.remote.services[k := svc], endpoints)), OnAdd(k, svc))
    case RemoteUpdate(k, svc) =>
      Enqueue(sys.(remote := Remote(sys.remote.services[k := svc], endpoints)), OnUpdate(k, svc))
    case RemoteDelete(k) =>
      Enqueue(sys.(remote := Remote(sys.remote.services - {k}, endpoints)), OnDelete(k, sys.remote.services[k]))
    case NamespaceAppears(ns) =>
      Enqueue(sys.(remote := sys.remote.(endpoints := endpoints),
                   st := sys.st.(namespaces := sys.st.namespaces + {ns})),
              NamespaceAdded(ns))
    case Restart(services, events) =>
      System(Remote(services, endpoints), sys.st.(gatewayAlive := true), Fresh(events, sys.nextId),
             sys.nextId + |events|)
  }

  /** Without an event about it, a service is in sync or is not mirrored yet, unless collecting will see to it. */
  lemma QuietView(cfg: Config, sys: System, k: Key)
    requires Progress(cfg, sys.remote, sys.st, Events(sys.queue)) && Quiet(sys, k)
    ensures || InSync(cfg, sys.remote, sys.st, k)
            || ViewAt(cfg, sys.st, k).svc.None?
            || (k !in sys.remote.services && Collecting(sys))
  {
    hide ViewAt, Desired, InSync;
    if !InSync(cfg, sys.remote, sys.st, k) {
      var i :| 0 <= i < |sys.queue| && Covers(cfg, sys.remote, sys.st, Events(sys.queue)[i], k);
      assert !About(sys.queue[i].event, k);
    }
  }

  /** A mirror in sync records the current version, so a version that it records is the current one. */
  lemma InSyncIsUnreused(cfg: Config, remote: Remote, st: State, k: Key, svc: Service)
    requires k in remote.services && (InSync(cfg, remote, st, k) || ViewAt(cfg, st, k).svc.None?)
    requires svc.version == remote.services[k].version ==> svc == remote.services[k]
    ensures Unreused(cfg, k, svc, ViewAt(cfg, st, k))
  {
    hide ViewAt, MirrorLabels, MirrorAnnotations, RemapPorts, Desired, IsRemoteDiscovery, FormatNat;
    var v := ViewAt(cfg, st, k);
    if v.svc.Some? && Records(v.svc.value, svc.version) {
      RecordedVersion(cfg.link, k, remote.services[k]);
      FormatNatInjective(svc.version, remote.services[k].version);
    }
  }

  /** The one event that an input other than a restart queues. */
  function Report(sys: System, input: Input): Event
    requires input.RemoteDelete? ==> input.key in sys.remote.services
    requires !input.Restart?
  {
    match input
    case RemoteAdd(k, svc) => OnAdd(k, svc)
    case RemoteUpdate(k, svc) => OnUpdate(k, svc)
    case RemoteDelete(k) => OnDelete(k, sys.remote.services[k])
    case NamespaceAppears(ns) => NamespaceAdded(ns)
  }

  lemma ReportIsLast(sys: System, input: Input, endpoints: map<Key, Endpoints>)
    requires input.RemoteDelete? ==> input.key in sys.remote.services
    requires !input.Restart?
    ensures Events(Receive(sys, input, endpoints).queue) == Events(sys.queue) + [Report(sys, input)]
  {
  }

  /** What the input says of the service it is about: the objects stay what they should be, and it is reported. */
  lemma ReportedService(cfg: Config, sys: System, input: Input, endpoints: map<Key, Endpoints>)
    requires Tracking(cfg, sys) && Possible(cfg, sys, input)
    requires input.RemoteAdd? || input.RemoteUpdate? || input.RemoteDelete?
    ensures var after := Receive(sys, input, endpoints); var k := input.key;
            && Base(cfg, after.remote, after.st, k)
            && Apt(cfg, after.remote, after.st, Report(sys, input), k)
            && Covers(cfg, after.remote, after.st, Report(sys, input), k)
  {
    hide Consistent, Orderly, Progress, RemoteOk, Reflects, Claimed, Desired, Headless, MirrorKey, Reported, Records;
    hide Collecting, Quiet;
    var k := input.key;
    assert Base(cfg, sys.remote, sys.st, k);
    QuietView(cfg, sys, k);
    if input.RemoteUpdate? {
      InSyncIsUnreused(cfg, sys.remote, sys.st, k, input.svc);
    } else if input.RemoteDelete? && ViewAt(cfg, sys.st, k).svc.Some? {
      assert Wanted(cfg, sys.remote, sys.st, k);
    }
  }

  /** The services an input is not about. */
  lemma OtherService(cfg: Config, sys: System, input: Input, endpoints: map<Key, Endpoints>, j: Key)
    requires Tracking(cfg, sys) && Possible(cfg, sys, input) && !input.Restart?
    requires input.NamespaceAppears? || j != input.key
    ensures var after := Receive(sys, input, endpoints); var ev := Report(sys, input);
            && Base(cfg, after.remote, after.st, j)
            && (forall e :: Apt(cfg, sys.remote, sys.st, e, j) ==> Apt(cfg, after.remote, after.st, e, j))
            && (InSync(cfg, after.remote, after.st, j) || Covers(cfg, after.remote, after.st, ev, j)
                || Covered(cfg, after.remote, after.st, Events(sys.queue), j))
  {
    hide Consistent, Orderly, RemoteOk, Reflects, Claimed, Unreused, Desired, Headless, MirrorKey, Reported;
    var after := Receive(sys, input, endpoints);
    assert Base(cfg, sys.remote, sys.st, j);
    assert ViewAt(cfg, after.st, j) == ViewAt(cfg, sys.st, j);
    assert j in after.remote.services <==> j in sys.remote.services;
    assert j in sys.remote.services ==> after.remote.services[j] == sys.remote.services[j];
    if !InSync(cfg, sys.remote, sys.st, j) {
      var i :| 0 <= i < |sys.queue| && Covers(cfg, sys.remote, sys.st, Events(sys.queue)[i], j);
      assert Covers(cfg, after.remote, after.st, Events(sys.queue)[i], j);
    }
  }

  lemma ReceiveConsistent(cfg: Config, sys: System, input: Input, endpoints: map<Key, Endpoints>)
    requires Consistent(cfg, sys) && Possible(cfg, sys, input) && RemoteOk(sys.remote)
    ensures Consistent(cfg, Receive(sys, input, endpoints))
    ensures RemoteOk(Receive(sys, input, endpoints).remote)
    ensures AllHonest(cfg, sys.st) ==> AllHonest(cfg, Receive(sys, input, endpoints).st)
  {
    hide Shaped, Headless, Unreused, MirrorKey, Reported;
    var after := Receive(sys, input, endpoints);
    forall k | AllHonest(cfg, sys.st) ensures Honest(cfg, after.st, k) {
      assert Honest(cfg, sys.st, k);
    }
  }

  lemma ReportTracks(cfg: Config, sys: System, input: Input, endpoints: map<Key, Endpoints>)
    requires Tracking(cfg, sys) && Possible(cfg, sys, input) && !input.Restart?
    ensures Tracking(cfg, Receive(sys, input, endpoints))
  {
    hide Base, Covers, InSync, Receive, Consistent, RemoteOk, ViewAt, About, Apt, Acts, Expected, Report, Unreused;
    hide Collecting, Headless;
    var after := Receive(sys, input, endpoints);
    var ev := Report(sys, input);
    var events, events' := Events(sys.queue), Events(after.queue);
    ReceiveConsistent(cfg, sys, input, endpoints);
    ReportIsLast(sys, input, endpoints);
    ReportFacts(cfg, sys, input);
    forall k
      ensures Base(cfg, after.remote, after.st, k)
      ensures InSync(cfg, after.remote, after.st, k) || Covered(cfg, after.remote, after.st, events', k)
    {
      assert events'[|events|] == ev;
      if !input.NamespaceAppears? && k == input.key {
        ReportedService(cfg, sys, input, endpoints);
      } else {
        OtherService(cfg, sys, input, endpoints, k);
        CoverageGrows(cfg, after.remote, after.st, events, ev, k);
      }
    }
    forall i, k | 0 <= i < |events'| && About(events'[i], k) ensures Apt(cfg, after.remote, after.st, events'[i], k) {
      assert i < |events| ==> events'[i] == sys.queue[i].event;
      if !input.NamespaceAppears? && k == input.key {
        ReportedService(cfg, sys, input, endpoints);
      } else {
        assert i < |events| && events'[i] == events[i];
        OtherService(cfg, sys, input, endpoints, k);
      }
    }
    forall i | 0 <= i < |events'| ensures Expected(events'[i]) {
      assert i < |events| ==> events'[i] == events[i];
    }
    assert OneActs(events') by { assert OneActs(events) && !Acts(ev); }
  }

  lemma CoverageGrows(cfg: Config, remote: Remote, st: State, events: seq<Event>, ev: Event, k: Key)
    ensures Covered(cfg, remote, st, events, k) ==> Covered(cfg, remote, st, events + [ev], k)
  {
    hide Covers;
    if Covered(cfg, remote, st, events, k) {
      var i :| 0 <= i < |events| && Covers(cfg, remote, st, events[i], k);
      assert (events + [ev])[i] == events[i];
    }
  }

  lemma ReportFacts(cfg: Config, sys: System, input: Input)
    requires Possible(cfg, sys, input) && !input.Restart?
    ensures Expected(Report(sys, input)) && !Acts(Report(sys, input))
    ensures forall k :: About(Report(sys, input), k) ==> !input.NamespaceAppears? && k == input.key
    ensures !input.NamespaceAppears? ==> Quiet(sys, input.key)
  {
    hide Unreused, Headless, Collecting, Quiet;
  }

  /** A watcher that starts, whatever it left unfinished: it is enough that every object under a mirror name is a
      mirror of the link with its namespace, and that no version that a mirror records has been reused. */
  lemma RestartTracks(cfg: Config, sys: System, services: map<Key, Service>, events: seq<Event>,
                      endpoints: map<Key, Endpoints>)
    requires ShapeOk(cfg, sys.st) && forall n :: n in sys.st.services ==> sys.st.services[n].version < sys.st.now
    requires Possible(cfg, sys, Restart(services, events)) && AllBase(cfg, Remote(map[], map[]), sys.st)
    ensures Tracking(cfg, Receive(sys, Restart(services, events), endpoints))
  {
    hide Shaped, Unreused, Headless, Base, Covered, Orderly, ViewAt;
    var after := Receive(sys, Restart(services, events), endpoints);
    assert Events(after.queue) == events;
    InitialOrderly(cfg, after.remote, after.st, events);
    forall k
      ensures Base(cfg, after.remote, after.st, k)
      ensures Covered(cfg, after.remote, after.st, events, k)
    {
      assert Base(cfg, Remote(map[], map[]), sys.st, k);
      StartedAt(cfg, sys.st, after.remote, events, k);
    }
  }

  lemma InitialOrderly(cfg: Config, remote: Remote, st: State, events: seq<Event>)
    requires Initial(remote.services, events)
    ensures Orderly(cfg, remote, st, events)
  {
    hide ViewAt, Desired;
  }

  lemma StartedAt(cfg: Config, st: State, remote: Remote, events: seq<Event>, k: Key)
    requires Base(cfg, Remote(map[], map[]), st, k) && Initial(remote.services, events)
    requires k in remote.services ==> Unreused(cfg, k, remote.services[k], ViewAt(cfg, st, k))
    ensures Base(cfg, remote, st.(gatewayAlive := true), k)
    ensures Covered(cfg, remote, st.(gatewayAlive := true), events, k)
  {
    hide Unreused, Claimed, MirrorKey, Reported, Desired;
    var post := st.(gatewayAlive := true);
    assert ViewAt(cfg, post, k) == ViewAt(cfg, st, k);
    var ev := if k in remote.services then OnAdd(k, remote.services[k]) else GcTriggered;
    var i :| 0 <= i < |events| && events[i] == ev;
    assert Covers(cfg, remote, post, events[i], k);
  }

  lemma ReceiveTracks(cfg: Config, sys: System, input: Input, endpoints: map<Key, Endpoints>)
    requires Tracking(cfg, sys) && Possible(cfg, sys, input)
    ensures Tracking(cfg, Receive(sys, input, endpoints))
    ensures AllHonest(cfg, sys.st) ==> AllHonest(cfg, Receive(sys, input, endpoints).st)
  {
    hide Possible, Receive, Orderly, Progress, RemoteOk, Shaped, AllHonest;
    ReceiveConsistent(cfg, sys, input, endpoints);
    if input.Restart? {
      forall k ensures Base(cfg, Remote(map[], map[]), sys.st, k) {
        assert Base(cfg, sys.remote, sys.st, k);
      }
      RestartTracks(cfg, sys, input.services, input.events, endpoints);
    } else {
      ReportTracks(cfg, sys, input, endpoints);
    }
  }

  /* ---------- runs ---------- */

  /** An input arrives, or a queued event is handled. */
  datatype Action =
    | Accept(input: Input, endpoints: map<Key, Endpoints>)
    | Perform(choice: Choice)

  ghost predicate Suits(cfg: Config, sys: System, action: Action) {
    match action
    case Accept(input, _) => Possible(cfg, sys, input)
    case Perform(choice) => Welcome(cfg, sys, choice.index, choice.env)
  }

  function Apply(cfg: Config, sys: System, action: Action): System
    requires action.Accept? && action.input.RemoteDelete? ==> action.input.key in sys.remote.services
    requires action.Perform? ==> action.choice.index < |sys.queue|
  {
    match action
    case Accept(input, endpoints) => Receive(sys, input, endpoints)
    case Perform(choice) => Step(cfg, sys, choice.index, choice.env)
  }

  ghost predicate Proceeds(cfg: Config, sys: System, actions: seq<Action>)
    decreases |actions|
  {
    actions == [] || (Suits(cfg, sys, actions[0]) && Proceeds(cfg, Apply(cfg, sys, actions[0]), actions[1..]))
  }

  ghost function Reached(cfg: Config, sys: System, actions: seq<Action>): System
    requires Proceeds(cfg, sys, actions)
    decreases |actions|
  {
    if actions == [] then sys else Reached(cfg, Apply(cfg, sys, actions[0]), actions[1..])
  }

  lemma ActionTracks(cfg: Config, sys: System, action: Action)
    requires Tracking(cfg, sys) && Suits(cfg, sys, action) && !FederatedLike(cfg.link.cluster)
    ensures Tracking(cfg, Apply(cfg, sys, action))
    ensures NeverCollects(sys) && AllHonest(cfg, sys.st) && !(action.Accept? && action.input.Restart?) ==>
              NeverCollects(Apply(cfg, sys, action)) && AllHonest(cfg, Apply(cfg, sys, action).st)
  {
    hide Tracking, Possible, FederatedLike, AllHonest, Smooth, Polite, Step, Receive;
    match action
    case Accept(input, endpoints) =>
      ReceiveTracks(cfg, sys, input, endpoints);
      if !input.Restart? { ReportStays(cfg, sys, input, endpoints); }
    case Perform(choice) =>
      StepTracks(cfg, sys, choice.index, choice.env);
  }

  lemma ReportStays(cfg: Config, sys: System, input: Input, endpoints: map<Key, Endpoints>)
    requires Possible(cfg, sys, input) && !input.Restart?
    ensures NeverCollects(sys) ==> NeverCollects(Receive(sys, input, endpoints))
  {
    hide Unreused, Headless, Quiet;
  }

  lemma {:induction false} RunTracks(cfg: Config, sys: System, actions: seq<Action>)
    requires Tracking(cfg, sys) && Proceeds(cfg, sys, actions) && !FederatedLike(cfg.link.cluster)
    ensures Tracking(cfg, Reached(cfg, sys, actions))
    ensures NeverCollects(sys) && AllHonest(cfg, sys.st) && !Restarts(actions) ==>
              AllHonest(cfg, Reached(cfg, sys, actions).st)
    decreases |actions|
  {
    hide Tracking, Apply, FederatedLike, AllHonest, NeverCollects, Smooth, Polite, Initial, Unreused, Quiet, Headless;
    if actions != [] {
      ActionTracks(cfg, sys, actions[0]);
      RunTracks(cfg, Apply(cfg, sys, actions[0]), actions[1..]);
      assert !Restarts(actions) ==> !Restarts(actions[1..]) by {
        assert forall i :: 0 <= i < |actions| - 1 ==> actions[1..][i] == actions[i + 1];
      }
      assert Restarts(actions) || !(actions[0].Accept? && actions[0].input.Restart?);
    }
  }

  predicate Restarts(actions: seq<Action>) {
    exists i :: 0 <= i < |actions| && actions[i].Accept? && actions[i].input.Restart?
  }

  /* ---------- draining ---------- */

  /** Every event of the trace is welcome when it is handled. */
  ghost predicate AllWelcome(cfg: Config, sys: System, trace: seq<Choice>)
    requires Follows(cfg, sys, trace)
    decreases |trace|
  {
    trace == [] ||
    (Welcome(cfg, sys, trace[0].index, trace[0].env) &&
     AllWelcome(cfg, Step(cfg, sys, trace[0].index, trace[0].env), trace[1..]))
  }

  lemma {:induction false} DrainTracks(cfg: Config, sys: System, trace: seq<Choice>)
    requires Tracking(cfg, sys) && Follows(cfg, sys, trace) && !FederatedLike(cfg.link.cluster)
    requires AllWelcome(cfg, sys, trace)
    ensures Tracking(cfg, Run(cfg, sys, trace))
    decreases |trace|
  {
    hide Tracking, Welcome, Step, FederatedLike;
    if trace != [] {
      StepTracks(cfg, sys, trace[0].index, trace[0].env);
      DrainTracks(cfg, Step(cfg, sys, trace[0].index, trace[0].env), trace[1..]);
    }
  }

  predicate DiscoveryOnly(cfg: Config, remote: Remote) {
    forall k :: k in remote.services ==> IsRemoteDiscovery(cfg.link, remote.services[k].labels)
  }

  /** Some event may always be handled: one that relies on how a mirror was found, if there is one. */
  lemma SomeTurn(events: seq<Event>) returns (i: nat)
    requires events != []
    ensures i < |events| && Polite(events, i)
  {
    i := 0;
    if j :| 0 <= j < |events| && Acts(events[j]) {
      i := j;
    }
  }

  /** Whatever is queued, handling it with calls that succeed empties the queue. A gateway is not needed while
      all remote services are in discovery mode. */
  lemma {:induction false} DrainExists(cfg: Config, sys: System, env: Env) returns (trace: seq<Choice>)
    requires Succeeds(env)
    requires Resolves(cfg, env)
             || (Tracking(cfg, sys) && DiscoveryOnly(cfg, sys.remote) && !FederatedLike(cfg.link.cluster))
    ensures Follows(cfg, sys, trace) && AllWelcome(cfg, sys, trace) && Run(cfg, sys, trace).queue == []
    decreases Potential(cfg, sys.remote, sys.queue)
  {
    hide Step, Potential, Resolves, Tracking, FederatedLike, DiscoveryOnly, Succeeds, Polite;
    trace := [];
    if sys.queue != [] {
      SuccessIsValid(env);
      var i := SomeTurn(Events(sys.queue));
      StepUsesPotential(cfg, sys, i, env);
      var next := Step(cfg, sys, i, env);
      assert next.remote == sys.remote by { StepKeepsRemote(cfg, sys, i, env); }
      if !Resolves(cfg, env) {
        NeedsNoGateway(cfg, sys, env, i);
        StepTracks(cfg, sys, i, env);
      }
      var rest := DrainExists(cfg, next, env);
      trace := [Choice(i, env)] + rest;
      assert trace[1..] == rest;
    }
  }

  lemma NeedsNoGateway(cfg: Config, sys: System, env: Env, i: nat)
    requires Succeeds(env) && Tracking(cfg, sys) && DiscoveryOnly(cfg, sys.remote) && i < |sys.queue|
    ensures Smooth(cfg, env, sys.queue[i].event)
  {
    hide Succeeds, Resolves, Consistent, Progress, AllBase, RemoteOk, Orderly, IsRemoteDiscovery, ViewAt;
    var ev := sys.queue[i].event;
    OrderlyAt(cfg, sys.remote, sys.st, Events(sys.queue), i);
    if ev.Exported? || ev.Updated? {
      assert About(ev, ev.key);
    }
  }

  lemma StepKeepsRemote(cfg: Config, sys: System, i: nat, env: Env)
    requires i < |sys.queue|
    ensures Step(cfg, sys, i, env).remote == sys.remote
  {
    hide Handle;
  }

  /* ---------- what it comes to ---------- */

  /** Before anything was mirrored: nothing stored or reported under this link's names. */
  ghost predicate Untouched(cfg: Config, sys: System) {
    && sys.queue == [] && sys.remote.services == map[]
    && (forall n :: n in sys.st.services ==> !MirrorNamed(cfg, n) && !OfLink(cfg.link, sys.st.services[n].labels))
    && (forall n :: n in sys.st.endpoints ==> !MirrorNamed(cfg, n))
    && (forall k :: !Reported(sys.st.mirrorStatus, k))
    && (forall n :: n in sys.st.services ==> sys.st.services[n].version < sys.st.now)
  }

  lemma UntouchedTracks(cfg: Config, sys: System)
    requires Untouched(cfg, sys)
    ensures Tracking(cfg, sys) && AllHonest(cfg, sys.st) && NeverCollects(sys)
  {
    hide Reflects, OfLink, Headless, Desired, Reported, Records, MirrorNamed, Represents, MirrorLabels;
    forall k ensures Base(cfg, sys.remote, sys.st, k) && InSync(cfg, sys.remote, sys.st, k) && Honest(cfg, sys.st, k) {
      MirrorIsShaped(cfg, k, map[]);
    }
  }

  /** The link's mirrors are the image of the wanted services. */
  ghost predicate MirrorsExactly(cfg: Config, sys: System) {
    && (forall n :: n in sys.st.services && OfLink(cfg.link, sys.st.services[n].labels) ==>
          exists k :: n == MirrorKey(cfg.link, k) && Wanted(cfg, sys.remote, sys.st, k))
    && (forall k :: Wanted(cfg, sys.remote, sys.st, k) ==>
          var v := ViewAt(cfg, sys.st, k);
          Reflects(cfg, k, sys.remote.services[k], v) && OfLink(cfg.link, v.svc.value.labels))
    && (forall k :: !Wanted(cfg, sys.remote, sys.st, k) ==>
          MirrorKey(cfg.link, k) !in sys.st.services && MirrorKey(cfg.link, k) !in sys.st.endpoints)
  }

  /** The Link reports exactly the services that have a mirror. */
  ghost predicate StatusExactly(cfg: Config, sys: System) {
    forall k :: Reported(sys.st.mirrorStatus, k) <==> MirrorKey(cfg.link, k) in sys.st.services
  }

  /** The services that no queued event may still concern. */
  predicate Untroubled(sys: System, k: Key) {
    && Quiet(sys, k)
    && forall i :: 0 <= i < |sys.queue| ==>
         && (sys.queue[i].event.NamespaceAdded? ==> sys.queue[i].event.ns != k.ns)
         && (sys.queue[i].event.GcTriggered? ==> k in sys.remote.services)
  }

  lemma UntroubledInSync(cfg: Config, sys: System, k: Key)
    requires Tracking(cfg, sys) && Untroubled(sys, k)
    ensures InSync(cfg, sys.remote, sys.st, k) && Base(cfg, sys.remote, sys.st, k)
  {
    hide InSync, Base, Orderly, Consistent, ViewAt, Desired;
  }

  lemma DrainedMirrors(cfg: Config, sys: System)
    requires Tracking(cfg, sys) && sys.queue == []
    ensures MirrorsExactly(cfg, sys)
  {
    hide Orderly, Progress, AllBase, Reflects, OfLink, Desired, Headless, Records, Reported, MirrorNamed, Represents;
    hide MirrorKey, Unreused;
    forall k
      ensures InSync(cfg, sys.remote, sys.st, k) && Base(cfg, sys.remote, sys.st, k)
      ensures Wanted(cfg, sys.remote, sys.st, k) ==> ViewAt(cfg, sys.st, k).svc.Some?
    {
      UntroubledInSync(cfg, sys, k);
      if Wanted(cfg, sys.remote, sys.st, k) {
        ReflectsHasService(cfg, k, sys.remote.services[k], ViewAt(cfg, sys.st, k));
      }
    }
    forall n | n in sys.st.services && OfLink(cfg.link, sys.st.services[n].labels)
      ensures exists k :: n == MirrorKey(cfg.link, k) && Wanted(cfg, sys.remote, sys.st, k)
    {
      assert Shaped(cfg, n, sys.st.services[n].labels);
      MirrorOfOriginal(cfg, n);
      var k := OriginalKey(cfg.link, n);
      assert InSync(cfg, sys.remote, sys.st, k);
    }
  }

  lemma HonestStatus(cfg: Config, sys: System)
    requires AllHonest(cfg, sys.st) && cfg.link.cluster != ""
    ensures StatusExactly(cfg, sys)
  {
    hide Reported, MirrorKey;
    forall k ensures Reported(sys.st.mirrorStatus, k) <==> MirrorKey(cfg.link, k) in sys.st.services {
      assert Honest(cfg, sys.st, k);
    }
  }

  /** In every run that starts with no mirrors, in which nothing fails and inputs arrive at any time, except that a
      service changes only while no event about it is queued: each service that no queued event concerns is mirrored
      as its current remote version asks, or not at all where none is wanted. Once the queue is empty the link's
      mirrors are exactly the image of the wanted remote services, with endpoints exactly outside remote-discovery
      mode. Until a restart the status of a link to another cluster names exactly the services that have a mirror. */
  lemma MirrorRefinement(cfg: Config, sys: System, actions: seq<Action>)
    requires Untouched(cfg, sys) && Proceeds(cfg, sys, actions) && !FederatedLike(cfg.link.cluster)
    ensures var end := Reached(cfg, sys, actions);
            && (forall k :: Untroubled(end, k) ==> InSync(cfg, end.remote, end.st, k))
            && (end.queue == [] ==> MirrorsExactly(cfg, end))
            && (cfg.link.cluster != "" && !Restarts(actions) ==> StatusExactly(cfg, end))
  {
    hide Untouched, MirrorsExactly, StatusExactly, Proceeds, Reached, FederatedLike, AllHonest, NeverCollects, Restarts;
    hide Tracking, InSync, Untroubled;
    UntouchedTracks(cfg, sys);
    RunTracks(cfg, sys, actions);
    SettledFacts(cfg, Reached(cfg, sys, actions));
    if cfg.link.cluster != "" && !Restarts(actions) {
      HonestStatus(cfg, Reached(cfg, sys, actions));
    }
  }

  lemma SettledFacts(cfg: Config, sys: System)
    requires Tracking(cfg, sys)
    ensures forall k :: Untroubled(sys, k) ==> InSync(cfg, sys.remote, sys.st, k)
    ensures sys.queue == [] ==> MirrorsExactly(cfg, sys)
  {
    hide Tracking, InSync, Untroubled, MirrorsExactly;
    forall k | Untroubled(sys, k) ensures InSync(cfg, sys.remote, sys.st, k) {
      UntroubledInSync(cfg, sys, k);
    }
    if sys.queue == [] {
      DrainedMirrors(cfg, sys);
    }
  }

  /** The same from a start among mirrors that another run left: every object under a mirror name is one of the
      link's mirrors, in its namespace, and no version that a mirror records has been reused. */
  lemma RestartConverges(cfg: Config, sys: System, services: map<Key, Service>, events: seq<Event>,
                         endpoints: map<Key, Endpoints>, actions: seq<Action>)
    requires ShapeOk(cfg, sys.st) && forall n :: n in sys.st.services ==> sys.st.services[n].version < sys.st.now
    requires Possible(cfg, sys, Restart(services, events)) && AllBase(cfg, Remote(map[], map[]), sys.st)
    requires !FederatedLike(cfg.link.cluster)
    requires Proceeds(cfg, Receive(sys, Restart(services, events), endpoints), actions)
    ensures var end := Reached(cfg, Receive(sys, Restart(services, events), endpoints), actions);
            && (forall k :: Untroubled(end, k) ==> InSync(cfg, end.remote, end.st, k))
            && (end.queue == [] ==> MirrorsExactly(cfg, end))
  {
    hide MirrorsExactly, Proceeds, Reached, FederatedLike, Receive, ShapeOk, AllBase, Possible, Tracking, InSync;
    hide Untroubled;
    RestartTracks(cfg, sys, services, events, endpoints);
    RunTracks(cfg, Receive(sys, Restart(services, events), endpoints), actions);
    SettledFacts(cfg, Reached(cfg, Receive(sys, Restart(services, events), endpoints), actions));
  }

  /** A collection leaves the status alone, so afterwards it is exact only if there was nothing to collect. */
  lemma CollectionLeavesStatus(cfg: Config, remote: Remote, env: Env, st: State)
    requires Succeeds(env) && AllBase(cfg, remote, st) && AllHonest(cfg, st) && cfg.link.cluster != ""
    ensures AllHonest(cfg, HandleGc(cfg, remote, env, st).0) <==>
              forall k :: k !in remote.services ==> ViewAt(cfg, st, k).svc.None?
  {
    hide HandleGc, Base, Succeeds, ViewAt;
    var post := HandleGc(cfg, remote, env, st).0;
    forall k ensures Honest(cfg, post, k) <==> (k !in remote.services ==> ViewAt(cfg, st, k).svc.None?) {
      assert Base(cfg, remote, st, k) && Honest(cfg, st, k);
      CollectedView(cfg, remote, env, st, k);
    }
  }
}
