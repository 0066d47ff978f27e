/** Services that change again while their export, update or deletion is on its way. In the order of the queue that is
    harmless once the last report has been decided upon: what it queued is handled before the next report is. */
module Successive {
  import opened Strings
  import opened Kubernetes
  import opened Mirror
  import opened Api
  import opened Handlers
  import opened Effects
  import opened Machine
  import opened Liveness
  import opened Refinement
  import opened Drained
  import Overlaps
  import Enrolment
  import Overtaken

  type State = Api.State

  /* ---------- what is queued for one service ---------- */

  /** The event carries a decision on k out. */
  predicate Carries(ev: Event, k: Key) {
    (Acts(ev) || ev.Unexported?) && ev.key == k
  }

  /** What the queue may hold for k, in this order: one decision to carry out, one report, and a report of its
      namespace, which also comes before the first and never before a report that k is there. */
  predicate InLine(first: Event, second: Event, k: Key) {
    && !((Asks(first, k) || Carries(first, k)) && Carries(second, k))
    && !(Asks(first, k) && Asks(second, k))
    && !(ReportsNamespaceOf(first, k) && (DecidesOn(second, k) || ReportsNamespaceOf(second, k)))
  }

  /** A version stands for one content. */
  predicate Distinguished(remote: Remote, k: Key, svc: Service) {
    k in remote.services && remote.services[k].version == svc.version ==> remote.services[k] == svc
  }

  /** The mirror is still as it was found. The service itself may have changed since. */
  predicate Fit(cfg: Config, remote: Remote, st: State, ev: Event, k: Key)
    requires Acts(ev)
  {
    var v := ViewAt(cfg, st, k);
    && Desired(cfg.link, ev.svc.labels) && !Headless(ev.svc) && Distinguished(remote, k, ev.svc)
    && (if ev.Exported? then v.svc.None? else v.svc == Some(ev.local) && v.ep == ev.localEndpoints)
  }

  predicate Holds(cfg: Config, remote: Remote, st: State, ev: Event, k: Key) {
    && (Asks(ev, k) ==> Apt(cfg, remote, st, ev, k))
    && (Carries(ev, k) && Acts(ev) ==> Fit(cfg, remote, st, ev, k))
  }

  /** The decision still is what the remote service asks for. */
  predicate Current(cfg: Config, remote: Remote, ev: Event, k: Key) {
    if Acts(ev) then k in remote.services && ev.svc == remote.services[k]
    else !(k in remote.services && Desired(cfg.link, remote.services[k].labels))
  }

  /** A mirror that is about to be written will be found by a deletion, and not be collected before. */
  predicate Meets(cfg: Config, remote: Remote, a: Event, b: Event, k: Key) {
    Acts(a) && a.key == k ==>
      && (b.OnDelete? && b.key == k ==> Desired(cfg.link, b.svc.labels))
      && (b.GcTriggered? ==> k in remote.services)
  }

  predicate Asked(events: seq<Event>, k: Key) {
    exists j :: 0 <= j < |events| && Asks(events[j], k)
  }

  ghost predicate Lined(events: seq<Event>) {
    forall i, j, k :: 0 <= i < j < |events| ==> InLine(events[i], events[j], k)
  }

  ghost predicate AllHold(cfg: Config, remote: Remote, st: State, events: seq<Event>) {
    forall i, k :: 0 <= i < |events| ==> Holds(cfg, remote, st, events[i], k)
  }

  ghost predicate AllMeet(cfg: Config, remote: Remote, events: seq<Event>) {
    forall i, j, k :: 0 <= i < |events| && 0 <= j < |events| ==> Meets(cfg, remote, events[i], events[j], k)
  }

  /** A decision that is outdated is followed by a report. */
  ghost predicate AllFollowed(cfg: Config, remote: Remote, events: seq<Event>) {
    forall i, k :: 0 <= i < |events| && Carries(events[i], k) ==>
      Current(cfg, remote, events[i], k) || Asked(events, k)
  }

  ghost predicate AllExpected(events: seq<Event>) {
    forall i :: 0 <= i < |events| ==> Expected(events[i])
  }

  ghost predicate Lanes(cfg: Config, remote: Remote, st: State, events: seq<Event>) {
    && AllExpected(events) && Lined(events) && AllHold(cfg, remote, st, events)
    && AllMeet(cfg, remote, events) && AllFollowed(cfg, remote, events)
  }

  ghost predicate Flowing(cfg: Config, sys: System) {
    && Consistent(cfg, sys) && RemoteOk(sys.remote) && AllBase(cfg, sys.remote, sys.st)
    && Lanes(cfg, sys.remote, sys.st, Events(sys.queue))
    && Progress(cfg, sys.remote, sys.st, Events(sys.queue))
  }

  /* ---------- carrying a decision out ---------- */

  /** The outcome of an export, an update or an unexport of k. */
  ghost predicate CarriedOut(cfg: Config, remote: Remote, pre: State, ev: Event, k: Key, out: Out) {
    && out.outcome == Done && out.spawned == [] && OnlyAt(cfg, pre, out.st, k)
    && Base(cfg, remote, out.st, k) && Honest(cfg, out.st, k)
    && (Current(cfg, remote, ev, k) ==> InSync(cfg, remote, out.st, k))
    && (ev.Unexported? ==> ViewAt(cfg, out.st, k).svc.None?)
  }

  /** A mirror of a version that stands for one content satisfies everything asked of a mirror. */
  lemma ReflectionIsBase(cfg: Config, remote: Remote, st: State, k: Key, svc: Service)
    requires Reflects(cfg, k, svc, ViewAt(cfg, st, k)) && Desired(cfg.link, svc.labels) && k.ns in st.namespaces
    requires !Headless(ViewAt(cfg, st, k).svc.value) && Distinguished(remote, k, svc)
    ensures Base(cfg, remote, st, k)
    ensures k in remote.services && remote.services[k] == svc ==> InSync(cfg, remote, st, k)
  {
    hide ViewAt, MirrorLabels, MirrorAnnotations, RemapPorts, Desired, Headless, OfLink, IsRemoteDiscovery, FormatNat;
    var v := ViewAt(cfg, st, k);
    MirrorLabelFacts(cfg.link, k, svc.labels);
    RecordedVersion(cfg.link, k, svc);
    if k in remote.services && Records(v.svc.value, remote.services[k].version) {
      FormatNatInjective(svc.version, remote.services[k].version);
    }
  }

  lemma ExportCarriedOut(cfg: Config, remote: Remote, env: Env, st: State, k: Key, svc: Service)
    requires Succeeds(env) && Routable(cfg, env, svc) && Base(cfg, remote, st, k)
    requires Fit(cfg, remote, st, Exported(k, svc), k)
    ensures var ev := Exported(k, svc);
            CarriedOut(cfg, remote, st, ev, k, Plain(HandleExported(cfg, remote, env, st, k, svc), ev))
  {
    hide HandleExported, Routable, Succeeds, Reflects, Desired, Headless, OnlyAt, Claimed, Unreused, ViewAt;
    ExportSucceeds(cfg, remote, env, st, k, svc);
    var post := HandleExported(cfg, remote, env, st, k, svc).0;
    if cfg.namespaceCreation || k.ns in st.namespaces {
      ReflectsHasService(cfg, k, svc, ViewAt(cfg, post, k));
      ReflectionIsBase(cfg, remote, post, k, svc);
    } else {
      AbsentIsBase(cfg, remote, post, k);
      OnlyAtNamespaces(cfg, st, post, k);
    }
  }

  lemma UpdateCarriedOut(cfg: Config, remote: Remote, env: Env, st: State, ev: Event)
    requires ev.Updated? && Succeeds(env) && Routable(cfg, env, ev.svc) && Base(cfg, remote, st, ev.key)
    requires Fit(cfg, remote, st, ev, ev.key)
    ensures CarriedOut(cfg, remote, st, ev, ev.key, HandleUpdated(cfg, remote, env, st, ev))
  {
    hide HandleUpdated, Routable, Succeeds, Reflects, Desired, OnlyAt, Unreused, ViewAt, InSync, OfLink;
    var k := ev.key;
    UpdateSucceeds(cfg, remote, env, st, ev);
    var post := HandleUpdated(cfg, remote, env, st, ev).st;
    ReflectsHasService(cfg, k, ev.svc, ViewAt(cfg, post, k));
    ReflectionIsBase(cfg, remote, post, k, ev.svc);
  }

  lemma UnexportCarriedOut(cfg: Config, remote: Remote, env: Env, st: State, k: Key)
    requires Succeeds(env) && Base(cfg, remote, st, k)
    ensures var ev := Unexported(k);
            CarriedOut(cfg, remote, st, ev, k, Plain(HandleUnexported(cfg, env, st, k), ev))
  {
    hide HandleUnexported, Succeeds, Reflects, Desired, Headless, OnlyAt, Unreused, ViewAt, OfLink;
    UnexportSucceeds(cfg, env, st, k);
    AbsentIsBase(cfg, remote, HandleUnexported(cfg, env, st, k).0, k);
  }

  lemma HeadCarriedOut(cfg: Config, remote: Remote, env: Env, st: State, ev: Event, k: Key)
    requires Carries(ev, k) && Smooth(cfg, env, ev) && AllBase(cfg, remote, st) && Holds(cfg, remote, st, ev, k)
    ensures CarriedOut(cfg, remote, st, ev, k, Handle(cfg, remote, env, st, ev))
  {
    hide HandleExported, HandleUpdated, HandleUnexported, CarriedOut, Fit, Succeeds, Routable, Base;
    assert Base(cfg, remote, st, k);
    match ev
    case Exported(_, svc) => ExportCarriedOut(cfg, remote, env, st, k, svc);
    case Updated(_, _, _, _) => UpdateCarriedOut(cfg, remote, env, st, ev);
    case Unexported(_) => UnexportCarriedOut(cfg, remote, env, st, k);
  }

  /* ---------- the queue after a decision was carried out ---------- */

  lemma HoldsElsewhere(cfg: Config, remote: Remote, pre: State, post: State, ev: Event, k: Key)
    requires Holds(cfg, remote, pre, ev, k)
    requires Carries(ev, k) && Acts(ev) ==> ViewAt(cfg, post, k) == ViewAt(cfg, pre, k)
    ensures Holds(cfg, remote, post, ev, k)
  {
    hide ViewAt, Desired, Headless;
  }

  lemma RestOfLanes(cfg: Config, remote: Remote, st: State, events: seq<Event>)
    requires Lanes(cfg, remote, st, events) && events != []
    ensures AllExpected(events[1..]) && Lined(events[1..]) && AllHold(cfg, remote, st, events[1..])
    ensures AllMeet(cfg, remote, events[1..])
    ensures forall k :: Asks(events[0], k) || Carries(events[0], k) ==> NothingCarries(events[1..], k)
    ensures forall k :: Asks(events[0], k) ==> !Asked(events[1..], k)
  {
    hide InLine, Holds, Meets, Expected, Carries, Asks;
    var rest := events[1..];
    assert forall i :: 0 <= i < |rest| ==> rest[i] == events[i + 1];
    forall k | Asks(events[0], k) || Carries(events[0], k) ensures NothingCarries(rest, k) {
      forall i | 0 <= i < |rest| ensures !Carries(rest[i], k) {
        HeadIsFirst(events[0], events[i + 1], k);
      }
    }
    forall k | Asks(events[0], k) ensures !Asked(rest, k) {
      forall i | 0 <= i < |rest| ensures !Asks(rest[i], k) {
        HeadIsFirst(events[0], events[i + 1], k);
      }
    }
  }

  predicate NothingCarries(events: seq<Event>, k: Key) {
    forall i :: 0 <= i < |events| ==> !Carries(events[i], k)
  }

  lemma HeadIsFirst(first: Event, second: Event, k: Key)
    requires InLine(first, second, k)
    ensures Asks(first, k) || Carries(first, k) ==> !Carries(second, k)
    ensures Asks(first, k) ==> !Asks(second, k)
  {
  }

  lemma Follower(cfg: Config, remote: Remote, events: seq<Event>, i: nat, k: Key) returns (j: nat)
    requires AllFollowed(cfg, remote, events) && i < |events| && Carries(events[i], k)
    requires !Current(cfg, remote, events[i], k)
    ensures j < |events| && Asks(events[j], k)
  {
    hide Carries, Asks, Current;
    assert Asked(events, k);
    j :| 0 <= j < |events| && Asks(events[j], k);
  }

  /** The rest of the queue is followed as before: a report of k that is gone was the only event for k. */
  lemma RestIsFollowed(cfg: Config, remote: Remote, st: State, events: seq<Event>)
    requires Lanes(cfg, remote, st, events) && events != []
    ensures AllFollowed(cfg, remote, events[1..])
  {
    hide InLine, Holds, Meets, Expected, Carries, Asks, Current, AllHold, AllMeet, Lined;
    var rest := events[1..];
    RestOfLanes(cfg, remote, st, events);
    forall i, k | 0 <= i < |rest| && Carries(rest[i], k) ensures Current(cfg, remote, rest[i], k) || Asked(rest, k) {
      assert rest[i] == events[i + 1];
      if !Current(cfg, remote, rest[i], k) {
        var j := Follower(cfg, remote, events, i + 1, k);
        assert j > 0 ==> rest[j - 1] == events[j];
      }
    }
  }

  /** The key that an export, an update or an unexport is about. */
  lemma CarriedOutLanes(cfg: Config, remote: Remote, pre: State, events: seq<Event>, k: Key, out: Out)
    requires Lanes(cfg, remote, pre, events) && events != [] && Carries(events[0], k)
    requires CarriedOut(cfg, remote, pre, events[0], k, out)
    ensures Lanes(cfg, remote, out.st, events[1..])
  {
    hide InLine, Holds, Meets, Expected, Carries, Asks, Current, AllMeet, Lined, ViewAt, InSync, Base, Honest;
    hide AllFollowed, AllExpected;
    var rest := events[1..];
    RestOfLanes(cfg, remote, pre, events);
    RestIsFollowed(cfg, remote, pre, events);
    forall i, j | 0 <= i < |rest| ensures Holds(cfg, remote, out.st, rest[i], j) {
      assert Holds(cfg, remote, pre, rest[i], j);
      assert j == k ==> !Carries(rest[i], j);
      HoldsElsewhere(cfg, remote, pre, out.st, rest[i], j);
    }
  }

  /** A report that is queued after an outdated decision covers k once the decision has been carried out. */
  lemma ReportCovers(cfg: Config, remote: Remote, st: State, head: Event, report: Event, k: Key)
    requires Carries(head, k) && Asks(report, k) && Apt(cfg, remote, st, report, k)
    requires Meets(cfg, remote, head, report, k) && (head.Unexported? ==> ViewAt(cfg, st, k).svc.None?)
    ensures Covers(cfg, remote, st, report, k)
  {
    hide ViewAt, Desired;
  }

  lemma CarriedOutProgress(cfg: Config, remote: Remote, pre: State, events: seq<Event>, k: Key, out: Out)
    requires Lanes(cfg, remote, pre, events) && events != [] && Carries(events[0], k)
    requires CarriedOut(cfg, remote, pre, events[0], k, out) && Progress(cfg, remote, pre, events)
    ensures Progress(cfg, remote, out.st, events[1..])
  {
    hide InLine, Holds, Meets, Expected, Carries, Asks, Current, Lined, ViewAt, InSync, Base, Honest, Covers;
    hide AllExpected;
    var rest := events[1..];
    CarriedOutLanes(cfg, remote, pre, events, k, out);
    forall j ensures InSync(cfg, remote, out.st, j) || Covered(cfg, remote, out.st, rest, j) {
      if j == k {
        if !Current(cfg, remote, events[0], k) {
          var i := Follower(cfg, remote, events, 0, k);
          CarryingAsksNothing(events[0], k);
          assert rest[i - 1] == events[i] && Holds(cfg, remote, out.st, rest[i - 1], k);
          HeldReport(cfg, remote, out.st, rest[i - 1], k);
          ReportCovers(cfg, remote, out.st, events[0], events[i], k);
        }
      } else {
        OthersProgress(cfg, remote, pre, events, k, out.st, j);
      }
    }
  }

  lemma HeldReport(cfg: Config, remote: Remote, st: State, ev: Event, k: Key)
    requires Holds(cfg, remote, st, ev, k) && Asks(ev, k)
    ensures Apt(cfg, remote, st, ev, k)
  {
    hide ViewAt, Desired;
  }

  lemma CarryingAsksNothing(ev: Event, k: Key)
    requires Carries(ev, k)
    ensures !Asks(ev, k)
  {
  }

  lemma OthersProgress(cfg: Config, remote: Remote, pre: State, events: seq<Event>, k: Key, post: State, j: Key)
    requires events != [] && Carries(events[0], k) && j != k && OnlyAt(cfg, pre, post, k)
    requires Progress(cfg, remote, pre, events)
    ensures InSync(cfg, remote, post, j) || Covered(cfg, remote, post, events[1..], j)
  {
    hide ViewAt, InSync, Covers;
    if InSync(cfg, remote, pre, j) {
      InSyncDependsOnView(cfg, remote, pre, post, j);
    } else {
      var i :| 0 <= i < |events| && Covers(cfg, remote, pre, events[i], j);
      CarriersCoverTheirOwn(cfg, remote, pre, events[0], k, j);
      CoversDependsOnView(cfg, remote, pre, post, events[i], j);
      assert events[1..][i - 1] == events[i];
    }
  }

  lemma CarriersCoverTheirOwn(cfg: Config, remote: Remote, st: State, ev: Event, k: Key, j: Key)
    requires Carries(ev, k) && j != k
    ensures !Covers(cfg, remote, st, ev, j)
  {
    hide ViewAt, Desired;
  }

  /* ---------- the queue after any other event ---------- */

  /** What an event queues that carries no decision out. */
  lemma QueuedKinds(cfg: Config, remote: Remote, env: Env, st: State, head: Event, i: nat, k: Key)
    requires ValidEnv(env) && Expected(head) && i < |Handle(cfg, remote, env, st, head).spawned|
    ensures var e := Handle(cfg, remote, env, st, head).spawned[i];
            && (Carries(e, k) ==> Asks(head, k))
            && (Asks(e, k) ==> ReportsNamespaceOf(head, k) && DecidesOn(e, k))
            && !ReportsNamespaceOf(e, k) && !e.OnDelete?
  {
    hide Handle, ValidEnv, Expected;
    var spawned := Handle(cfg, remote, env, st, head).spawned;
    var e := spawned[i];
    assert e in spawned;
    SpawnShape(cfg, remote, env, st, head);
    SpawnsLone(cfg, remote, env, st, head);
    if Carries(e, k) || Asks(e, k) {
      assert Touches(spawned[i], k);
      assert Touches(head, k);
    }
  }

  lemma TouchesInLine(first: Event, second: Event, k: Key)
    ensures !InLine(first, second, k) ==> Touches(first, k) && Touches(second, k)
    ensures Neutral(first) || Neutral(second) ==> InLine(first, second, k)
  {
  }

  /** A queued event and one that the head of the queue queues. */
  lemma NewInLine(cfg: Config, remote: Remote, st: State, head: Event, e: Event, next: Event, k: Key)
    requires InLine(head, e, k) && Holds(cfg, remote, st, e, k)
    requires Carries(next, k) ==> Asks(head, k)
    requires Asks(next, k) ==> ReportsNamespaceOf(head, k) && DecidesOn(next, k) && k in remote.services
    requires !ReportsNamespaceOf(next, k)
    ensures InLine(e, next, k)
  {
    hide ViewAt, Desired, Headless, Distinguished;
  }

  /** The head of the queue carries no decision out; what it queues comes last, then what is retried. */
  ghost predicate Passed(cfg: Config, remote: Remote, env: Env, pre: State, events: seq<Event>, out: Out,
                         again: seq<Event>, after: seq<Event>) {
    && events != [] && Lanes(cfg, remote, pre, events) && RemoteOk(remote) && ValidEnv(env)
    && out == Handle(cfg, remote, env, pre, events[0]) && Local(cfg, remote, pre, events[0], out)
    && !Acts(events[0]) && !events[0].Unexported?
    && after == events[1..] + out.spawned + again && (forall i :: 0 <= i < |again| ==> Neutral(again[i]))
  }

  /** What a decision queues is fit and current. */
  lemma AptHolds(cfg: Config, remote: Remote, st: State, ev: Event, k: Key)
    requires RemoteOk(remote) && (About(ev, k) ==> Apt(cfg, remote, st, ev, k))
    ensures Holds(cfg, remote, st, ev, k) && (Carries(ev, k) ==> Current(cfg, remote, ev, k))
    ensures (Acts(ev) && ev.key == k) || DecidesOn(ev, k) ==> k in remote.services
  {
    hide ViewAt, Desired, Headless;
  }

  lemma QueuedHolds(cfg: Config, remote: Remote, pre: State, head: Event, out: Out, i: nat, k: Key)
    requires Local(cfg, remote, pre, head, out) && RemoteOk(remote) && i < |out.spawned|
    ensures var e := out.spawned[i];
            && Holds(cfg, remote, out.st, e, k) && (Carries(e, k) ==> Current(cfg, remote, e, k))
            && ((Acts(e) && e.key == k) || DecidesOn(e, k) ==> k in remote.services)
            && Expected(e) && !e.GcTriggered?
  {
    hide ViewAt, InSync, AllBase, Covers, Covered, Apt, About, AllHonest, OneActs, Holds, Current, Carries, RemoteOk;
    hide Expected, Writes, Acts;
    AptHolds(cfg, remote, out.st, out.spawned[i], k);
  }

  lemma PassedExpected(cfg: Config, remote: Remote, env: Env, pre: State, events: seq<Event>, out: Out,
                       again: seq<Event>, after: seq<Event>)
    requires Passed(cfg, remote, env, pre, events, out, again, after)
    ensures AllExpected(after)
  {
    hide Handle, Local, Lined, AllHold, AllMeet, AllFollowed, ValidEnv, RemoteOk, Expected, Neutral;
    var rest := events[1..];
    forall l | 0 <= l < |after| ensures Expected(after[l]) {
      if l < |rest| {
        assert after[l] == events[l + 1];
      } else if l < |rest| + |out.spawned| {
        QueuedHolds(cfg, remote, pre, events[0], out, l - |rest|, Key("", ""));
      } else {
        NeutralIsAboutNothing(again[l - |rest| - |out.spawned|], Key("", ""));
      }
    }
  }

  lemma PassedLined(cfg: Config, remote: Remote, env: Env, pre: State, events: seq<Event>, out: Out,
                    again: seq<Event>, after: seq<Event>)
    requires Passed(cfg, remote, env, pre, events, out, again, after)
    ensures Lined(after)
  {
    hide Handle, Local, AllMeet, AllFollowed, ValidEnv, RemoteOk, Expected, Neutral, InLine, Holds, Carries, Asks;
    hide Touches;
    var rest, n := events[1..], |events| - 1;
    var m := n + |out.spawned|;
    forall a, b, k | 0 <= a < b < |after| ensures InLine(after[a], after[b], k) {
      TouchesInLine(after[a], after[b], k);
      if b >= m {
        assert after[b] == again[b - m];
      } else if b < n {
        assert after[a] == events[a + 1] && after[b] == events[b + 1];
      } else if a < n {
        assert after[a] == events[a + 1] && after[b] == out.spawned[b - n];
        QueuedKinds(cfg, remote, env, pre, events[0], b - n, k);
        QueuedHolds(cfg, remote, pre, events[0], out, b - n, k);
        NewInLine(cfg, remote, pre, events[0], events[a + 1], out.spawned[b - n], k);
      } else {
        assert after[a] == out.spawned[a - n] && after[b] == out.spawned[b - n];
        SpawnsLone(cfg, remote, env, pre, events[0]);
      }
    }
  }

  /** Nothing that a queued export or update relies on is written. */
  lemma PassedUnwritten(cfg: Config, remote: Remote, head: Event, ev: Event, k: Key)
    requires !Acts(head) && !head.Unexported? && Carries(ev, k) && Acts(ev) && Meets(cfg, remote, ev, head, k)
    ensures !Writes(remote, head, k)
  {
    hide Desired;
  }

  lemma PassedHold(cfg: Config, remote: Remote, env: Env, pre: State, events: seq<Event>, out: Out,
                   again: seq<Event>, after: seq<Event>)
    requires Passed(cfg, remote, env, pre, events, out, again, after)
    ensures AllHold(cfg, remote, out.st, after)
  {
    hide Handle, AllFollowed, ValidEnv, RemoteOk, Expected, Neutral, Holds, Carries, Asks, Lined, Meets, Acts, Writes;
    hide ViewAt, InSync, AllBase, Covers, Covered, Apt, About, AllHonest, Orderly;
    var n := |events| - 1;
    var m := n + |out.spawned|;
    forall l, k | 0 <= l < |after| ensures Holds(cfg, remote, out.st, after[l], k) {
      if l < n {
        assert after[l] == events[l + 1] && Holds(cfg, remote, pre, events[l + 1], k);
        if Carries(after[l], k) && Acts(after[l]) {
          assert Meets(cfg, remote, events[l + 1], events[0], k);
          PassedUnwritten(cfg, remote, events[0], after[l], k);
        }
        HoldsElsewhere(cfg, remote, pre, out.st, after[l], k);
      } else if l < m {
        QueuedHolds(cfg, remote, pre, events[0], out, l - n, k);
      } else {
        NeutralHolds(cfg, remote, out.st, again[l - m], k);
      }
    }
  }

  lemma NeutralHolds(cfg: Config, remote: Remote, st: State, ev: Event, k: Key)
    requires Neutral(ev)
    ensures Holds(cfg, remote, st, ev, k) && !Carries(ev, k) && !Asks(ev, k)
    ensures forall e :: Meets(cfg, remote, ev, e, k) && Meets(cfg, remote, e, ev, k)
  {
  }

  lemma PassedMeet(cfg: Config, remote: Remote, env: Env, pre: State, events: seq<Event>, out: Out,
                   again: seq<Event>, after: seq<Event>)
    requires Passed(cfg, remote, env, pre, events, out, again, after)
    ensures AllMeet(cfg, remote, after)
  {
    hide Handle, Local, AllFollowed, ValidEnv, RemoteOk, Expected, Neutral, Holds, Carries, Asks, Lined, Acts, Desired;
    hide AllHold;
    var rest, n := events[1..], |events| - 1;
    var m := n + |out.spawned|;
    RestOfLanes(cfg, remote, pre, events);
    forall a, b, k | 0 <= a < |after| && 0 <= b < |after| ensures Meets(cfg, remote, after[a], after[b], k) {
      if a >= m {
        NeutralHolds(cfg, remote, pre, again[a - m], k);
      } else if b >= m {
        NeutralHolds(cfg, remote, pre, again[b - m], k);
      } else if a < n && b < n {
        assert after[a] == events[a + 1] && after[b] == events[b + 1];
        assert Meets(cfg, remote, events[a + 1], events[b + 1], k);
      } else if b >= n {
        QueuedKinds(cfg, remote, env, pre, events[0], b - n, k);
        QueuedHolds(cfg, remote, pre, events[0], out, b - n, k);
      } else {
        QueuedKinds(cfg, remote, env, pre, events[0], a - n, k);
        QueuedHolds(cfg, remote, pre, events[0], out, a - n, k);
        assert rest[b] == after[b];
        ActsCarries(after[a], after[b], k);
      }
    }
  }

  lemma ActsCarries(a: Event, b: Event, k: Key)
    ensures Acts(a) && a.key == k ==> Carries(a, k)
    ensures b.OnDelete? && b.key == k ==> Asks(b, k)
  {
  }

  lemma PassedFollowed(cfg: Config, remote: Remote, env: Env, pre: State, events: seq<Event>, out: Out,
                       again: seq<Event>, after: seq<Event>)
    requires Passed(cfg, remote, env, pre, events, out, again, after)
    ensures AllFollowed(cfg, remote, after)
  {
    hide Handle, Local, ValidEnv, RemoteOk, Expected, Neutral, Holds, Carries, Asks, Lined, Acts, AllMeet, AllHold;
    hide Current;
    var rest, n := events[1..], |events| - 1;
    var m := n + |out.spawned|;
    RestIsFollowed(cfg, remote, pre, events);
    forall l, k | 0 <= l < |after| && Carries(after[l], k)
      ensures Current(cfg, remote, after[l], k) || Asked(after, k)
    {
      if l < n {
        assert after[l] == rest[l];
        if Asked(rest, k) {
          var j :| 0 <= j < |rest| && Asks(rest[j], k);
          assert after[j] == rest[j];
        }
      } else if l < m {
        QueuedHolds(cfg, remote, pre, events[0], out, l - n, k);
      } else {
        NeutralHolds(cfg, remote, pre, again[l - m], k);
      }
    }
  }

  lemma PassedProgress(cfg: Config, remote: Remote, env: Env, pre: State, events: seq<Event>, out: Out,
                       again: seq<Event>, after: seq<Event>)
    requires Passed(cfg, remote, env, pre, events, out, again, after) && Progress(cfg, remote, pre, events)
    ensures Progress(cfg, remote, out.st, after)
  {
    hide Handle, ValidEnv, RemoteOk, Expected, Neutral, Holds, Lined, Acts, AllMeet, AllHold, AllFollowed, Lanes;
    hide ViewAt, InSync, AllBase, Covers, Apt, About, AllHonest, Orderly, Writes;
    var rest := events[1..];
    forall k ensures InSync(cfg, remote, out.st, k) || Covered(cfg, remote, out.st, after, k) {
      if Covers(cfg, remote, pre, events[0], k) {
        if Covered(cfg, remote, out.st, out.spawned, k) {
          var j :| 0 <= j < |out.spawned| && Covers(cfg, remote, out.st, out.spawned[j], k);
          assert after[|rest| + j] == out.spawned[j];
        }
      } else {
        OnlyCollectingWrites(cfg, remote, pre, events[0], k);
        if InSync(cfg, remote, pre, k) {
          InSyncDependsOnView(cfg, remote, pre, out.st, k);
        } else {
          var j :| 0 <= j < |events| && Covers(cfg, remote, pre, events[j], k);
          CoversDependsOnView(cfg, remote, pre, out.st, events[j], k);
          assert after[j - 1] == events[j];
        }
      }
    }
  }

  lemma OnlyCollectingWrites(cfg: Config, remote: Remote, st: State, ev: Event, k: Key)
    requires !Acts(ev) && !ev.Unexported?
    ensures Writes(remote, ev, k) ==> Covers(cfg, remote, st, ev, k)
  {
    hide ViewAt, Desired;
  }

  /* ---------- one step ---------- */

  lemma LanesIgnoreClock(cfg: Config, remote: Remote, st: State, now: nat, events: seq<Event>)
    requires Lanes(cfg, remote, st, events)
    ensures Lanes(cfg, remote, st.(now := now), events)
  {
    hide AllExpected, Lined, AllMeet, AllFollowed, Holds, ViewAt;
    forall i, k | 0 <= i < |events| ensures Holds(cfg, remote, st.(now := now), events[i], k) {
      assert Holds(cfg, remote, st, events[i], k);
      Overlaps.ViewIgnoresClock(cfg, st, now, k);
      HoldsElsewhere(cfg, remote, st, st.(now := now), events[i], k);
    }
  }

  lemma ProgressIgnoresClock(cfg: Config, remote: Remote, st: State, now: nat, events: seq<Event>)
    requires Progress(cfg, remote, st, events) && AllBase(cfg, remote, st)
    ensures Progress(cfg, remote, st.(now := now), events) && AllBase(cfg, remote, st.(now := now))
    ensures AllHonest(cfg, st) ==> AllHonest(cfg, st.(now := now))
  {
    hide InSync, Covered, Base, ViewAt;
    var post := st.(now := now);
    forall k
      ensures InSync(cfg, remote, post, k) || Covered(cfg, remote, post, events, k)
      ensures Base(cfg, remote, post, k) && (AllHonest(cfg, st) ==> Honest(cfg, post, k))
    {
      Overlaps.ViewIgnoresClock(cfg, st, now, k);
      BaseDependsOnView(cfg, remote, st, post, k);
      if InSync(cfg, remote, st, k) {
        InSyncDependsOnView(cfg, remote, st, post, k);
      } else {
        SameCover(cfg, remote, st, post, events, k);
      }
      assert AllHonest(cfg, st) ==> Honest(cfg, st, k);
    }
  }

  /** The parts of what flows, after the first event was handled and before the clock moves on. */
  ghost predicate Onward(cfg: Config, remote: Remote, pre: State, out: Out, after: seq<Event>) {
    && AllBase(cfg, remote, out.st) && Lanes(cfg, remote, out.st, after) && Progress(cfg, remote, out.st, after)
    && (out.outcome == Retry ==> Neutral(out.event))
    && (forall i :: 0 <= i < |out.spawned| ==> !out.spawned[i].GcTriggered?)
  }

  lemma CarryingOnward(cfg: Config, remote: Remote, env: Env, pre: State, events: seq<Event>, k: Key)
    requires events != [] && Carries(events[0], k) && Smooth(cfg, env, events[0]) && AllBase(cfg, remote, pre)
    requires Lanes(cfg, remote, pre, events) && Progress(cfg, remote, pre, events)
    ensures var out := Handle(cfg, remote, env, pre, events[0]);
            && Onward(cfg, remote, pre, out, events[1..]) && out.spawned == [] && out.outcome == Done
            && (AllHonest(cfg, pre) ==> AllHonest(cfg, out.st))
  {
    hide Handle, Smooth, Lanes, Progress, Base, InSync, ViewAt, Holds, Carries, Current;
    var out := Handle(cfg, remote, env, pre, events[0]);
    HeldAt(cfg, remote, pre, events, 0, k);
    HeadCarriedOut(cfg, remote, env, pre, events[0], k);
    CarriedOutLanes(cfg, remote, pre, events, k, out);
    CarriedOutProgress(cfg, remote, pre, events, k, out);
    BaseElsewhere(cfg, remote, pre, out.st, k);
    forall j | AllHonest(cfg, pre) ensures Honest(cfg, out.st, j) {
      assert Honest(cfg, pre, j);
    }
  }

  lemma HeldAt(cfg: Config, remote: Remote, st: State, events: seq<Event>, i: nat, k: Key)
    requires Lanes(cfg, remote, st, events) && i < |events|
    ensures Holds(cfg, remote, st, events[i], k) && Expected(events[i])
  {
    hide Holds, Expected, Lined, AllMeet, AllFollowed;
  }

  lemma OtherOnward(cfg: Config, remote: Remote, env: Env, pre: State, events: seq<Event>, again: seq<Event>)
    requires events != [] && !Acts(events[0]) && !events[0].Unexported? && Smooth(cfg, env, events[0])
    requires AllBase(cfg, remote, pre) && RemoteOk(remote) && !FederatedLike(cfg.link.cluster)
    requires Lanes(cfg, remote, pre, events) && Progress(cfg, remote, pre, events)
    requires var out := Handle(cfg, remote, env, pre, events[0]);
             again == [] || (out.outcome == Retry && again == [out.event])
    ensures var out := Handle(cfg, remote, env, pre, events[0]);
            && Onward(cfg, remote, pre, out, events[1..] + out.spawned + again)
            && (AllHonest(cfg, pre) && !events[0].GcTriggered? ==> AllHonest(cfg, out.st))
  {
    hide Handle, Routable, Succeeds, Lanes, Progress, AllBase, RemoteOk, Local, Neutral, FederatedLike, Expected, Acts;
    hide AllHonest;
    var out := Handle(cfg, remote, env, pre, events[0]);
    var after := events[1..] + out.spawned + again;
    HeldAt(cfg, remote, pre, events, 0, Key("", ""));
    forall k | About(events[0], k) ensures Apt(cfg, remote, pre, events[0], k) {
      HeldAt(cfg, remote, pre, events, 0, k);
      AboutAsks(cfg, remote, pre, events[0], k);
    }
    HandleLocal(cfg, remote, env, pre, events[0]);
    LocalParts(cfg, remote, pre, events[0], out);
    SuccessIsValid(env);
    assert Passed(cfg, remote, env, pre, events, out, again, after);
    PassedLanes(cfg, remote, env, pre, events, out, again, after);
    PassedProgress(cfg, remote, env, pre, events, out, again, after);
  }

  lemma PassedLanes(cfg: Config, remote: Remote, env: Env, pre: State, events: seq<Event>, out: Out,
                    again: seq<Event>, after: seq<Event>)
    requires Passed(cfg, remote, env, pre, events, out, again, after)
    ensures Lanes(cfg, remote, out.st, after)
  {
    hide Passed, AllExpected, Lined, AllHold, AllMeet, AllFollowed;
    PassedExpected(cfg, remote, env, pre, events, out, again, after);
    PassedLined(cfg, remote, env, pre, events, out, again, after);
    PassedHold(cfg, remote, env, pre, events, out, again, after);
    PassedMeet(cfg, remote, env, pre, events, out, again, after);
    PassedFollowed(cfg, remote, env, pre, events, out, again, after);
  }

  lemma AboutAsks(cfg: Config, remote: Remote, st: State, ev: Event, k: Key)
    requires About(ev, k) && !Acts(ev) && !ev.Unexported? && Holds(cfg, remote, st, ev, k)
    ensures Apt(cfg, remote, st, ev, k)
  {
    hide Apt, Fit;
  }

  /** Handling the first event of a queue that flows, with nothing failing. */
  lemma StepFlows(cfg: Config, sys: System, env: Env)
    requires Flowing(cfg, sys) && sys.queue != [] && Smooth(cfg, env, sys.queue[0].event)
    requires !FederatedLike(cfg.link.cluster)
    ensures Flowing(cfg, Step(cfg, sys, 0, env))
    ensures AllHonest(cfg, sys.st) && NeverCollects(sys) ==>
              AllHonest(cfg, Step(cfg, sys, 0, env).st) && NeverCollects(Step(cfg, sys, 0, env))
  {
    hide Handle, Step, Consistent, Lanes, Progress, AllBase, RemoteOk, FederatedLike, AllHonest, Routable, Succeeds;
    hide Neutral;
    var events, ev := Events(sys.queue), sys.queue[0].event;
    var out := Handle(cfg, sys.remote, env, sys.st, ev);
    var next := Step(cfg, sys, 0, env);
    var again := if out.outcome == Retry && sys.queue[0].requeues < cfg.requeueLimit then [out.event] else [];
    Enrolment.StepParts(cfg, sys, 0, env);
    assert events[..0] + events[1..] == events[1..];
    if Acts(ev) || ev.Unexported? {
      CarryingOnward(cfg, sys.remote, env, sys.st, events, ev.key);
      assert Events(next.queue) == events[1..];
    } else {
      OtherOnward(cfg, sys.remote, env, sys.st, events, again);
    }
    LanesIgnoreClock(cfg, sys.remote, out.st, next.st.now, Events(next.queue));
    ProgressIgnoresClock(cfg, sys.remote, out.st, next.st.now, Events(next.queue));
    SuccessIsValid(env);
    StepConsistent(cfg, sys, 0, env);
    StepKeepsRemote(cfg, sys, 0, env);
    if NeverCollects(sys) { ReplacedCollects(cfg, sys, 0, env, out); }
  }

  /* ---------- inputs ---------- */

  /** Whatever was reported of k has been decided upon. */
  predicate Decided(sys: System, k: Key) {
    forall i :: 0 <= i < |sys.queue| ==> !Asks(sys.queue[i].event, k)
  }

  /** None of the services is headless, and none changes without a new version. One is reported only when its last
      report has been decided upon and no report of its namespace is queued; its export, update or deletion may still
      be on its way. Where its mirror is then one of an earlier version, that version has not been reused. Services
      are not deleted, with anything about them queued, before a collection. */
  ghost predicate Allowed(cfg: Config, sys: System, input: Input) {
    match input
    case RemoteAdd(k, svc) =>
      && k !in sys.remote.services && !Headless(svc) && Decided(sys, k) && NamespaceUnreported(sys, k.ns)
      && (Collecting(sys) || !Quiet(sys, k) ==> Unreused(cfg, k, svc, ViewAt(cfg, sys.st, k)))
    case RemoteUpdate(k, svc) =>
      && k in sys.remote.services && !Headless(svc) && Decided(sys, k) && NamespaceUnreported(sys, k.ns)
      && (svc.version == sys.remote.services[k].version ==> svc == sys.remote.services[k])
      && (!Quiet(sys, k) ==> Unreused(cfg, k, svc, ViewAt(cfg, sys.st, k)))
    case RemoteDelete(k) =>
      k in sys.remote.services && Decided(sys, k) && (Collecting(sys) ==> Quiet(sys, k))
    case NamespaceAppears(ns) => NamespaceUnreported(sys, ns)
    case Restart(services, events) => Possible(cfg, sys, input) && Ordered(events)
  }

  /** What was allowed where nothing about the service may be queued is allowed here. */
  lemma TimelyIsAllowed(cfg: Config, sys: System, input: Input)
    requires Possible(cfg, sys, input) && Timely(sys, input)
    ensures Allowed(cfg, sys, input)
  {
    hide Unreused, Headless, Initial, ViewAt, Ordered;
    if !input.Restart? && !input.NamespaceAppears? {
      forall i | 0 <= i < |sys.queue| ensures !Asks(sys.queue[i].event, input.key) {
        assert !About(sys.queue[i].event, input.key);
      }
    }
  }

  /** With no report of k queued, what is queued about k is current. */
  lemma DecidedIsCurrent(cfg: Config, sys: System, i: nat, k: Key)
    requires Flowing(cfg, sys) && Decided(sys, k) && i < |sys.queue| && Carries(sys.queue[i].event, k)
    ensures Current(cfg, sys.remote, sys.queue[i].event, k)
  {
    hide Consistent, RemoteOk, AllBase, Progress, Lined, AllHold, AllMeet, AllExpected, Carries, Current, Asks;
    if !Current(cfg, sys.remote, sys.queue[i].event, k) {
      var j := Follower(cfg, sys.remote, Events(sys.queue), i, k);
    }
  }

  /** Everything said of k depends on the remote service k and the view of k alone. */
  lemma DependsOnOwn(cfg: Config, a: Remote, b: Remote, pre: State, post: State, ev: Event, k: Key)
    requires Overtaken.AgreeAt(a, b, k) && ViewAt(cfg, post, k) == ViewAt(cfg, pre, k)
    ensures Holds(cfg, b, post, ev, k) == Holds(cfg, a, pre, ev, k)
    ensures Current(cfg, b, ev, k) == Current(cfg, a, ev, k)
    ensures Covers(cfg, b, post, ev, k) == Covers(cfg, a, pre, ev, k)
    ensures forall e :: Meets(cfg, b, ev, e, k) == Meets(cfg, a, ev, e, k)
  {
    hide ViewAt, Desired, Headless;
  }

  /** The input changes the remote service k and queues a report of it. */
  ghost predicate Reports(cfg: Config, sys: System, input: Input, after: System, k: Key) {
    && Flowing(cfg, sys) && Allowed(cfg, sys, input)
    && (input.RemoteAdd? || input.RemoteUpdate? || input.RemoteDelete?) && input.key == k
    && after.st == sys.st && (forall j :: j != k ==> Overtaken.AgreeAt(sys.remote, after.remote, j))
    && Events(after.queue) == Events(sys.queue) + [Report(sys, input)]
    && (if input.RemoteDelete? then k !in after.remote.services
        else k in after.remote.services && after.remote.services[k] == input.svc)
  }

  lemma InputReports(cfg: Config, sys: System, input: Input, endpoints: map<Key, Endpoints>)
    requires Flowing(cfg, sys) && Allowed(cfg, sys, input)
    requires input.RemoteAdd? || input.RemoteUpdate? || input.RemoteDelete?
    ensures Reports(cfg, sys, input, Receive(sys, input, endpoints), input.key)
  {
    hide Flowing, Unreused, Headless, Decided, NamespaceUnreported, Collecting, Quiet;
    ReportIsLast(sys, input, endpoints);
  }

  /** What is queued about k stays fit, and is followed by the report. */
  lemma OwnHolds(cfg: Config, sys: System, input: Input, after: System, k: Key, i: nat)
    requires Reports(cfg, sys, input, after, k) && i < |sys.queue|
    ensures Holds(cfg, after.remote, after.st, sys.queue[i].event, k)
  {
    hide Consistent, RemoteOk, AllBase, Progress, Lined, AllMeet, AllExpected, AllFollowed, ViewAt, Desired, Headless;
    hide Unreused, NamespaceUnreported, Collecting, Quiet, Current;
    var ev := sys.queue[i].event;
    assert Holds(cfg, sys.remote, sys.st, Events(sys.queue)[i], k);
    if Carries(ev, k) && Acts(ev) {
      DecidedIsCurrent(cfg, sys, i, k);
      CurrentStaysFit(cfg, sys, input, after, ev, k);
    }
  }

  lemma CurrentStaysFit(cfg: Config, sys: System, input: Input, after: System, ev: Event, k: Key)
    requires Reports(cfg, sys, input, after, k) && Acts(ev) && Current(cfg, sys.remote, ev, k)
    requires Fit(cfg, sys.remote, sys.st, ev, k)
    ensures Fit(cfg, after.remote, after.st, ev, k)
    ensures input.RemoteDelete? ==> Desired(cfg.link, sys.remote.services[k].labels)
  {
    hide Flowing, ViewAt, Desired, Headless, Unreused, NamespaceUnreported, Collecting, Quiet, Decided;
  }

  lemma ReportHolds(cfg: Config, sys: System, input: Input, after: System, k: Key, j: Key)
    requires Reports(cfg, sys, input, after, k)
    ensures Holds(cfg, after.remote, after.st, Report(sys, input), j) && Expected(Report(sys, input))
    ensures Asks(Report(sys, input), k)
    ensures j != k ==> !Asks(Report(sys, input), j)
    ensures !Carries(Report(sys, input), j) && !Acts(Report(sys, input)) && !Report(sys, input).GcTriggered?
    ensures forall e :: InLine(e, Report(sys, input), j) <==>
              !(Asks(e, j) && j == k) && !(ReportsNamespaceOf(e, j) && DecidesOn(Report(sys, input), j))
  {
    hide Flowing, ViewAt, Desired, Headless, Unreused, NamespaceUnreported, Collecting, Quiet, Decided;
  }

  lemma ReportedLined(cfg: Config, sys: System, input: Input, after: System, k: Key)
    requires Reports(cfg, sys, input, after, k)
    ensures AllExpected(Events(after.queue)) && Lined(Events(after.queue))
  {
    hide Consistent, RemoteOk, AllBase, Progress, AllHold, AllMeet, AllFollowed, ViewAt, Desired, Headless, Expected;
    hide Unreused, Collecting, Quiet, InLine, Carries, Asks;
    var events, ev := Events(sys.queue), Report(sys, input);
    var n := |events|;
    forall i | 0 <= i <= n ensures Expected(Events(after.queue)[i]) {
      assert i < n ==> Events(after.queue)[i] == events[i];
      ReportHolds(cfg, sys, input, after, k, k);
    }
    forall i, j, l | 0 <= i < j <= n ensures InLine(Events(after.queue)[i], Events(after.queue)[j], l) {
      assert Events(after.queue)[i] == events[i] && events[i] == sys.queue[i].event;
      if j < n {
        assert Events(after.queue)[j] == events[j];
      } else {
        ReportHolds(cfg, sys, input, after, k, l);
        ReportsOfOthers(cfg, sys, input, after, k, l);
      }
    }
  }

  /** No report of the namespace comes before the report that k is there. */
  lemma ReportsOfOthers(cfg: Config, sys: System, input: Input, after: System, k: Key, l: Key)
    requires Reports(cfg, sys, input, after, k)
    ensures DecidesOn(Report(sys, input), l) ==> l == k && NamespaceUnreported(sys, k.ns)
    ensures Decided(sys, k)
  {
    hide Flowing, ViewAt, Desired, Headless, Unreused, Collecting, Quiet, Decided, NamespaceUnreported;
  }

  lemma ReportedHold(cfg: Config, sys: System, input: Input, after: System, k: Key)
    requires Reports(cfg, sys, input, after, k)
    ensures AllHold(cfg, after.remote, after.st, Events(after.queue))
    ensures AllFollowed(cfg, after.remote, Events(after.queue))
  {
    hide Consistent, RemoteOk, AllBase, Progress, Lined, AllMeet, ViewAt, Desired, Headless, Expected, AllExpected;
    hide Unreused, Collecting, Quiet, Carries, Asks, Holds, Current, Overtaken.AgreeAt, NamespaceUnreported, Decided;
    var events, now := Events(sys.queue), Events(after.queue);
    var n := |events|;
    ReportHolds(cfg, sys, input, after, k, k);
    assert |now| == n + 1 && now[n] == Report(sys, input);
    forall i, j | 0 <= i < |now| ensures Holds(cfg, after.remote, after.st, now[i], j) {
      if i == n {
        ReportHolds(cfg, sys, input, after, k, j);
      } else {
        assert now[i] == events[i] && events[i] == sys.queue[i].event;
        if j == k {
          OwnHolds(cfg, sys, input, after, k, i);
        } else {
          assert Holds(cfg, sys.remote, sys.st, events[i], j);
          DependsOnOwn(cfg, sys.remote, after.remote, sys.st, after.st, events[i], j);
        }
      }
    }
    forall i, j | 0 <= i < |now| && Carries(now[i], j)
      ensures Current(cfg, after.remote, now[i], j) || Asked(now, j)
    {
      if i == n {
        ReportHolds(cfg, sys, input, after, k, j);
      } else if j != k {
        assert now[i] == events[i];
        DependsOnOwn(cfg, sys.remote, after.remote, sys.st, after.st, events[i], j);
        AskedGrows(events, now, j);
      }
    }
  }

  lemma AskedGrows(events: seq<Event>, longer: seq<Event>, k: Key)
    requires Asked(events, k) ==> |events| <= |longer| && forall i :: 0 <= i < |events| ==> longer[i] == events[i]
    ensures Asked(events, k) ==> Asked(longer, k)
  {
    hide Asks;
    if Asked(events, k) {
      var j :| 0 <= j < |events| && Asks(events[j], k);
      assert longer[j] == events[j];
    }
  }

  lemma ReportedMeet(cfg: Config, sys: System, input: Input, after: System, k: Key)
    requires Reports(cfg, sys, input, after, k)
    ensures AllMeet(cfg, after.remote, Events(after.queue))
  {
    hide Consistent, RemoteOk, AllBase, Progress, Lined, ViewAt, Headless, Expected, AllExpected, AllFollowed, AllHold;
    hide Unreused, Carries, Asks, Holds, Current, Overtaken.AgreeAt, NamespaceUnreported, Meets, Acts, Decided;
    var events, now := Events(sys.queue), Events(after.queue);
    var n := |events|;
    assert now[n] == Report(sys, input);
    forall a, b, j | 0 <= a <= n && 0 <= b <= n ensures Meets(cfg, after.remote, now[a], now[b], j) {
      ReportHolds(cfg, sys, input, after, k, j);
      if a == n {
        NoActMeets(cfg, after.remote, now[a], now[b], j);
      } else {
        assert now[a] == events[a] && events[a] == sys.queue[a].event;
        assert b < n ==> now[b] == events[b];
        if j != k {
          DependsOnOwn(cfg, sys.remote, after.remote, sys.st, after.st, events[a], j);
          if b == n { OtherReportMeets(cfg, sys, input, after, k, now[a], j); }
        } else {
          OwnMeets(cfg, sys, input, after, k, a, now[b]);
        }
      }
    }
  }

  lemma NoActMeets(cfg: Config, remote: Remote, a: Event, b: Event, k: Key)
    requires !Acts(a)
    ensures Meets(cfg, remote, a, b, k)
  {
    hide Desired;
  }

  lemma OtherReportMeets(cfg: Config, sys: System, input: Input, after: System, k: Key, ev: Event, j: Key)
    requires Reports(cfg, sys, input, after, k) && j != k
    ensures Meets(cfg, after.remote, ev, Report(sys, input), j)
  {
    hide Flowing, ViewAt, Desired, Headless, Unreused, Collecting, Quiet, Decided, NamespaceUnreported;
  }

  lemma OwnMeets(cfg: Config, sys: System, input: Input, after: System, k: Key, i: nat, ev: Event)
    requires Reports(cfg, sys, input, after, k) && i < |sys.queue|
    requires ev == Report(sys, input) || exists j :: 0 <= j < |sys.queue| && sys.queue[j].event == ev
    ensures Meets(cfg, after.remote, sys.queue[i].event, ev, k)
  {
    hide Consistent, RemoteOk, AllBase, Progress, Lined, AllMeet, AllExpected, AllFollowed, ViewAt, Desired, Headless;
    hide Unreused, NamespaceUnreported, Fit;
    var a := sys.queue[i].event;
    if Acts(a) && a.key == k {
      DecidedIsCurrent(cfg, sys, i, k);
      assert Holds(cfg, sys.remote, sys.st, Events(sys.queue)[i], k);
      CurrentStaysFit(cfg, sys, input, after, a, k);
      if ev != Report(sys, input) {
        var j :| 0 <= j < |sys.queue| && sys.queue[j].event == ev;
        assert !Asks(sys.queue[j].event, k);
      }
      if input.RemoteDelete? {
        assert About(sys.queue[i].event, k);
      }
    }
  }

  /** The objects of the service that the input is about stay what they should be. */
  lemma OwnBase(cfg: Config, sys: System, input: Input, after: System, k: Key)
    requires Reports(cfg, sys, input, after, k)
    ensures Base(cfg, after.remote, after.st, k)
  {
    hide Consistent, RemoteOk, Lanes, Progress, Reflects, Claimed, Desired, Headless, MirrorKey, Reported, Records;
    hide Quiet, Collecting, Decided, NamespaceUnreported;
    assert Base(cfg, sys.remote, sys.st, k);
    if Quiet(sys, k) {
      QuietView(cfg, sys, k);
      if input.RemoteUpdate? {
        InSyncIsUnreused(cfg, sys.remote, sys.st, k, input.svc);
      }
    }
  }

  lemma ReportedBase(cfg: Config, sys: System, input: Input, after: System, k: Key)
    requires Reports(cfg, sys, input, after, k)
    ensures AllBase(cfg, after.remote, after.st)
  {
    hide Consistent, RemoteOk, Lanes, Progress, Base, InSync, Allowed;
    forall j ensures Base(cfg, after.remote, after.st, j) {
      assert Base(cfg, sys.remote, sys.st, j);
      if j == k {
        OwnBase(cfg, sys, input, after, k);
      } else {
        assert Overtaken.AgreeAt(sys.remote, after.remote, j);
        Overtaken.SameService(cfg, sys.remote, after.remote, sys.st, j);
      }
    }
  }

  /** Where nothing of k is to be deleted that the report would find, a deletion is on its way already. */
  lemma DeletionIsOnItsWay(cfg: Config, sys: System, k: Key, i: nat)
    requires k in sys.remote.services && !Desired(cfg.link, sys.remote.services[k].labels) && Decided(sys, k)
    requires i < |sys.queue| && Covers(cfg, sys.remote, sys.st, sys.queue[i].event, k)
    requires ViewAt(cfg, sys.st, k).svc.Some?
    ensures sys.queue[i].event == Unexported(k)
  {
    hide ViewAt, Desired;
    assert !Asks(sys.queue[i].event, k);
  }

  lemma OwnCovered(cfg: Config, sys: System, input: Input, after: System, k: Key)
    requires Reports(cfg, sys, input, after, k)
    ensures Covered(cfg, after.remote, after.st, Events(after.queue), k)
  {
    hide Consistent, RemoteOk, Lanes, AllBase, Reflects, Claimed, Desired, Headless, ViewAt, InSync, Unreused;
    hide Quiet, Collecting, Decided, NamespaceUnreported, Overtaken.AgreeAt;
    var events, now := Events(sys.queue), Events(after.queue);
    var ev := Report(sys, input);
    assert now[|events|] == ev;
    if input.RemoteDelete? && !Desired(cfg.link, sys.remote.services[k].labels) && ViewAt(cfg, sys.st, k).svc.Some? {
      UnwantedHasNone(cfg, sys, k);
      var i :| 0 <= i < |events| && Covers(cfg, sys.remote, sys.st, events[i], k);
      DeletionIsOnItsWay(cfg, sys, k, i);
      assert now[i] == Unexported(k);
      assert Covers(cfg, after.remote, after.st, now[i], k);
    } else {
      assert Covers(cfg, after.remote, after.st, now[|events|], k);
    }
  }

  lemma UnwantedHasNone(cfg: Config, sys: System, k: Key)
    requires k in sys.remote.services && !Desired(cfg.link, sys.remote.services[k].labels)
    ensures InSync(cfg, sys.remote, sys.st, k) ==> ViewAt(cfg, sys.st, k).svc.None?
  {
    hide ViewAt, Desired, Reflects;
  }

  lemma ReportedProgress(cfg: Config, sys: System, input: Input, after: System, k: Key)
    requires Reports(cfg, sys, input, after, k)
    ensures Progress(cfg, after.remote, after.st, Events(after.queue))
  {
    hide Consistent, RemoteOk, Lanes, AllBase, InSync, Covers, Allowed, ViewAt;
    var events, now := Events(sys.queue), Events(after.queue);
    forall j ensures InSync(cfg, after.remote, after.st, j) || Covered(cfg, after.remote, after.st, now, j) {
      if j == k {
        OwnCovered(cfg, sys, input, after, k);
      } else {
        assert Overtaken.AgreeAt(sys.remote, after.remote, j);
        Overtaken.SameService(cfg, sys.remote, after.remote, sys.st, j);
        if !InSync(cfg, sys.remote, sys.st, j) {
          var i :| 0 <= i < |events| && Covers(cfg, sys.remote, sys.st, events[i], j);
          DependsOnOwn(cfg, sys.remote, after.remote, sys.st, after.st, events[i], j);
          assert now[i] == events[i];
        }
      }
    }
  }

  lemma ReportFlows(cfg: Config, sys: System, input: Input, endpoints: map<Key, Endpoints>)
    requires Flowing(cfg, sys) && Allowed(cfg, sys, input)
    requires input.RemoteAdd? || input.RemoteUpdate? || input.RemoteDelete?
    ensures Flowing(cfg, Receive(sys, input, endpoints)) && Receive(sys, input, endpoints).st == sys.st
  {
    hide Flowing, Reports, Consistent, AllBase, Progress, AllExpected, Lined, AllHold, AllMeet, AllFollowed, RemoteOk;
    hide Unreused, Headless, Decided, NamespaceUnreported, Collecting, Quiet;
    var after, k := Receive(sys, input, endpoints), input.key;
    InputReports(cfg, sys, input, endpoints);
    ReportedLined(cfg, sys, input, after, k);
    ReportedHold(cfg, sys, input, after, k);
    ReportedMeet(cfg, sys, input, after, k);
    ReportedBase(cfg, sys, input, after, k);
    ReportedProgress(cfg, sys, input, after, k);
    FlowingParts(cfg, sys);
    Overtaken.ReceivedConsistent(cfg, sys, input, endpoints);
    RemoteStaysOk(cfg, sys, input, endpoints);
    FlowingFrom(cfg, after);
  }

  lemma FlowingParts(cfg: Config, sys: System)
    requires Flowing(cfg, sys)
    ensures Consistent(cfg, sys) && RemoteOk(sys.remote) && AllBase(cfg, sys.remote, sys.st)
    ensures Lanes(cfg, sys.remote, sys.st, Events(sys.queue))
    ensures Progress(cfg, sys.remote, sys.st, Events(sys.queue))
  {
    hide Consistent, RemoteOk, AllBase, Lanes, Progress;
  }

  lemma FlowingFrom(cfg: Config, sys: System)
    requires Consistent(cfg, sys) && RemoteOk(sys.remote) && AllBase(cfg, sys.remote, sys.st)
    requires AllExpected(Events(sys.queue)) && Lined(Events(sys.queue))
    requires AllHold(cfg, sys.remote, sys.st, Events(sys.queue)) && AllMeet(cfg, sys.remote, Events(sys.queue))
    requires AllFollowed(cfg, sys.remote, Events(sys.queue))
    requires Progress(cfg, sys.remote, sys.st, Events(sys.queue))
    ensures Flowing(cfg, sys)
  {
    hide Consistent, RemoteOk, AllBase, Progress, AllExpected, Lined, AllHold, AllMeet, AllFollowed;
  }

  lemma RemoteStaysOk(cfg: Config, sys: System, input: Input, endpoints: map<Key, Endpoints>)
    requires Allowed(cfg, sys, input) && RemoteOk(sys.remote)
    requires input.RemoteAdd? || input.RemoteUpdate? || input.RemoteDelete?
    ensures RemoteOk(Receive(sys, input, endpoints).remote)
  {
    hide Unreused, Headless, Decided, NamespaceUnreported, Collecting, Quiet;
  }

  /* ---------- namespaces and restarts ---------- */

  lemma NamespaceLanes(cfg: Config, sys: System, ns: string, after: System)
    requires Flowing(cfg, sys) && NamespaceUnreported(sys, ns) && after.remote.services == sys.remote.services
    requires after.st == sys.st.(namespaces := sys.st.namespaces + {ns})
    requires Events(after.queue) == Events(sys.queue) + [NamespaceAdded(ns)]
    ensures Lanes(cfg, after.remote, after.st, Events(after.queue))
  {
    hide Consistent, RemoteOk, AllBase, Progress, ViewAt, Holds, Current, Meets, Carries, Asks, InLine;
    var events, now, ev := Events(sys.queue), Events(after.queue), NamespaceAdded(ns);
    var n := |events|;
    assert |now| == n + 1 && now[n] == ev;
    assert forall i :: 0 <= i < n ==> now[i] == events[i] && events[i] == sys.queue[i].event;
    forall i, j, k | 0 <= i < j < |now| ensures InLine(now[i], now[j], k) {
      if j == n { NamespaceFacts(cfg, after.remote, after.st, sys.queue[i].event, ns, k); }
    }
    forall i, k | 0 <= i < |now| ensures Holds(cfg, after.remote, after.st, now[i], k) {
      NamespaceFacts(cfg, after.remote, after.st, GcTriggered, ns, k);
      if i < n {
        assert Holds(cfg, sys.remote, sys.st, events[i], k);
        Overlaps.ViewIgnoresNamespaces(cfg, sys.st, after.st.namespaces, k);
        DependsOnOwn(cfg, sys.remote, after.remote, sys.st, after.st, events[i], k);
      }
    }
    forall i, j, k | 0 <= i < |now| && 0 <= j < |now| ensures Meets(cfg, after.remote, now[i], now[j], k) {
      NamespaceFacts(cfg, after.remote, after.st, now[i], ns, k);
      NamespaceFacts(cfg, after.remote, after.st, now[j], ns, k);
      if i < n && j < n {
        assert Meets(cfg, sys.remote, events[i], events[j], k);
        Overlaps.ViewIgnoresNamespaces(cfg, sys.st, after.st.namespaces, k);
        DependsOnOwn(cfg, sys.remote, after.remote, sys.st, after.st, events[i], k);
      }
    }
    forall i, k | 0 <= i < |now| && Carries(now[i], k) ensures Current(cfg, after.remote, now[i], k) || Asked(now, k) {
      NamespaceFacts(cfg, after.remote, after.st, GcTriggered, ns, k);
      Overlaps.ViewIgnoresNamespaces(cfg, sys.st, after.st.namespaces, k);
      DependsOnOwn(cfg, sys.remote, after.remote, sys.st, after.st, now[i], k);
      AskedGrows(events, now, k);
    }
  }

  lemma NamespaceFacts(cfg: Config, remote: Remote, st: State, e: Event, ns: string, k: Key)
    ensures var ev := NamespaceAdded(ns);
            && Holds(cfg, remote, st, ev, k) && !Carries(ev, k)
            && Meets(cfg, remote, ev, e, k) && Meets(cfg, remote, e, ev, k)
            && (e != ev ==> InLine(e, ev, k))
  {
  }

  lemma NamespaceFlows(cfg: Config, sys: System, ns: string, endpoints: map<Key, Endpoints>)
    requires Flowing(cfg, sys) && NamespaceUnreported(sys, ns)
    ensures Flowing(cfg, Receive(sys, NamespaceAppears(ns), endpoints))
    ensures AllHonest(cfg, sys.st) ==> AllHonest(cfg, Receive(sys, NamespaceAppears(ns), endpoints).st)
  {
    hide Consistent, RemoteOk, Lanes, Base, InSync, ViewAt, Covers, AllHonest, Receive;
    var input := NamespaceAppears(ns);
    var after := Receive(sys, input, endpoints);
    ReceiveConsistent(cfg, sys, input, endpoints);
    ReportIsLast(sys, input, endpoints);
    NamespaceParts(sys, ns, endpoints);
    NamespaceLanes(cfg, sys, ns, after);
    var now := Events(after.queue);
    forall k
      ensures Base(cfg, after.remote, after.st, k)
      ensures InSync(cfg, after.remote, after.st, k) || Covered(cfg, after.remote, after.st, now, k)
    {
      assert Base(cfg, sys.remote, sys.st, k);
      assert InSync(cfg, sys.remote, sys.st, k) || Covered(cfg, sys.remote, sys.st, Events(sys.queue), k);
      assert now[|sys.queue|] == NamespaceAdded(ns);
      NamespaceCovers(cfg, sys, ns, after, k);
    }
  }

  lemma NamespaceParts(sys: System, ns: string, endpoints: map<Key, Endpoints>)
    ensures var after := Receive(sys, NamespaceAppears(ns), endpoints);
            after.remote.services == sys.remote.services && after.st == sys.st.(namespaces := sys.st.namespaces + {ns})
  {
  }

  lemma NamespaceCovers(cfg: Config, sys: System, ns: string, after: System, k: Key)
    requires Base(cfg, sys.remote, sys.st, k) && after.remote.services == sys.remote.services
    requires after.st == sys.st.(namespaces := sys.st.namespaces + {ns})
    requires Events(after.queue) == Events(sys.queue) + [NamespaceAdded(ns)]
    requires InSync(cfg, sys.remote, sys.st, k) || Covered(cfg, sys.remote, sys.st, Events(sys.queue), k)
    ensures Base(cfg, after.remote, after.st, k)
    ensures InSync(cfg, after.remote, after.st, k) || Covered(cfg, after.remote, after.st, Events(after.queue), k)
  {
    hide ViewAt, Reflects, Claimed, Unreused, Desired;
    var events, now := Events(sys.queue), Events(after.queue);
    Overlaps.ViewIgnoresNamespaces(cfg, sys.st, after.st.namespaces, k);
    assert now[|events|] == NamespaceAdded(ns);
    if Covered(cfg, sys.remote, sys.st, events, k) {
      var i :| 0 <= i < |events| && Covers(cfg, sys.remote, sys.st, events[i], k);
      DependsOnOwn(cfg, sys.remote, after.remote, sys.st, after.st, events[i], k);
      assert now[i] == events[i];
    } else if !InSync(cfg, after.remote, after.st, k) {
      assert Covers(cfg, after.remote, after.st, now[|events|], k);
    }
  }

  lemma RestartFlows(cfg: Config, sys: System, input: Input, endpoints: map<Key, Endpoints>)
    requires Flowing(cfg, sys) && Allowed(cfg, sys, input) && input.Restart?
    ensures Flowing(cfg, Receive(sys, input, endpoints))
  {
    hide Progress, Lanes, RemoteOk, Shaped, Unreused, Headless, Initial, Ordered, Base, Tracking;
    var after := Receive(sys, input, endpoints);
    forall k ensures Base(cfg, Remote(map[], map[]), sys.st, k) {
      assert Base(cfg, sys.remote, sys.st, k);
      NoRemoteIsBase(cfg, sys.remote, sys.st, k);
    }
    RestartTracks(cfg, sys, input.services, input.events, endpoints);
    assert Events(after.queue) == input.events;
    StartedLanes(cfg, after.remote, after.st, input.events);
    Started(cfg, after);
  }

  lemma NoRemoteIsBase(cfg: Config, remote: Remote, st: State, k: Key)
    requires Base(cfg, remote, st, k)
    ensures Base(cfg, Remote(map[], map[]), st, k)
  {
    hide ViewAt, Claimed, Unreused;
  }

  lemma StartedLanes(cfg: Config, remote: Remote, st: State, events: seq<Event>)
    requires Initial(remote.services, events) && Ordered(events)
    ensures Lanes(cfg, remote, st, events)
  {
    hide ViewAt, Desired;
    forall i, j, k | 0 <= i < j < |events| ensures InLine(events[i], events[j], k) {
      assert !Clash(events[i], events[j], k);
    }
  }

  lemma Started(cfg: Config, sys: System)
    requires Tracking(cfg, sys) && Lanes(cfg, sys.remote, sys.st, Events(sys.queue))
    ensures Flowing(cfg, sys)
  {
    hide Consistent, RemoteOk, AllBase, Lanes, Progress, Orderly;
  }

  /* ---------- whole runs ---------- */

  /** An input that is allowed arrives, or the first queued event is handled without a failure. */
  ghost predicate Goes(cfg: Config, sys: System, action: Action) {
    match action
    case Accept(input, _) => Allowed(cfg, sys, input)
    case Perform(choice) => choice.index == 0 && sys.queue != [] && Smooth(cfg, choice.env, sys.queue[0].event)
  }

  lemma GoesApplies(cfg: Config, sys: System, action: Action)
    requires Goes(cfg, sys, action)
    ensures action.Accept? && action.input.RemoteDelete? ==> action.input.key in sys.remote.services
    ensures action.Perform? ==> action.choice.index < |sys.queue|
  {
    hide Unreused, Headless, Smooth, Possible, Ordered;
  }

  ghost predicate GoesOn(cfg: Config, sys: System, actions: seq<Action>)
    decreases |actions|
  {
    actions == [] ||
    (&& Goes(cfg, sys, actions[0])
     && (GoesApplies(cfg, sys, actions[0]); GoesOn(cfg, Apply(cfg, sys, actions[0]), actions[1..])))
  }

  ghost function Come(cfg: Config, sys: System, actions: seq<Action>): System
    requires GoesOn(cfg, sys, actions)
    decreases |actions|
  {
    if actions == [] then sys
    else
      GoesApplies(cfg, sys, actions[0]);
      Come(cfg, Apply(cfg, sys, actions[0]), actions[1..])
  }

  lemma ActionFlows(cfg: Config, sys: System, action: Action)
    requires Flowing(cfg, sys) && Goes(cfg, sys, action) && !FederatedLike(cfg.link.cluster)
    ensures action.Accept? && action.input.RemoteDelete? ==> action.input.key in sys.remote.services
    ensures action.Perform? ==> action.choice.index < |sys.queue|
    ensures Flowing(cfg, Apply(cfg, sys, action))
    ensures NeverCollects(sys) && AllHonest(cfg, sys.st) && !(action.Accept? && action.input.Restart?) ==>
              NeverCollects(Apply(cfg, sys, action)) && AllHonest(cfg, Apply(cfg, sys, action).st)
  {
    hide Flowing, FederatedLike, AllHonest, Smooth, Step, Receive, Unreused, Headless, Decided, Collecting, Quiet;
    hide Possible, Ordered, NamespaceUnreported, NeverCollects;
    GoesApplies(cfg, sys, action);
    match action
    case Perform(choice) => StepFlows(cfg, sys, choice.env);
    case Accept(input, endpoints) =>
      match input {
        case NamespaceAppears(ns) => NamespaceFlows(cfg, sys, ns, endpoints);
        case Restart(_, _) => RestartFlows(cfg, sys, input, endpoints);
        case _ => ReportFlows(cfg, sys, input, endpoints);
      }
      if !input.Restart? { ReportCollectsNothing(sys, input, endpoints); }
  }

  lemma ReportCollectsNothing(sys: System, input: Input, endpoints: map<Key, Endpoints>)
    requires !input.Restart? && (input.RemoteDelete? ==> input.key in sys.remote.services)
    ensures NeverCollects(sys) ==> NeverCollects(Receive(sys, input, endpoints))
  {
  }

  lemma {:induction false} RunFlows(cfg: Config, sys: System, actions: seq<Action>)
    requires Flowing(cfg, sys) && GoesOn(cfg, sys, actions) && !FederatedLike(cfg.link.cluster)
    ensures Flowing(cfg, Come(cfg, sys, actions))
    ensures NeverCollects(sys) && AllHonest(cfg, sys.st) && !Restarts(actions) ==>
              AllHonest(cfg, Come(cfg, sys, actions).st)
    decreases |actions|
  {
    hide Flowing, Goes, Apply, FederatedLike, AllHonest, NeverCollects;
    if actions != [] {
      ActionFlows(cfg, sys, actions[0]);
      RunFlows(cfg, Apply(cfg, sys, actions[0]), actions[1..]);
      assert !Restarts(actions) ==> !Restarts(actions[1..]) by {
        assert forall i :: 0 <= i < |actions| - 1 ==> actions[1..][i] == actions[i + 1];
      }
      assert Restarts(actions) || !(actions[0].Accept? && actions[0].input.Restart?);
    }
  }

  lemma DrainedFlowTracks(cfg: Config, sys: System)
    requires Flowing(cfg, sys) && sys.queue == []
    ensures Tracking(cfg, sys)
  {
    hide Consistent, RemoteOk, AllBase, Progress, Lanes;
    NothingIsOrderly(cfg, sys.remote, sys.st, Events(sys.queue));
  }

  lemma NothingIsOrderly(cfg: Config, remote: Remote, st: State, events: seq<Event>)
    requires events == []
    ensures Orderly(cfg, remote, st, events)
  {
  }

  /** In every run that starts with no mirrors, in which nothing fails and events are handled in the order of the queue,
      a service may change again as soon as its last report has been decided upon, its export, update or deletion still
      on its way: whenever the queue is empty the mirrors are exactly the image of the wanted remote services, and
      until a restart the status of a link to another cluster is true exactly where there is one. */
  lemma SuccessiveRefinement(cfg: Config, sys: System, actions: seq<Action>)
    requires Untouched(cfg, sys) && GoesOn(cfg, sys, actions) && !FederatedLike(cfg.link.cluster)
    ensures var end := Come(cfg, sys, actions);
            && (end.queue == [] ==> MirrorsExactly(cfg, end))
            && (cfg.link.cluster != "" && !Restarts(actions) ==> StatusExactly(cfg, end))
  {
    hide Untouched, MirrorsExactly, StatusExactly, GoesOn, Come, FederatedLike, AllHonest, NeverCollects, Restarts;
    hide Tracking, Flowing;
    UntouchedTracks(cfg, sys);
    UntouchedFlows(cfg, sys);
    RunFlows(cfg, sys, actions);
    var end := Come(cfg, sys, actions);
    if end.queue == [] {
      DrainedFlowTracks(cfg, end);
      DrainedMirrors(cfg, end);
    }
    if cfg.link.cluster != "" && !Restarts(actions) {
      HonestStatus(cfg, end);
    }
  }

  lemma UntouchedFlows(cfg: Config, sys: System)
    requires Untouched(cfg, sys) && Tracking(cfg, sys)
    ensures Flowing(cfg, sys)
  {
    hide Consistent, RemoteOk, AllBase, Progress, Orderly, OfLink, Reported;
  }
}
