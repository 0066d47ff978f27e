/** Runs in which nothing is decided upon too early. While no two queued events are about the same service, as when
    the queue drains before the next input arrives, the events may be handled in any order. Otherwise the order of the
    queue will do, unless a namespace is reported before one of its services. */
module Drained {
  import opened Kubernetes
  import opened Mirror
  import opened Api
  import opened Handlers
  import opened Effects
  import opened Machine
  import opened Liveness
  import opened Refinement

  type State = Api.State

  /** The event, or what it queues, is about k. */
  predicate Touches(ev: Event, k: Key) {
    About(ev, k) || (ev.NamespaceAdded? && ev.ns == k.ns)
  }

  /** No two events about one service. */
  ghost predicate Lone(events: seq<Event>) {
    forall i, j, k :: 0 <= i < j < |events| ==> !(Touches(events[i], k) && Touches(events[j], k))
  }

  lemma LoneIsPolite(events: seq<Event>, i: nat)
    requires Lone(events) && i < |events|
    ensures Polite(events, i)
  {
    if Decides(events[i]) {
      forall j | 0 <= j < |events| && Acts(events[j]) ensures events[j].key != events[i].key {
        assert Touches(events[j], events[j].key) && Touches(events[i], events[i].key);
        assert j != i;
      }
    }
  }

  /* ---------- one event ---------- */

  lemma DecisionSpawnsLone(cfg: Config, env: Env, st: State, ev: Event)
    requires Decides(ev)
    ensures var spawned := CreateOrUpdate(cfg, env, st, ev).spawned;
            Lone(spawned) && forall i, k :: 0 <= i < |spawned| && Touches(spawned[i], k) ==> k == ev.key
  {
    hide MirrorKey, FederatedKey, Desired, IsFederatedMember, PutFederatedStatus;
  }

  lemma NamespaceSpawnsLone(remote: Remote, env: Env, st: State, ns: string)
    requires ValidEnv(env)
    ensures var spawned := HandleNamespaceAdded(remote, env, st, ns).spawned;
            Lone(spawned) && forall i, k :: 0 <= i < |spawned| && Touches(spawned[i], k) ==> k.ns == ns
  {
    hide OnAdds;
    var keys := RemoteIn(remote, ns);
    var list := env.list(keys);
    assert Enumerates(list, keys);
    OnAddsExact(remote, list);
  }

  /** What an event queues is about the services it touches itself, each at most once. */
  lemma SpawnsLone(cfg: Config, remote: Remote, env: Env, st: State, ev: Event)
    requires ValidEnv(env) && Expected(ev)
    ensures var spawned := Handle(cfg, remote, env, st, ev).spawned;
            Lone(spawned) && forall i, k :: 0 <= i < |spawned| && Touches(spawned[i], k) ==> Touches(ev, k)
  {
    hide CreateOrUpdate, HandleDelete, HandleExported, HandleUpdated, HandleUnexported, HandleNamespaceAdded, ValidEnv;
    hide HandleCreateFederated, HandleJoin, HandleLeave, HandleCleanup, HandleGc, HandleRepair, HandleEndpoints;
    hide Touches, Lone;
    match ev
    case OnAdd(k, _) => DecisionSpawnsLone(cfg, env, st, ev); TouchesItsOwn(ev);
    case OnUpdate(k, _) => DecisionSpawnsLone(cfg, env, st, ev); TouchesItsOwn(ev);
    case OnDelete(k, _) => DeletionSpawnsLone(cfg, st, ev); TouchesItsOwn(ev);
    case NamespaceAdded(ns) => NamespaceSpawnsLone(remote, env, st, ns); TouchesItsOwn(ev);
    case _ => SpawnShape(cfg, remote, env, st, ev); NothingIsLone();
  }

  lemma NothingIsLone()
    ensures Lone([])
  {
  }

  lemma TouchesItsOwn(ev: Event)
    ensures Decides(ev) || ev.OnDelete? ==> Touches(ev, ev.key)
    ensures ev.NamespaceAdded? ==> forall k: Key :: k.ns == ev.ns ==> Touches(ev, k)
  {
  }

  lemma DeletionSpawnsLone(cfg: Config, st: State, ev: Event)
    requires ev.OnDelete?
    ensures var spawned := HandleDelete(cfg, st, ev).spawned;
            Lone(spawned) && forall i, k :: 0 <= i < |spawned| && Touches(spawned[i], k) ==> k == ev.key
  {
    hide Desired, IsFederatedMember;
  }

  lemma NeutralTouchesNothing(ev: Event, k: Key)
    requires Neutral(ev)
    ensures !Touches(ev, k)
  {
  }

  lemma ReplacedLone(events: seq<Event>, i: nat, spawned: seq<Event>, again: seq<Event>, after: seq<Event>)
    requires Lone(events) && Replaces(events, i, spawned, again, after) && Lone(spawned)
    requires forall l, k :: 0 <= l < |spawned| && Touches(spawned[l], k) ==> Touches(events[i], k)
    ensures Lone(after)
  {
    hide Touches, Neutral;
    var rest := events[..i] + events[i + 1..];
    forall a, b, k | 0 <= a < b < |after| && Touches(after[a], k) ensures !Touches(after[b], k) {
      QueueOrigin(rest, spawned, again, events, i, a);
      QueueOrigin(rest, spawned, again, events, i, b);
      if after[a] in again {
        NeutralTouchesNothing(after[a], k);
      } else if after[b] in again {
        NeutralTouchesNothing(after[b], k);
      } else if a < |rest| {
        var ja, jb := if a < i then a else a + 1, if b < i then b else b + 1;
        assert after[a] == events[ja];
        if b < |rest| {
          assert after[b] == events[jb];
        } else {
          assert !(Touches(events[ja], k) && Touches(events[i], k));
        }
      }
    }
  }

  lemma StepStaysLone(cfg: Config, sys: System, i: nat, env: Env)
    requires Tracking(cfg, sys) && i < |sys.queue| && Smooth(cfg, env, sys.queue[i].event)
    requires Lone(Events(sys.queue)) && !FederatedLike(cfg.link.cluster)
    ensures Welcome(cfg, sys, i, env) && Lone(Events(Step(cfg, sys, i, env).queue))
  {
    hide Handle, Step, Consistent, Orderly, Progress, AllBase, Succeeds, Routable, Local, RemoteOk, Replaces, Lone;
    hide FederatedLike, Neutral, Polite, Touches, About, Apt;
    var ev := sys.queue[i].event;
    var out := Handle(cfg, sys.remote, env, sys.st, ev);
    LoneIsPolite(Events(sys.queue), i);
    OrderlyAt(cfg, sys.remote, sys.st, Events(sys.queue), i);
    HandleLocal(cfg, sys.remote, env, sys.st, ev);
    LocalParts(cfg, sys.remote, sys.st, ev, out);
    EventsAfter(cfg, sys, i, env, out);
    SuccessIsValid(env);
    SpawnsLone(cfg, sys.remote, env, sys.st, ev);
    ReplacedLone(Events(sys.queue), i, out.spawned, Events(Requeued(cfg, sys.queue[i], out)),
                 Events(Step(cfg, sys, i, env).queue));
  }

  /* ---------- the order of the queue ---------- */

  predicate ReportsNamespaceOf(ev: Event, k: Key) {
    ev.NamespaceAdded? && ev.ns == k.ns
  }

  predicate DecidesOn(ev: Event, k: Key) {
    Decides(ev) && ev.key == k
  }

  /** The event reports k, and is still to be decided upon. */
  predicate Asks(ev: Event, k: Key) {
    DecidesOn(ev, k) || (ev.OnDelete? && ev.key == k)
  }

  /** Handled in this order, the second event would meet what the first one queues: a decision on k comes before
      another one, or before an export or update of k, or the namespace of k is reported before either. */
  predicate Clash(first: Event, second: Event, k: Key) {
    || (DecidesOn(first, k) && (DecidesOn(second, k) || (Acts(second) && second.key == k)))
    || (ReportsNamespaceOf(first, k) && (DecidesOn(second, k) || ReportsNamespaceOf(second, k)))
  }

  ghost predicate Ordered(events: seq<Event>) {
    forall i, j, k :: 0 <= i < j < |events| ==> !Clash(events[i], events[j], k)
  }

  lemma ClashingTouches(first: Event, second: Event, k: Key)
    requires Clash(first, second, k)
    ensures Touches(first, k) && Touches(second, k)
  {
  }

  lemma LoneIsOrdered(events: seq<Event>)
    requires Lone(events)
    ensures Ordered(events)
  {
    hide Touches, Clash;
    forall i, j, k | 0 <= i < j < |events| ensures !Clash(events[i], events[j], k) {
      if Clash(events[i], events[j], k) {
        ClashingTouches(events[i], events[j], k);
      }
    }
  }

  lemma FirstIsPolite(events: seq<Event>)
    requires Ordered(events) && events != []
    ensures Polite(events, 0)
  {
    if Decides(events[0]) {
      forall j | 0 <= j < |events| && Acts(events[j]) ensures events[j].key != events[0].key {
        assert j > 0 ==> !Clash(events[0], events[j], events[0].key);
      }
    }
  }

  lemma DeletionQueuesNoClash(cfg: Config, st: State, ev: Event, first: Event, k: Key)
    requires ev.OnDelete?
    ensures var spawned := HandleDelete(cfg, st, ev).spawned;
            forall i :: 0 <= i < |spawned| ==> !Clash(first, spawned[i], k)
  {
    hide Desired, IsFederatedMember;
  }

  lemma DeletionIsHandled(cfg: Config, remote: Remote, env: Env, st: State, ev: Event)
    requires ev.OnDelete?
    ensures Handle(cfg, remote, env, st, ev) == HandleDelete(cfg, st, ev)
  {
    hide HandleDelete;
  }

  /** What an event queues does not clash with what was queued after it. */
  lemma SpawnedLater(cfg: Config, remote: Remote, env: Env, st: State, ev: Event, later: Event, i: nat, k: Key)
    requires ValidEnv(env) && Expected(ev) && !Clash(ev, later, k)
    requires i < |Handle(cfg, remote, env, st, ev).spawned|
    ensures !Clash(later, Handle(cfg, remote, env, st, ev).spawned[i], k)
  {
    hide Handle, ValidEnv, Expected;
    var e := Handle(cfg, remote, env, st, ev).spawned[i];
    SpawnShape(cfg, remote, env, st, ev);
    SpawnsLone(cfg, remote, env, st, ev);
    assert e in Handle(cfg, remote, env, st, ev).spawned;
    if ev.OnDelete? {
      DeletionQueuesNoClash(cfg, st, ev, later, k);
      DeletionIsHandled(cfg, remote, env, st, ev);
    } else if Clash(later, e, k) {
      ClashingTouches(later, e, k);
      assert Touches(ev, k);
    }
  }

  lemma NeutralDoesNotClash(ev: Event)
    requires Neutral(ev)
    ensures forall e, k :: !Clash(ev, e, k) && !Clash(e, ev, k)
  {
  }

  lemma ReplacedOrdered(cfg: Config, remote: Remote, env: Env, st: State, events: seq<Event>, again: seq<Event>,
                        after: seq<Event>)
    requires ValidEnv(env) && events != [] && Expected(events[0]) && Ordered(events)
    requires Replaces(events, 0, Handle(cfg, remote, env, st, events[0]).spawned, again, after)
    ensures Ordered(after)
  {
    hide Handle, ValidEnv, Expected, Clash, Neutral, Lone;
    var spawned := Handle(cfg, remote, env, st, events[0]).spawned;
    var rest := events[1..];
    assert events[..0] + events[1..] == rest;
    forall a, b, k | 0 <= a < b < |after| ensures !Clash(after[a], after[b], k) {
      QueueOrigin(rest, spawned, again, events, 0, a);
      QueueOrigin(rest, spawned, again, events, 0, b);
      if after[a] in again {
        NeutralDoesNotClash(after[a]);
      } else if after[b] in again {
        NeutralDoesNotClash(after[b]);
      } else if b < |rest| {
        assert after[a] == events[a + 1] && after[b] == events[b + 1];
      } else if a < |rest| {
        assert after[a] == events[a + 1] && !Clash(events[0], events[a + 1], k);
        SpawnedLater(cfg, remote, env, st, events[0], after[a], b - |rest|, k);
      } else {
        SpawnsLone(cfg, remote, env, st, events[0]);
        LoneIsOrdered(spawned);
      }
    }
  }

  lemma StepStaysOrdered(cfg: Config, sys: System, env: Env)
    requires Tracking(cfg, sys) && sys.queue != [] && Smooth(cfg, env, sys.queue[0].event)
    requires Ordered(Events(sys.queue)) && !FederatedLike(cfg.link.cluster)
    ensures Welcome(cfg, sys, 0, env) && Ordered(Events(Step(cfg, sys, 0, env).queue))
  {
    hide Handle, Step, Consistent, Orderly, Progress, AllBase, Succeeds, Routable, Local, RemoteOk, Replaces, Ordered;
    hide FederatedLike, Neutral, Polite, About, Apt;
    var ev := sys.queue[0].event;
    var out := Handle(cfg, sys.remote, env, sys.st, ev);
    FirstIsPolite(Events(sys.queue));
    OrderlyAt(cfg, sys.remote, sys.st, Events(sys.queue), 0);
    HandleLocal(cfg, sys.remote, env, sys.st, ev);
    LocalParts(cfg, sys.remote, sys.st, ev, out);
    EventsAfter(cfg, sys, 0, env, out);
    SuccessIsValid(env);
    ReplacedOrdered(cfg, sys.remote, env, sys.st, Events(sys.queue), Events(Requeued(cfg, sys.queue[0], out)),
                    Events(Step(cfg, sys, 0, env).queue));
  }

  /* ---------- runs ---------- */

  /** An input arrives while no report of its namespace is queued, or as a restart whose reports do not clash. A
      queued event is handled without a failure: the first one, or any while no two are about one service. */
  ghost predicate Fits(cfg: Config, sys: System, action: Action) {
    match action
    case Accept(input, _) => Possible(cfg, sys, input) && Timely(sys, input)
    case Perform(choice) =>
      && choice.index < |sys.queue| && Smooth(cfg, choice.env, sys.queue[choice.index].event)
      && (choice.index == 0 || Lone(Events(sys.queue)))
  }

  ghost predicate Timely(sys: System, input: Input) {
    match input
    case RemoteAdd(k, _) => NamespaceUnreported(sys, k.ns)
    case RemoteUpdate(k, _) => NamespaceUnreported(sys, k.ns)
    case RemoteDelete(_) => true
    case NamespaceAppears(ns) => NamespaceUnreported(sys, ns)
    case Restart(_, events) => Ordered(events)
  }

  predicate NamespaceUnreported(sys: System, ns: string) {
    forall i :: 0 <= i < |sys.queue| ==> sys.queue[i].event != NamespaceAdded(ns)
  }

  ghost predicate Runs(cfg: Config, sys: System, actions: seq<Action>)
    decreases |actions|
  {
    actions == [] || (Fits(cfg, sys, actions[0]) && Runs(cfg, Apply(cfg, sys, actions[0]), actions[1..]))
  }

  lemma AcceptedIsOrdered(cfg: Config, sys: System, input: Input, endpoints: map<Key, Endpoints>)
    requires Possible(cfg, sys, input) && Timely(sys, input) && Ordered(Events(sys.queue))
    ensures Ordered(Events(Receive(sys, input, endpoints).queue))
  {
    hide Unreused, Headless, Initial, Collecting;
    var events := Events(Receive(sys, input, endpoints).queue);
    if input.Restart? {
      assert events == input.events;
    } else {
      ReportIsLast(sys, input, endpoints);
      var n := |sys.queue|;
      forall i, j, k | 0 <= i < j < |events| ensures !Clash(events[i], events[j], k) {
        assert events[i] == sys.queue[i].event && events[i] == Events(sys.queue)[i];
        if j < n {
          assert events[j] == Events(sys.queue)[j];
        } else {
          ReportDoesNotClash(cfg, sys, input, sys.queue[i].event, k);
        }
      }
    }
  }

  lemma ReportDoesNotClash(cfg: Config, sys: System, input: Input, ev: Event, k: Key)
    requires Possible(cfg, sys, input) && Timely(sys, input) && !input.Restart?
    requires exists i :: 0 <= i < |sys.queue| && sys.queue[i].event == ev
    ensures !Clash(ev, Report(sys, input), k)
  {
    hide Unreused, Headless, Collecting;
  }

  /** In such runs nothing is decided upon too early. */
  lemma {:induction false} RunsProceed(cfg: Config, sys: System, actions: seq<Action>)
    requires Tracking(cfg, sys) && Ordered(Events(sys.queue)) && Runs(cfg, sys, actions)
    requires !FederatedLike(cfg.link.cluster)
    ensures Proceeds(cfg, sys, actions)
    decreases |actions|
  {
    hide Tracking, Lone, Ordered, Step, Receive, FederatedLike, Smooth, Polite, Initial, Unreused, Headless, Quiet;
    hide Collecting, NamespaceUnreported;
    if actions != [] {
      match actions[0] {
        case Accept(input, endpoints) => AcceptedIsOrdered(cfg, sys, input, endpoints);
        case Perform(choice) => PerformedIsOrdered(cfg, sys, choice);
      }
      ActionTracks(cfg, sys, actions[0]);
      RunsProceed(cfg, Apply(cfg, sys, actions[0]), actions[1..]);
    }
  }

  lemma PerformedIsOrdered(cfg: Config, sys: System, choice: Choice)
    requires Tracking(cfg, sys) && Ordered(Events(sys.queue)) && !FederatedLike(cfg.link.cluster)
    requires choice.index < |sys.queue| && Smooth(cfg, choice.env, sys.queue[choice.index].event)
    requires choice.index == 0 || Lone(Events(sys.queue))
    ensures Welcome(cfg, sys, choice.index, choice.env)
    ensures Ordered(Events(Step(cfg, sys, choice.index, choice.env).queue))
  {
    hide Tracking, Lone, Ordered, Step, FederatedLike, Smooth, Polite;
    if Lone(Events(sys.queue)) {
      StepStaysLone(cfg, sys, choice.index, choice.env);
      LoneIsOrdered(Events(Step(cfg, sys, choice.index, choice.env).queue));
    } else {
      StepStaysOrdered(cfg, sys, choice.env);
    }
  }

  /** In every run that starts with no mirrors, in which nothing fails, events are handled in the order of the queue
      or in any order while no two are about one service, no service changes while an event about it is queued, and
      no service or namespace is reported while a report of its namespace is queued: whenever the queue is empty the
      mirrors are exactly the image of the wanted remote services, and until a restart the status of a link to
      another cluster is true exactly where there is one. */
  lemma QueueOrderRefinement(cfg: Config, sys: System, actions: seq<Action>)
    requires Untouched(cfg, sys) && Runs(cfg, sys, actions) && !FederatedLike(cfg.link.cluster)
    ensures Proceeds(cfg, sys, actions)
    ensures var end := Reached(cfg, sys, actions);
            && (end.queue == [] ==> MirrorsExactly(cfg, end))
            && (cfg.link.cluster != "" && !Restarts(actions) ==> StatusExactly(cfg, end))
  {
    hide Untouched, MirrorsExactly, StatusExactly, Proceeds, Reached, FederatedLike, Restarts, Runs, Tracking, Lone;
    hide InSync, Untroubled, Ordered;
    UntouchedTracks(cfg, sys);
    UntouchedIsLone(cfg, sys);
    LoneIsOrdered(Events(sys.queue));
    RunsProceed(cfg, sys, actions);
    MirrorRefinement(cfg, sys, actions);
  }

  lemma UntouchedIsLone(cfg: Config, sys: System)
    requires Untouched(cfg, sys)
    ensures Lone(Events(sys.queue))
  {
    hide OfLink, Reported;
  }

  /* ---------- draining between inputs ---------- */

  /** An input arrives when the queue is empty, or as a restart that reports no service twice, and a queued event,
      whichever it is, is handled without a failure. */
  ghost predicate Rounds(cfg: Config, sys: System, actions: seq<Action>)
    decreases |actions|
  {
    actions == [] ||
    (&& (actions[0].Accept? ==> Possible(cfg, sys, actions[0].input) && InRounds(sys, actions[0].input))
     && (actions[0].Perform? ==>
           var choice := actions[0].choice;
           choice.index < |sys.queue| && Smooth(cfg, choice.env, sys.queue[choice.index].event))
     && Rounds(cfg, Apply(cfg, sys, actions[0]), actions[1..]))
  }

  ghost predicate InRounds(sys: System, input: Input) {
    if input.Restart? then Lone(input.events) else sys.queue == []
  }

  lemma AcceptedIsLone(cfg: Config, sys: System, input: Input, endpoints: map<Key, Endpoints>)
    requires Possible(cfg, sys, input) && InRounds(sys, input)
    ensures Timely(sys, input) && Lone(Events(Receive(sys, input, endpoints).queue))
  {
    hide Touches, Unreused, Headless, Quiet;
    if input.Restart? {
      LoneIsOrdered(input.events);
      assert Events(Receive(sys, input, endpoints).queue) == input.events;
    }
  }

  /** Where the queue drains between inputs, no condition on the order of events is left. */
  lemma {:induction false} RoundsRun(cfg: Config, sys: System, actions: seq<Action>)
    requires Tracking(cfg, sys) && Lone(Events(sys.queue)) && Rounds(cfg, sys, actions)
    requires !FederatedLike(cfg.link.cluster)
    ensures Runs(cfg, sys, actions)
    decreases |actions|
  {
    hide Tracking, Lone, Step, Receive, FederatedLike, Smooth, Polite, Unreused, Headless, Quiet, Collecting, Initial;
    if actions != [] {
      match actions[0] {
        case Accept(input, endpoints) => AcceptedIsLone(cfg, sys, input, endpoints);
        case Perform(choice) => StepStaysLone(cfg, sys, choice.index, choice.env);
      }
      ActionTracks(cfg, sys, actions[0]);
      RoundsRun(cfg, Apply(cfg, sys, actions[0]), actions[1..]);
    }
  }

  /** Where the queue drains between remote additions, updates, deletions and new namespaces, and every call
      succeeds, the events of each round may be handled in any order: whenever the queue is empty the mirrors are
      exactly the image of the wanted remote services, and until a restart the status of a link to another cluster is
      true exactly where there is one. */
  lemma DrainedRefinement(cfg: Config, sys: System, actions: seq<Action>)
    requires Untouched(cfg, sys) && Rounds(cfg, sys, actions) && !FederatedLike(cfg.link.cluster)
    ensures Proceeds(cfg, sys, actions)
    ensures var end := Reached(cfg, sys, actions);
            && (end.queue == [] ==> MirrorsExactly(cfg, end))
            && (cfg.link.cluster != "" && !Restarts(actions) ==> StatusExactly(cfg, end))
  {
    hide Untouched, MirrorsExactly, StatusExactly, Proceeds, Reached, FederatedLike, Restarts, Rounds, Tracking, Lone;
    UntouchedTracks(cfg, sys);
    UntouchedIsLone(cfg, sys);
    RoundsRun(cfg, sys, actions);
    QueueOrderRefinement(cfg, sys, actions);
  }

  /* ---------- starting ---------- */

  /** The first n queued events, in the order of the queue. */
  ghost function InOrder(cfg: Config, sys: System, env: Env, n: nat): System
    decreases n
  {
    if n == 0 || sys.queue == [] then sys else InOrder(cfg, Step(cfg, sys, 0, env), env, n - 1)
  }

  lemma InOrderUnfolds(cfg: Config, sys: System, env: Env)
    ensures InOrder(cfg, sys, env, 0) == sys
    ensures sys.queue != [] ==>
              forall n: nat :: n > 0 ==> InOrder(cfg, sys, env, n) == InOrder(cfg, Step(cfg, sys, 0, env), env, n - 1)
  {
    hide Step;
  }

  /** Handling a queue without clashes in its order empties it, and nothing is lost on the way. */
  lemma {:induction false} OrderedDrains(cfg: Config, sys: System, env: Env) returns (n: nat)
    requires Tracking(cfg, sys) && Ordered(Events(sys.queue)) && Succeeds(env) && !FederatedLike(cfg.link.cluster)
    requires Resolves(cfg, env) || DiscoveryOnly(cfg, sys.remote)
    ensures var end := InOrder(cfg, sys, env, n); end.queue == [] && Tracking(cfg, end)
    decreases Potential(cfg, sys.remote, sys.queue)
  {
    hide Step, Potential, Resolves, Tracking, FederatedLike, DiscoveryOnly, Succeeds, Ordered, InOrder;
    InOrderUnfolds(cfg, sys, env);
    n := 0;
    if sys.queue != [] {
      SuccessIsValid(env);
      if !Resolves(cfg, env) {
        NeedsNoGateway(cfg, sys, env, 0);
      }
      StepStaysOrdered(cfg, sys, env);
      StepTracks(cfg, sys, 0, env);
      StepUsesPotential(cfg, sys, 0, env);
      StepKeepsRemote(cfg, sys, 0, env);
      n := OrderedDrains(cfg, Step(cfg, sys, 0, env), env);
      n := n + 1;
    }
  }

  /** What a starting watcher queues when its service informer is heard before its namespace informer: the
      collection, every remote service, then every local namespace. */
  function ServicesFirst(services: map<Key, Service>, keys: seq<Key>, names: seq<string>): seq<Event> {
    [GcTriggered] + OnAdds(Remote(services, map[]), keys)
    + seq(|names|, i requires 0 <= i < |names| => NamespaceAdded(names[i]))
  }

  predicate Distinct<T(==)>(s: seq<T>) {
    forall i, j :: 0 <= i < j < |s| ==> s[i] != s[j]
  }

  /** The collection, then the services, then the namespaces. */
  ghost predicate Listed(services: map<Key, Service>, keys: seq<Key>, names: seq<string>, events: seq<Event>) {
    && |events| == 1 + |keys| + |names| && events[0] == GcTriggered
    && (forall i :: 0 < i <= |keys| ==>
          keys[i - 1] in services && events[i] == OnAdd(keys[i - 1], services[keys[i - 1]]))
    && (forall i :: |keys| < i < |events| ==> events[i] == NamespaceAdded(names[i - 1 - |keys|]))
  }

  lemma ServicesFirstIsListed(services: map<Key, Service>, keys: seq<Key>, names: seq<string>)
    requires Enumerates(keys, services.Keys)
    ensures Listed(services, keys, names, ServicesFirst(services, keys, names))
  {
    hide OnAdds;
    OnAddsExact(Remote(services, map[]), keys);
  }

  lemma ListedIsOrdered(services: map<Key, Service>, keys: seq<Key>, names: seq<string>, events: seq<Event>)
    requires Enumerates(keys, services.Keys) && Distinct(names) && Listed(services, keys, names, events)
    ensures Ordered(events)
  {
    forall i, j, k | 0 <= i < j < |events| ensures !Clash(events[i], events[j], k) {
      if i <= |keys| < j || i == 0 {
      } else if j <= |keys| {
        assert keys[i - 1] != keys[j - 1];
      } else {
        assert names[i - 1 - |keys|] != names[j - 1 - |keys|];
      }
    }
  }

  lemma ListedIsInitial(services: map<Key, Service>, keys: seq<Key>, names: seq<string>, events: seq<Event>)
    requires Enumerates(keys, services.Keys) && Listed(services, keys, names, events)
    ensures Initial(services, events)
  {
    forall k | k in services ensures OnAdd(k, services[k]) in events {
      assert k in keys;
      var i :| 0 <= i < |keys| && keys[i] == k;
      assert events[i + 1] == OnAdd(k, services[k]);
    }
  }

  /** A watcher that starts among the mirrors of an earlier run, with its services reported before the namespaces
      around them, and handles its queue in order: mirrors become exact. */
  lemma StartConverges(cfg: Config, sys: System, services: map<Key, Service>, keys: seq<Key>, names: seq<string>,
                       endpoints: map<Key, Endpoints>, env: Env) returns (n: nat)
    requires ShapeOk(cfg, sys.st) && forall n :: n in sys.st.services ==> sys.st.services[n].version < sys.st.now
    requires AllBase(cfg, Remote(map[], map[]), sys.st) && !FederatedLike(cfg.link.cluster)
    requires Enumerates(keys, services.Keys) && Distinct(names)
    requires forall k :: k in services ==>
               !Headless(services[k]) && Unreused(cfg, k, services[k], ViewAt(cfg, sys.st, k))
    requires Succeeds(env) && (Resolves(cfg, env) || DiscoveryOnly(cfg, Remote(services, endpoints)))
    ensures var start := Receive(sys, Restart(services, ServicesFirst(services, keys, names)), endpoints);
            var end := InOrder(cfg, start, env, n); end.queue == [] && MirrorsExactly(cfg, end)
  {
    hide ShapeOk, AllBase, FederatedLike, Unreused, Headless, ViewAt, Succeeds, Resolves, DiscoveryOnly, InOrder;
    hide Ordered, Initial, Tracking, ServicesFirst, Listed, MirrorsExactly;
    var events := ServicesFirst(services, keys, names);
    ServicesFirstIsListed(services, keys, names);
    ListedIsOrdered(services, keys, names, events);
    ListedIsInitial(services, keys, names, events);
    RestartTracks(cfg, sys, services, events, endpoints);
    var start := Receive(sys, Restart(services, events), endpoints);
    assert Events(start.queue) == events;
    n := OrderedDrains(cfg, start, env);
    DrainedMirrors(cfg, InOrder(cfg, start, env, n));
  }
}
