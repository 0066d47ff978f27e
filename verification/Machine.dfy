/** The watcher's work queue: events with an identity and a requeue count, handled one at a time. */
module Machine {
  import opened Kubernetes
  import opened Mirror
  import opened StatusList
  import opened Federation
  import opened Api
  import opened Handlers

  datatype Item = Item(id: nat, event: Event, requeues: nat)

  datatype System = System(remote: Remote, st: Handlers.State, queue: seq<Item>, nextId: nat)

  function Fresh(events: seq<Event>, id: nat): (items: seq<Item>)
    ensures |items| == |events|
  {
    seq(|events|, i requires 0 <= i < |events| => Item(id + i, events[i], 0))
  }

  /** A retryable error puts the event back until its requeue limit is reached. */
  function Requeued(cfg: Config, item: Item, out: Out): seq<Item> {
    if out.outcome == Retry && item.requeues < cfg.requeueLimit then [Item(item.id, out.event, item.requeues + 1)]
    else []
  }

  function Drop(queue: seq<Item>, i: nat): seq<Item>
    requires i < |queue|
  {
    queue[..i] + queue[i + 1..]
  }

  /** Handles the i-th queued event. Rate limiting delays requeued events arbitrarily, so i is free. */
  function Step(cfg: Config, sys: System, i: nat, env: Env): System
    requires i < |sys.queue|
  {
    var item := sys.queue[i];
    var out := Handle(cfg, sys.remote, env, sys.st, item.event);
    System(
      sys.remote,
      out.st.(now := sys.st.now + 1),
      Drop(sys.queue, i) + Fresh(out.spawned, sys.nextId) + Requeued(cfg, item, out),
      sys.nextId + |out.spawned|)
  }

  datatype Choice = Choice(index: nat, env: Env)

  /** A run of the processing loop without new informer input. */
  ghost predicate Follows(cfg: Config, sys: System, trace: seq<Choice>)
    decreases |trace|
  {
    trace == [] ||
    (trace[0].index < |sys.queue| && ValidEnv(trace[0].env) &&
     Follows(cfg, Step(cfg, sys, trace[0].index, trace[0].env), trace[1..]))
  }

  ghost function Run(cfg: Config, sys: System, trace: seq<Choice>): System
    requires Follows(cfg, sys, trace)
    decreases |trace|
  {
    if trace == [] then sys
    else Run(cfg, Step(cfg, sys, trace[0].index, trace[0].env), trace[1..])
  }

  /* ---------- termination ---------- */

  /** How often a new event can be handled. */
  function Attempts(cfg: Config): nat {
    if cfg.requeueLimit < 0 then 1 else cfg.requeueLimit + 1
  }

  /** How often a queued event can still be handled. */
  function Left(cfg: Config, item: Item): (n: nat)
    ensures 1 <= n <= Attempts(cfg)
  {
    if item.requeues >= cfg.requeueLimit then 1 else cfg.requeueLimit - item.requeues + 1
  }

  /** Upper bound on the handlings one handling of an event is responsible for, itself included. */
  function Cost(cfg: Config, remote: Remote, ev: Event): (n: nat)
    ensures n >= 1
  {
    var a := Attempts(cfg);
    match ev
    case OnAdd(_, _) => 1 + 2 * a
    case OnUpdate(_, _) => 1 + 2 * a
    case OnDelete(_, _) => 1 + 2 * a
    case NamespaceAdded(ns) => 1 + |RemoteIn(remote, ns)| * (a * (1 + 2 * a))
    case _ => 1
  }

  function Weight(cfg: Config, remote: Remote, item: Item): nat {
    Left(cfg, item) * Cost(cfg, remote, item.event)
  }

  function Potential(cfg: Config, remote: Remote, queue: seq<Item>): nat {
    if queue == [] then 0 else Weight(cfg, remote, queue[0]) + Potential(cfg, remote, queue[1..])
  }

  lemma {:induction false} PotentialOfConcat(cfg: Config, remote: Remote, a: seq<Item>, b: seq<Item>)
    ensures Potential(cfg, remote, a + b) == Potential(cfg, remote, a) + Potential(cfg, remote, b)
  {
    if a == [] {
      assert a + b == b;
    } else {
      PotentialOfConcat(cfg, remote, a[1..], b);
      assert (a + b)[1..] == a[1..] + b;
    }
  }

  lemma {:induction false} EnumerationSize(s: seq<Key>, keys: set<Key>)
    requires Enumerates(s, keys)
    ensures |s| == |keys|
  {
    if s == [] {
      assert keys == {};
    } else {
      var rest := keys - {s[0]};
      assert s[0] in s;
      forall k | k in rest ensures k in s[1..] {
        var i :| 0 <= i < |s| && s[i] == k;
        assert s[1..][i - 1] == k;
      }
      EnumerationSize(s[1..], rest);
    }
  }

  lemma {:induction false} OnAddsShape(remote: Remote, keys: seq<Key>)
    ensures |OnAdds(remote, keys)| <= |keys|
    ensures forall e :: e in OnAdds(remote, keys) <==>
              e.OnAdd? && e.key in keys && e.key in remote.services && e.svc == remote.services[e.key]
  {
    if keys != [] {
      var n := |keys| - 1;
      OnAddsShape(remote, keys[..n]);
      assert keys == keys[..n] + [keys[n]];
    }
  }

  /** Events that queue nothing further. */
  predicate Leaf(ev: Event) {
    !ev.OnAdd? && !ev.OnUpdate? && !ev.OnDelete? && !ev.NamespaceAdded?
  }

  lemma SpawnShape(cfg: Config, remote: Remote, env: Env, st: Handlers.State, ev: Event)
    requires ValidEnv(env)
    ensures var out := Handle(cfg, remote, env, st, ev);
            && Cost(cfg, remote, out.event) == Cost(cfg, remote, ev)
            && (Leaf(ev) ==> out.spawned == [])
            && (!Leaf(ev) && !ev.NamespaceAdded? ==> |out.spawned| <= 2 && forall e :: e in out.spawned ==> Leaf(e))
            && (ev.NamespaceAdded? ==>
                  |out.spawned| <= |RemoteIn(remote, ev.ns)| && forall e :: e in out.spawned ==> e.OnAdd?)
  {
    hide CreateOrUpdate, HandleDelete, HandleEndpoints, HandleExported, HandleUpdated, HandleUnexported;
    hide HandleCreateFederated;
    hide HandleJoin, HandleLeave, HandleCleanup, HandleGc, HandleRepair, OnAdds;
    if ev.NamespaceAdded? {
      var keys := RemoteIn(remote, ev.ns);
      assert Enumerates(env.list(keys), keys);
      EnumerationSize(env.list(keys), keys);
      OnAddsShape(remote, env.list(keys));
    } else if ev.OnAdd? || ev.OnUpdate? {
      DecisionShape(cfg, env, st, ev);
    } else if ev.OnDelete? {
      DeletionShape(cfg, st, ev);
    } else if ev.Updated? {
      UpdateShape(cfg, remote, env, st, ev);
    } else if ev.JoinFederated? {
      JoinShape(cfg, env, st, ev);
    }
  }

  lemma DecisionShape(cfg: Config, env: Env, st: Handlers.State, ev: Event)
    requires ev.OnAdd? || ev.OnUpdate?
    ensures var out := CreateOrUpdate(cfg, env, st, ev);
            out.event == ev && |out.spawned| <= 2 && forall e :: e in out.spawned ==> Leaf(e)
  {
    hide MirrorKey, FederatedKey, Desired, IsFederatedMember, PutFederatedStatus, Get, Failure;
  }

  lemma DeletionShape(cfg: Config, st: Handlers.State, ev: Event)
    requires ev.OnDelete?
    ensures var out := HandleDelete(cfg, st, ev);
            out.event == ev && |out.spawned| <= 2 && forall e :: e in out.spawned ==> Leaf(e)
  {
    hide Desired, IsFederatedMember;
  }

  lemma UpdateShape(cfg: Config, remote: Remote, env: Env, st: Handlers.State, ev: Event)
    requires ev.Updated?
    ensures var out := HandleUpdated(cfg, remote, env, st, ev); out.event.Updated? && out.spawned == []
  {
    hide UpdateMode, UpdatedLocal, UpdateService, PutMirrorStatus, MirrorKey, Failure, Mirrored;
  }

  lemma JoinShape(cfg: Config, env: Env, st: Handlers.State, ev: Event)
    requires ev.JoinFederated?
    ensures var out := HandleJoin(cfg, env, st, ev); out.event.JoinFederated? && out.spawned == []
  {
    hide UpdateService, PutFederatedStatus, JoinedAnnotations, FederatedKey, Failure, Mirrored;
  }

  lemma NewItemWeight(cfg: Config, remote: Remote, item: Item)
    requires item.requeues == 0
    ensures Weight(cfg, remote, item) == Attempts(cfg) * Cost(cfg, remote, item.event)
  {
    hide Cost;
    assert Left(cfg, item) == Attempts(cfg);
  }

  lemma {:induction false} FreshPotential(cfg: Config, remote: Remote, events: seq<Event>, id: nat, w: nat)
    requires forall i :: 0 <= i < |events| ==> Attempts(cfg) * Cost(cfg, remote, events[i]) <= w
    ensures Potential(cfg, remote, Fresh(events, id)) <= |events| * w
  {
    hide Cost, Attempts, Weight;
    if events != [] {
      var items := Fresh(events, id);
      assert items[1..] == Fresh(events[1..], id + 1);
      FreshPotential(cfg, remote, events[1..], id + 1, w);
      assert Weight(cfg, remote, items[0]) <= w by { NewItemWeight(cfg, remote, items[0]); }
      OnceMore(|events|, w);
    }
  }

  lemma OnceMore(n: nat, w: nat)
    requires n > 0
    ensures n * w == w + (n - 1) * w
  {
  }

  lemma ScaleDown(n: nat, m: nat, w: nat)
    requires n <= m
    ensures n * w <= m * w
  {
  }

  /** What an event queues costs less than the event. */
  lemma SpawnedCost(cfg: Config, remote: Remote, env: Env, st: Handlers.State, ev: Event, id: nat)
    requires ValidEnv(env)
    ensures var out := Handle(cfg, remote, env, st, ev);
            Potential(cfg, remote, Fresh(out.spawned, id)) < Cost(cfg, remote, ev)
  {
    hide Handle, Potential, Fresh, Attempts;
    var out := Handle(cfg, remote, env, st, ev);
    var a := Attempts(cfg);
    SpawnShape(cfg, remote, env, st, ev);
    if ev.NamespaceAdded? {
      var w := a * (1 + 2 * a);
      forall i | 0 <= i < |out.spawned| ensures a * Cost(cfg, remote, out.spawned[i]) <= w {
        assert out.spawned[i] in out.spawned;
        assert Cost(cfg, remote, out.spawned[i]) == 1 + 2 * a;
      }
      FreshPotential(cfg, remote, out.spawned, id, w);
      ScaleDown(|out.spawned|, |RemoteIn(remote, ev.ns)|, w);
    } else if !Leaf(ev) {
      forall i | 0 <= i < |out.spawned| ensures a * Cost(cfg, remote, out.spawned[i]) <= a {
        assert out.spawned[i] in out.spawned;
        assert Cost(cfg, remote, out.spawned[i]) == 1;
      }
      FreshPotential(cfg, remote, out.spawned, id, a);
      ScaleDown(|out.spawned|, 2, a);
    } else {
      assert Potential(cfg, remote, Fresh([], id)) == 0 by { NothingFresh(cfg, remote, id); }
    }
  }

  lemma NothingFresh(cfg: Config, remote: Remote, id: nat)
    ensures Potential(cfg, remote, Fresh([], id)) == 0
  {
  }

  lemma ReplacingUsesPotential(cfg: Config, remote: Remote, q: seq<Item>, i: nat, spawned: seq<Item>, again: seq<Item>)
    requires i < |q|
    requires Potential(cfg, remote, spawned) + Potential(cfg, remote, again) < Weight(cfg, remote, q[i])
    ensures Potential(cfg, remote, Drop(q, i) + spawned + again) < Potential(cfg, remote, q)
  {
    hide Weight;
    assert q == q[..i] + ([q[i]] + q[i + 1..]);
    PotentialOfConcat(cfg, remote, q[..i], [q[i]] + q[i + 1..]);
    PotentialOfConcat(cfg, remote, [q[i]], q[i + 1..]);
    PotentialOfConcat(cfg, remote, q[..i], q[i + 1..]);
    PotentialOfConcat(cfg, remote, Drop(q, i), spawned);
    PotentialOfConcat(cfg, remote, Drop(q, i) + spawned, again);
  }

  lemma RequeueCost(cfg: Config, remote: Remote, item: Item, out: Out)
    requires Cost(cfg, remote, out.event) == Cost(cfg, remote, item.event)
    ensures Potential(cfg, remote, Requeued(cfg, item, out)) + Cost(cfg, remote, item.event)
            <= Weight(cfg, remote, item)
  {
    hide Cost;
    var c, n, again := Cost(cfg, remote, item.event), Left(cfg, item), Requeued(cfg, item, out);
    assert n * c == (n - 1) * c + c;
    if again != [] {
      assert again[1..] == [];
      assert Potential(cfg, remote, again) == Weight(cfg, remote, again[0]) == (n - 1) * c;
    }
  }

  /** Every handling uses up potential, whatever fails and whichever event is taken. */
  lemma StepUsesPotential(cfg: Config, sys: System, i: nat, env: Env)
    requires i < |sys.queue| && ValidEnv(env)
    ensures Potential(cfg, sys.remote, Step(cfg, sys, i, env).queue) < Potential(cfg, sys.remote, sys.queue)
  {
    hide Handle, Cost, Weight, Potential, Fresh, Requeued, Drop;
    var item := sys.queue[i];
    var out := Handle(cfg, sys.remote, env, sys.st, item.event);
    SpawnShape(cfg, sys.remote, env, sys.st, item.event);
    SpawnedCost(cfg, sys.remote, env, sys.st, item.event, sys.nextId);
    RequeueCost(cfg, sys.remote, item, out);
    ReplacingUsesPotential(cfg, sys.remote, sys.queue, i, Fresh(out.spawned, sys.nextId), Requeued(cfg, item, out));
  }

  /** With no new informer input, every run is bounded by the potential of the queue it starts from. */
  lemma {:induction false} QueueTerminates(cfg: Config, sys: System, trace: seq<Choice>)
    requires Follows(cfg, sys, trace)
    ensures |trace| + Potential(cfg, sys.remote, Run(cfg, sys, trace).queue) <= Potential(cfg, sys.remote, sys.queue)
    decreases |trace|
  {
    hide Potential, Handle;
    if trace != [] {
      var sys' := Step(cfg, sys, trace[0].index, trace[0].env);
      StepUsesPotential(cfg, sys, trace[0].index, trace[0].env);
      QueueTerminates(cfg, sys', trace[1..]);
    }
  }

  /* ---------- how often one event is handled ---------- */

  predicate UniqueIds(sys: System) {
    && (forall i :: 0 <= i < |sys.queue| ==> sys.queue[i].id < sys.nextId)
    && (forall i, j :: 0 <= i < j < |sys.queue| ==> sys.queue[i].id != sys.queue[j].id)
  }

  ghost function Handlings(cfg: Config, sys: System, trace: seq<Choice>, id: nat): nat
    requires Follows(cfg, sys, trace)
    decreases |trace|
  {
    if trace == [] then 0
    else
      (if sys.queue[trace[0].index].id == id then 1 else 0) +
      Handlings(cfg, Step(cfg, sys, trace[0].index, trace[0].env), trace[1..], id)
  }

  ghost predicate HandledAtMost(cfg: Config, sys: System, id: nat, n: nat) {
    && (forall i :: 0 <= i < |sys.queue| && sys.queue[i].id == id ==> Left(cfg, sys.queue[i]) <= n)
    && (id >= sys.nextId ==> Attempts(cfg) <= n)
  }

  lemma StepKeepsIds(cfg: Config, sys: System, i: nat, env: Env)
    requires i < |sys.queue| && UniqueIds(sys)
    ensures UniqueIds(Step(cfg, sys, i, env))
  {
    hide Handle, Drop;
    DropKeepsIds(sys, i);
  }

  lemma DropKeepsIds(sys: System, i: nat)
    requires i < |sys.queue| && UniqueIds(sys)
    ensures var kept := Drop(sys.queue, i);
            && (forall a :: 0 <= a < |kept| ==> kept[a].id < sys.nextId && kept[a].id != sys.queue[i].id)
            && (forall a, b :: 0 <= a < b < |kept| ==> kept[a].id != kept[b].id)
  {
    var q, kept := sys.queue, Drop(sys.queue, i);
    forall a | 0 <= a < |kept| ensures kept[a] == q[if a < i then a else a + 1] {
    }
    forall a, b | 0 <= a < b < |kept| ensures kept[a].id != kept[b].id {
      assert q[if a < i then a else a + 1].id != q[if b < i then b else b + 1].id;
    }
  }

  lemma StepBudget(cfg: Config, sys: System, i: nat, env: Env, id: nat, n: nat)
    requires i < |sys.queue| && UniqueIds(sys) && HandledAtMost(cfg, sys, id, n)
    ensures sys.queue[i].id == id ==> n >= 1 && HandledAtMost(cfg, Step(cfg, sys, i, env), id, n - 1)
    ensures sys.queue[i].id != id ==> HandledAtMost(cfg, Step(cfg, sys, i, env), id, n)
  {
    hide Handle;
    var q, item := sys.queue, sys.queue[i];
    var out := Handle(cfg, sys.remote, env, sys.st, item.event);
    var kept, again := Drop(q, i), Requeued(cfg, item, out);
    var sys' := Step(cfg, sys, i, env);
    var n' := if item.id == id then n - 1 else n;
    forall a | 0 <= a < |sys'.queue| && sys'.queue[a].id == id ensures Left(cfg, sys'.queue[a]) <= n' {
      if a < |kept| {
        assert kept[a] == q[if a < i then a else a + 1];
      } else if a < |kept| + |out.spawned| {
        assert sys'.queue[a].id >= sys.nextId;
      } else {
        assert sys'.queue[a] == again[0];
      }
    }
  }

  lemma {:induction false} HandlingsBounded(cfg: Config, sys: System, trace: seq<Choice>, id: nat, n: nat)
    requires Follows(cfg, sys, trace) && UniqueIds(sys) && HandledAtMost(cfg, sys, id, n)
    ensures Handlings(cfg, sys, trace, id) <= n
    decreases |trace|
  {
    if trace != [] {
      var i, env := trace[0].index, trace[0].env;
      StepKeepsIds(cfg, sys, i, env);
      StepBudget(cfg, sys, i, env, id, n);
      HandlingsBounded(cfg, Step(cfg, sys, i, env), trace[1..], id, if sys.queue[i].id == id then n - 1 else n);
    }
  }

  /** No event, queued now or spawned later, is ever handled more than requeueLimit + 1 times. */
  lemma EachEventHandledAtMost(cfg: Config, sys: System, trace: seq<Choice>, id: nat)
    requires Follows(cfg, sys, trace) && UniqueIds(sys)
    ensures Handlings(cfg, sys, trace, id) <= Attempts(cfg)
  {
    HandlingsBounded(cfg, sys, trace, id, Attempts(cfg));
  }

  /* ---------- an event that keeps failing ---------- */

  ghost predicate Queued(sys: System, id: nat) {
    exists i :: 0 <= i < |sys.queue| && sys.queue[i].id == id
  }

  /** Every handling of the event asks for a retry. */
  ghost predicate KeepsFailing(cfg: Config, sys: System, trace: seq<Choice>, id: nat)
    requires Follows(cfg, sys, trace)
    decreases |trace|
  {
    trace == [] ||
    (var item, env := sys.queue[trace[0].index], trace[0].env;
     && (item.id == id ==> Handle(cfg, sys.remote, env, sys.st, item.event).outcome == Retry)
     && KeepsFailing(cfg, Step(cfg, sys, trace[0].index, env), trace[1..], id))
  }

  /** What one handling does to the queue: the others stay as they are and in order, what was spawned follows with
      identities and counts of its own, and the event itself comes last, counted up, exactly if it is to be retried. */
  lemma StepIsExact(cfg: Config, sys: System, i: nat, env: Env)
    requires i < |sys.queue|
    ensures var q, item, post := sys.queue, sys.queue[i], Step(cfg, sys, i, env);
            var out := Handle(cfg, sys.remote, env, sys.st, item.event);
            var again := out.outcome == Retry && item.requeues < cfg.requeueLimit;
            && |post.queue| == |q| - 1 + |out.spawned| + (if again then 1 else 0)
            && (forall j :: 0 <= j < i ==> post.queue[j] == q[j])
            && (forall j :: i < j < |q| ==> post.queue[j - 1] == q[j])
            && (forall j :: 0 <= j < |out.spawned| ==>
                  post.queue[|q| - 1 + j] == Item(sys.nextId + j, out.spawned[j], 0))
            && (again ==> post.queue[|post.queue| - 1] == Item(item.id, out.event, item.requeues + 1))
            && post.nextId == sys.nextId + |out.spawned| && post.remote == sys.remote
            && post.st == out.st.(now := sys.st.now + 1)
  {
    hide Handle;
  }

  lemma GoneStaysGone(cfg: Config, sys: System, i: nat, env: Env, id: nat)
    requires i < |sys.queue| && id < sys.nextId && !Queued(sys, id)
    ensures !Queued(Step(cfg, sys, i, env), id)
  {
    hide Handle, Step;
    StepIsExact(cfg, sys, i, env);
    var q, post := sys.queue, Step(cfg, sys, i, env);
    var out := Handle(cfg, sys.remote, env, sys.st, q[i].event);
    forall j | 0 <= j < |post.queue| ensures post.queue[j].id != id {
      if j < i {
        assert post.queue[j] == q[j];
      } else if j < |q| - 1 {
        assert post.queue[j] == q[j + 1];
      } else if j < |q| - 1 + |out.spawned| {
        var m := j - (|q| - 1);
        assert post.queue[|q| - 1 + m] == Item(sys.nextId + m, out.spawned[m], 0);
      } else {
        assert j == |post.queue| - 1 && post.queue[j].id == q[i].id;
      }
    }
  }

  /** Handling the event once more leaves it queued with one try fewer, or takes it out after its last. */
  lemma TriedOnceMore(cfg: Config, sys: System, i: nat, env: Env) returns (j: nat)
    requires i < |sys.queue| && UniqueIds(sys)
    requires Handle(cfg, sys.remote, env, sys.st, sys.queue[i].event).outcome == Retry
    ensures var id, post := sys.queue[i].id, Step(cfg, sys, i, env);
            if Left(cfg, sys.queue[i]) == 1 then !Queued(post, id)
            else j < |post.queue| && post.queue[j].id == id && Left(cfg, post.queue[j]) == Left(cfg, sys.queue[i]) - 1
  {
    hide Handle, Step;
    StepIsExact(cfg, sys, i, env);
    var q, post, id := sys.queue, Step(cfg, sys, i, env), sys.queue[i].id;
    var out := Handle(cfg, sys.remote, env, sys.st, q[i].event);
    if q[i].requeues < cfg.requeueLimit {
      j := |post.queue| - 1;
    } else {
      j := 0;
      forall k | 0 <= k < |post.queue| ensures post.queue[k].id != id {
        if i <= k < |q| - 1 {
          assert post.queue[k] == q[k + 1];
        } else if |q| - 1 <= k {
          var m := k - (|q| - 1);
          assert post.queue[|q| - 1 + m] == Item(sys.nextId + m, out.spawned[m], 0);
        }
      }
    }
  }

  lemma OthersStayQueued(cfg: Config, sys: System, i: nat, env: Env, j: nat) returns (k: nat)
    requires i < |sys.queue| && j < |sys.queue| && j != i
    ensures k < |Step(cfg, sys, i, env).queue| && Step(cfg, sys, i, env).queue[k] == sys.queue[j]
  {
    hide Handle, Step;
    StepIsExact(cfg, sys, i, env);
    k := if j < i then j else j - 1;
  }

  lemma {:induction false} NeverHandledAgain(cfg: Config, sys: System, trace: seq<Choice>, id: nat)
    requires Follows(cfg, sys, trace) && id < sys.nextId && !Queued(sys, id)
    ensures Handlings(cfg, sys, trace, id) == 0 && !Queued(Run(cfg, sys, trace), id)
    decreases |trace|
  {
    hide Handle, Step;
    if trace != [] {
      GoneStaysGone(cfg, sys, trace[0].index, trace[0].env, id);
      StepIsExact(cfg, sys, trace[0].index, trace[0].env);
      assert sys.queue[trace[0].index].id != id;
      NeverHandledAgain(cfg, Step(cfg, sys, trace[0].index, trace[0].env), trace[1..], id);
    }
  }

  /** An event that keeps failing is still queued after a run exactly if it has tries left. */
  lemma {:induction false} TriedToTheEnd(cfg: Config, sys: System, trace: seq<Choice>, j: nat)
    requires Follows(cfg, sys, trace) && UniqueIds(sys) && j < |sys.queue|
    requires KeepsFailing(cfg, sys, trace, sys.queue[j].id)
    ensures var n, id := Handlings(cfg, sys, trace, sys.queue[j].id), sys.queue[j].id;
            n <= Left(cfg, sys.queue[j]) && (Queued(Run(cfg, sys, trace), id) <==> n < Left(cfg, sys.queue[j]))
    decreases |trace|
  {
    hide Handle, Step, Left, UniqueIds;
    var id := sys.queue[j].id;
    if trace != [] {
      var i, env := trace[0].index, trace[0].env;
      var post := Step(cfg, sys, i, env);
      StepKeepsIds(cfg, sys, i, env);
      if sys.queue[i].id == id {
        SameItem(sys, i, j);
        var k := TriedOnceMore(cfg, sys, i, env);
        if Left(cfg, sys.queue[i]) == 1 {
          KnownId(sys, i);
          StepIsExact(cfg, sys, i, env);
          NeverHandledAgain(cfg, post, trace[1..], id);
        } else {
          TriedToTheEnd(cfg, post, trace[1..], k);
        }
      } else {
        var k := OthersStayQueued(cfg, sys, i, env, j);
        TriedToTheEnd(cfg, post, trace[1..], k);
      }
    } else {
      assert Queued(sys, id);
    }
  }

  lemma SameItem(sys: System, i: nat, j: nat)
    requires UniqueIds(sys) && i < |sys.queue| && j < |sys.queue| && sys.queue[i].id == sys.queue[j].id
    ensures i == j
  {
  }

  lemma KnownId(sys: System, i: nat)
    requires UniqueIds(sys) && i < |sys.queue|
    ensures sys.queue[i].id < sys.nextId
  {
  }

  /** A new event that keeps failing is handled exactly requeueLimit + 1 times before it is given up. */
  lemma GivenUpAfterLimit(cfg: Config, sys: System, trace: seq<Choice>, j: nat)
    requires Follows(cfg, sys, trace) && UniqueIds(sys) && j < |sys.queue| && sys.queue[j].requeues == 0
    requires KeepsFailing(cfg, sys, trace, sys.queue[j].id)
    ensures !Queued(Run(cfg, sys, trace), sys.queue[j].id) <==>
              Handlings(cfg, sys, trace, sys.queue[j].id) == if cfg.requeueLimit < 0 then 1 else cfg.requeueLimit + 1
  {
    hide Handle, Step;
    TriedToTheEnd(cfg, sys, trace, j);
  }
}
