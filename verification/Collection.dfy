/** Garbage collection and clean-up remove exactly what this link created, over every run. */
module Collection {
  import opened Kubernetes
  import opened Mirror
  import opened Api
  import opened Handlers
  import opened Effects
  import opened Machine
  import opened Liveness

  type State = Api.State

  /* ---------- runs with any failures ---------- */

  ghost predicate Feasible(sys: System, move: Move) {
    match move
    case Process(i, env) => i < |sys.queue| && ValidEnv(env)
    case Informer(_, _, ev) => FromOutside(ev)
    case SetAlive(_) => true
    case Tick => true
  }

  ghost predicate FeasibleRun(cfg: Config, sys: System, moves: seq<Move>)
    decreases |moves|
  {
    moves == [] || (Feasible(sys, moves[0]) && FeasibleRun(cfg, Next(cfg, sys, moves[0]), moves[1..]))
  }

  ghost function End(cfg: Config, sys: System, moves: seq<Move>): System
    requires FeasibleRun(cfg, sys, moves)
    decreases |moves|
  {
    if moves == [] then sys else End(cfg, Next(cfg, sys, moves[0]), moves[1..])
  }

  lemma MoveKeepsConsistency(cfg: Config, sys: System, move: Move)
    requires Consistent(cfg, sys) && Feasible(sys, move)
    ensures Consistent(cfg, Next(cfg, sys, move))
  {
    hide Consistent, Step;
    if move.Process? {
      StepConsistent(cfg, sys, move.index, move.env);
    } else {
      EnqueuedConsistent(cfg, sys, move);
    }
  }

  /** However the calls of a run fail: every service with the link's labels is named like a mirror and
      stands for a remote service. */
  lemma {:induction false} RunsKeepConsistency(cfg: Config, sys: System, moves: seq<Move>)
    requires Consistent(cfg, sys) && FeasibleRun(cfg, sys, moves)
    ensures Consistent(cfg, End(cfg, sys, moves))
    decreases |moves|
  {
    hide Consistent, Next;
    if moves != [] {
      MoveKeepsConsistency(cfg, sys, moves[0]);
      RunsKeepConsistency(cfg, Next(cfg, sys, moves[0]), moves[1..]);
    }
  }

  /* ---------- whose object is it ---------- */

  predicate Mine(cfg: Config, st: State, n: Key) {
    n in st.services && OfLink(cfg.link, st.services[n].labels)
  }

  /** The remote service that a service of this link stands for is the one garbage collection computes. */
  lemma OriginIsRepresented(cfg: Config, st: State, n: Key, k: Key)
    requires ShapeOk(cfg, st) && Mine(cfg, st, n)
    ensures Represents(cfg, n, st.services[n].labels, k) <==> OriginOf(cfg, n, st.services[n]) == k
  {
    var labels := st.services[n].labels;
    var origin := OriginOf(cfg, n, st.services[n]);
    assert Shaped(cfg, n, labels);
    var j :| Represents(cfg, n, labels, j);
    OriginalInvertsMirror(cfg.link, j);
    if Represents(cfg, n, labels, k) {
      OriginalInvertsMirror(cfg.link, k);
    }
  }

  /** The service at n stands for a remote service that is gone. */
  ghost predicate Abandoned(cfg: Config, remote: Remote, st: State, n: Key) {
    Mine(cfg, st, n) && exists k :: Represents(cfg, n, st.services[n].labels, k) && k !in remote.services
  }

  lemma AbandonedIsOrphan(cfg: Config, remote: Remote, env: Env, st: State, n: Key)
    requires ShapeOk(cfg, st) && forall c :: env.ok(c)
    ensures n in Orphans(cfg, remote, env, st) <==> Abandoned(cfg, remote, st, n)
  {
    hide OfLink, Represents, OriginOf, Shaped;
    if Mine(cfg, st, n) {
      var k := OriginOf(cfg, n, st.services[n]);
      OriginIsRepresented(cfg, st, n, k);
      assert env.ok(RemoteGetService(k));
      if Abandoned(cfg, remote, st, n) {
        var j :| Represents(cfg, n, st.services[n].labels, j) && j !in remote.services;
        OriginIsRepresented(cfg, st, n, j);
      }
    }
  }

  /** Exactly the services in `gone` were removed, together with their endpoints. */
  ghost predicate RemovesExactly(pre: State, post: State, gone: iset<Key>) {
    && post == pre.(services := post.services, endpoints := post.endpoints)
    && (forall n :: n in post.services <==> n in pre.services && n !in gone)
    && (forall n :: n in post.services ==> post.services[n] == pre.services[n])
    && (forall n :: n in post.endpoints ==> n in pre.endpoints && post.endpoints[n] == pre.endpoints[n])
  }

  /** Garbage collection removes exactly the mirrors and endpoint mirrors whose remote service is gone. */
  lemma CollectsExactly(cfg: Config, remote: Remote, env: Env, st: State)
    requires ShapeOk(cfg, st) && forall c :: env.ok(c)
    ensures var (post, outcome) := HandleGc(cfg, remote, env, st);
            && outcome == Done
            && RemovesExactly(st, post, iset n | Abandoned(cfg, remote, st, n))
            && (forall n :: n in st.endpoints ==> (n in post.endpoints <==> !Abandoned(cfg, remote, st, n)))
  {
    hide OfLink, Represents, OriginOf, Shaped, Abandoned, Orphans, LinkServices;
    forall n ensures n in Orphans(cfg, remote, env, st) <==> Abandoned(cfg, remote, st, n) {
      AbandonedIsOrphan(cfg, remote, env, st, n);
    }
    forall n ensures Abandoned(cfg, remote, st, n) ==> n in st.services {
      AbandonedIsMine(cfg, remote, st, n);
    }
  }

  lemma AbandonedIsMine(cfg: Config, remote: Remote, st: State, n: Key)
    ensures Abandoned(cfg, remote, st, n) ==> Mine(cfg, st, n)
  {
    hide OfLink, Represents;
  }

  /** With failing calls it removes no more than that, and asks to be retried unless everything went through. */
  lemma CollectsNoMore(cfg: Config, remote: Remote, env: Env, st: State, n: Key)
    requires ShapeOk(cfg, st)
    ensures var (post, outcome) := HandleGc(cfg, remote, env, st);
            && (n in st.services && !Abandoned(cfg, remote, st, n) ==>
                  n in post.services && post.services[n] == st.services[n])
            && (outcome == Done && Abandoned(cfg, remote, st, n) ==> n !in post.services && n !in post.endpoints)
  {
    hide OfLink, Represents, OriginOf, Shaped;
    var (post, outcome) := HandleGc(cfg, remote, env, st);
    if Mine(cfg, st, n) {
      var k := OriginOf(cfg, n, st.services[n]);
      OriginIsRepresented(cfg, st, n, k);
      assert n in LinkServices(cfg, st);
      if Abandoned(cfg, remote, st, n) {
        var j :| Represents(cfg, n, st.services[n].labels, j) && j !in remote.services;
        OriginIsRepresented(cfg, st, n, j);
      }
    }
  }

  /** Clean-up removes exactly the services and the endpoints that carry both link labels, and with a
      service its endpoints. */
  lemma CleansExactly(cfg: Config, env: Env, st: State)
    requires forall c :: env.ok(c)
    ensures var (post, outcome) := HandleCleanup(cfg, env, st);
            && outcome == Done
            && RemovesExactly(st, post, iset n | Mine(cfg, st, n))
            && (forall n :: n in st.endpoints ==>
                  (n in post.endpoints <==> !Mine(cfg, st, n) && !OfLink(cfg.link, st.endpoints[n].labels)))
  {
    hide OfLink;
    var services := LinkServices(cfg, st);
    var st1 := Purge(env, st, services);
    forall n ensures n in services <==> Mine(cfg, st, n) {
    }
    forall n | n in st.endpoints ensures n in st1.endpoints <==> !Mine(cfg, st, n) {
    }
  }

  /** No federated service and no other link's service carries this link's labels. */
  lemma OthersAreNotMine(cfg: Config, st: State, n: Key)
    requires ShapeOk(cfg, st) && n in st.services
    ensures !FederatedLike(cfg.link.cluster) && (exists k :: n == FederatedKey(k)) ==> !Mine(cfg, st, n)
    ensures CLUSTER_NAME in st.services[n].labels && st.services[n].labels[CLUSTER_NAME] != cfg.link.cluster ==>
              !Mine(cfg, st, n)
  {
    if Mine(cfg, st, n) && !FederatedLike(cfg.link.cluster) && exists k :: n == FederatedKey(k) {
      var k :| n == FederatedKey(k);
      assert Shaped(cfg, n, st.services[n].labels);
      MirrorOfOriginal(cfg, n);
      MirrorAvoidsFederated(cfg.link, OriginalKey(cfg.link, n), k);
    }
  }

  /** Over every run: garbage collection deletes exactly the link's abandoned services, clean-up exactly
      the link's objects, and neither touches a federated service. */
  lemma CollectionIsExact(cfg: Config, start: System, moves: seq<Move>, env: Env)
    requires Consistent(cfg, start) && FeasibleRun(cfg, start, moves) && forall c :: env.ok(c)
    ensures var sys := End(cfg, start, moves);
            && RemovesExactly(sys.st, HandleGc(cfg, sys.remote, env, sys.st).0,
                              iset n | Abandoned(cfg, sys.remote, sys.st, n))
            && RemovesExactly(sys.st, HandleCleanup(cfg, env, sys.st).0, iset n | Mine(cfg, sys.st, n))
    ensures var sys := End(cfg, start, moves);
            !FederatedLike(cfg.link.cluster) ==>
              forall k :: FederatedKey(k) in sys.st.services ==>
                && FederatedKey(k) in HandleGc(cfg, sys.remote, env, sys.st).0.services
                && FederatedKey(k) in HandleCleanup(cfg, env, sys.st).0.services
  {
    hide FeasibleRun, End, HandleGc, HandleCleanup, Mine, Abandoned, FederatedLike, FederatedKey, Shaped;
    var sys := End(cfg, start, moves);
    RunsKeepConsistency(cfg, start, moves);
    CollectsExactly(cfg, sys.remote, env, sys.st);
    CleansExactly(cfg, env, sys.st);
    if !FederatedLike(cfg.link.cluster) {
      forall k | FederatedKey(k) in sys.st.services
        ensures FederatedKey(k) in HandleGc(cfg, sys.remote, env, sys.st).0.services
        ensures FederatedKey(k) in HandleCleanup(cfg, env, sys.st).0.services
      {
        OthersAreNotMine(cfg, sys.st, FederatedKey(k));
        AbandonedIsMine(cfg, sys.remote, sys.st, FederatedKey(k));
      }
    }
  }
}
