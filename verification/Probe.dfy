/** The gateway probe worker, its Liveness channel, and the watcher that listens to it. */
module Probe {
  import opened Strings

  const CHANNEL_SIZE: nat := 10

  /** `failures` is a uint64; `pending` holds what was sent on the channel and not yet received. */
  datatype Worker = Worker(alive: bool, failures: nat, pending: seq<bool>)

  const IDLE := Worker(false, 0, [])

  /** Unsigned 64-bit counting. */
  function Wrapped(n: nat): nat {
    n % FULL_64
  }

  /** One tick: a failure counts up to the threshold, a success starts over; only changes are sent. */
  function Tick(threshold: nat, w: Worker, ok: bool): Worker {
    if ok then Worker(true, 0, if w.alive then w.pending else w.pending + [true])
    else
      var failures := Wrapped(w.failures + 1);
      if failures < threshold || !w.alive then w.(failures := failures)
      else Worker(false, failures, w.pending + [false])
  }

  function Ticks(threshold: nat, history: seq<bool>): Worker {
    if history == [] then IDLE
    else Tick(threshold, Ticks(threshold, history[..|history| - 1]), history[|history| - 1])
  }

  class ProbeWorker {
    const failureThreshold: string
    var alive: bool
    var liveness: seq<bool>

    constructor (failureThreshold: string)
      ensures this.failureThreshold == failureThreshold && !alive && liveness == []
    {
      this.failureThreshold := failureThreshold;
      alive := false;
      liveness := [];
    }

    /** The probe loop over the results of its ticks. A threshold that is no uint32 ends it at once. */
    method Run(probes: seq<bool>)
      requires !alive && liveness == []
      modifies `alive, `liveness
      ensures var threshold := ParseUint(failureThreshold, FULL_32);
              if threshold.None? then !alive && liveness == []
              else var w := Ticks(threshold.value, probes); alive == w.alive && liveness == w.pending
    {
      var threshold := ParseUint(failureThreshold, FULL_32);
      if threshold.None? {
        return;
      }
      var failures: nat := 0;
      for i := 0 to |probes|
        invariant Worker(alive, failures, liveness) == Ticks(threshold.value, probes[..i])
      {
        assert probes[..i + 1][..i] == probes[..i];
        if !probes[i] {
          failures := Wrapped(failures + 1);
          if failures < threshold.value {
            continue;
          }
          if alive {
            alive := false;
            liveness := liveness + [false];
          }
        } else {
          failures := 0;
          if !alive {
            alive := true;
            liveness := liveness + [true];
          }
        }
      }
      assert probes[..|probes|] == probes;
    }
  }

  /* ---------- what a history says ---------- */

  predicate Succeeded(history: seq<bool>) {
    true in history
  }

  /** How many probes failed since the last success. */
  function TrailingFailures(history: seq<bool>): nat {
    if history == [] || history[|history| - 1] then 0 else 1 + TrailingFailures(history[..|history| - 1])
  }

  predicate ShouldBeAlive(threshold: nat, history: seq<bool>) {
    Succeeded(history) && TrailingFailures(history) < if threshold == 0 then 1 else threshold
  }

  predicate Alternates(messages: seq<bool>) {
    (messages != [] ==> messages[0]) && forall i :: 0 < i < |messages| ==> messages[i] != messages[i - 1]
  }

  /** The last message, or what was there before any. */
  function Applied(alive: bool, messages: seq<bool>): bool {
    if messages == [] then alive else messages[|messages| - 1]
  }

  predicate Reports(w: Worker) {
    Alternates(w.pending) && (w.alive <==> w.pending != [] && w.pending[|w.pending| - 1])
  }

  predicate Fits(threshold: nat, history: seq<bool>, w: Worker) {
    && (w.alive <==> ShouldBeAlive(threshold, history))
    && w.failures == Wrapped(TrailingFailures(history))
    && (w.pending == [] <==> !Succeeded(history))
  }

  lemma TickReports(threshold: nat, w: Worker, ok: bool)
    requires Reports(w)
    ensures Reports(Tick(threshold, w, ok))
  {
    hide Wrapped;
  }

  lemma SuccessFits(threshold: nat, history: seq<bool>, w: Worker)
    requires Fits(threshold, history, w)
    ensures Fits(threshold, history + [true], Tick(threshold, w, true))
  {
    hide Wrapped;
    WrapSmall(0);
    assert (history + [true])[|history|];
  }

  lemma FailureFits(threshold: nat, history: seq<bool>, w: Worker)
    requires Fits(threshold, history, w) && threshold <= FULL_32
    ensures Fits(threshold, history + [false], Tick(threshold, w, false))
  {
    hide Wrapped;
    var t := TrailingFailures(history);
    assert (history + [false])[..|history|] == history;
    assert TrailingFailures(history + [false]) == 1 + t;
    WrapNext(t);
    if t + 1 < FULL_64 {
      WrapSmall(t + 1);
    }
  }

  lemma {:induction false} TicksInvariant(threshold: nat, history: seq<bool>)
    requires threshold <= FULL_32
    ensures Fits(threshold, history, Ticks(threshold, history)) && Reports(Ticks(threshold, history))
  {
    hide Tick, Fits, Reports;
    if history == [] {
      NothingFits(threshold);
    } else {
      var n := |history| - 1;
      var w := Ticks(threshold, history[..n]);
      TicksInvariant(threshold, history[..n]);
      assert history == history[..n] + [history[n]];
      TickReports(threshold, w, history[n]);
      if history[n] { SuccessFits(threshold, history[..n], w); } else { FailureFits(threshold, history[..n], w); }
    }
  }

  lemma NothingFits(threshold: nat)
    ensures Fits(threshold, [], IDLE) && Reports(IDLE)
  {
  }

  lemma WrapNext(t: nat)
    ensures Wrapped(Wrapped(t) + 1) == Wrapped(t + 1)
  {
  }

  lemma WrapSmall(t: nat)
    requires t < FULL_64
    ensures Wrapped(t) == t
  {
  }

  /** After any probe history the worker is alive iff some probe succeeded and the trailing failures are
      fewer than the threshold, a threshold of 0 counting as 1; its messages alternate, starting with
      true; and a watcher that starts alive and applies them all is in the worker's state, or still
      alive if no probe has succeeded. */
  lemma ProbeHistory(threshold: nat, history: seq<bool>)
    requires threshold <= FULL_32
    ensures var w := Ticks(threshold, history);
            && (w.alive <==> ShouldBeAlive(threshold, history))
            && Alternates(w.pending)
            && (Applied(true, w.pending) <==> (ShouldBeAlive(threshold, history) || !Succeeded(history)))
  {
    TicksInvariant(threshold, history);
  }

  /* ---------- worker and watcher side by side ---------- */

  datatype Move = Probed(ok: bool) | Received

  /** The worker, and the watcher's view of the gateway. */
  datatype Pair = Pair(worker: Worker, gatewayAlive: bool)

  /** A tick that has something to send waits while the channel is full. */
  predicate Enabled(threshold: nat, p: Pair, move: Move) {
    match move
    case Probed(ok) => |Tick(threshold, p.worker, ok).pending| <= CHANNEL_SIZE
    case Received => p.worker.pending != []
  }

  /** A probe waits exactly if ten messages are pending and its result is news: a success of a dead gateway, or a
      failure of a living one that is not below the threshold. */
  lemma ProbeWaits(threshold: nat, p: Pair, ok: bool)
    requires |p.worker.pending| <= 10 && p.worker.failures < FULL_64 - 1
    ensures !Enabled(threshold, p, Probed(ok)) <==>
              |p.worker.pending| == 10 && (if ok then !p.worker.alive
                                           else p.worker.alive && p.worker.failures + 1 >= threshold)
  {
    hide Wrapped;
    WrapSmall(p.worker.failures + 1);
  }

  function Next(threshold: nat, p: Pair, move: Move): Pair
    requires Enabled(threshold, p, move)
  {
    match move
    case Probed(ok) => Pair(Tick(threshold, p.worker, ok), p.gatewayAlive)
    case Received => Pair(p.worker.(pending := p.worker.pending[1..]), p.worker.pending[0])
  }

  predicate Possible(threshold: nat, p: Pair, moves: seq<Move>)
    decreases |moves|
  {
    moves == [] || (Enabled(threshold, p, moves[0]) && Possible(threshold, Next(threshold, p, moves[0]), moves[1..]))
  }

  function After(threshold: nat, p: Pair, moves: seq<Move>): Pair
    requires Possible(threshold, p, moves)
    decreases |moves|
  {
    if moves == [] then p else After(threshold, Next(threshold, p, moves[0]), moves[1..])
  }

  function ProbeOf(move: Move): seq<bool> {
    match move
    case Probed(ok) => [ok]
    case Received => []
  }

  function Probes(moves: seq<Move>): seq<bool> {
    if moves == [] then [] else ProbeOf(moves[0]) + Probes(moves[1..])
  }

  /** What was received and what is pending together are what the worker sent. */
  ghost predicate Agrees(threshold: nat, history: seq<bool>, p: Pair) {
    var w := Ticks(threshold, history);
    && p.worker.alive == w.alive && p.worker.failures == w.failures
    && |p.worker.pending| <= |w.pending| && |p.worker.pending| <= CHANNEL_SIZE
    && p.worker.pending == w.pending[|w.pending| - |p.worker.pending|..]
    && p.gatewayAlive == Applied(true, w.pending[..|w.pending| - |p.worker.pending|])
  }

  lemma TicksAppend(threshold: nat, history: seq<bool>, ok: bool)
    ensures Ticks(threshold, history + [ok]) == Tick(threshold, Ticks(threshold, history), ok)
  {
    assert (history + [ok])[..|history|] == history;
  }

  lemma ProbedAgrees(threshold: nat, history: seq<bool>, p: Pair, ok: bool)
    requires Agrees(threshold, history, p) && Enabled(threshold, p, Probed(ok))
    ensures Agrees(threshold, history + [ok], Next(threshold, p, Probed(ok)))
  {
    hide Ticks, Wrapped, Applied;
    var w := Ticks(threshold, history);
    TicksAppend(threshold, history, ok);
    var w', p' := Tick(threshold, w, ok), Next(threshold, p, Probed(ok));
    assert p'.worker.pending == w'.pending[|w'.pending| - |p'.worker.pending|..];
    assert w'.pending[..|w'.pending| - |p'.worker.pending|] == w.pending[..|w.pending| - |p.worker.pending|];
  }

  lemma ReceivedAgrees(threshold: nat, history: seq<bool>, p: Pair)
    requires Agrees(threshold, history, p) && Enabled(threshold, p, Received)
    ensures Agrees(threshold, history, Next(threshold, p, Received))
  {
    hide Ticks, Tick;
    var w := Ticks(threshold, history);
    var n := |w.pending| - |p.worker.pending|;
    assert w.pending[n] == p.worker.pending[0];
    assert w.pending[..n + 1] == w.pending[..n] + [p.worker.pending[0]];
  }

  lemma MoveAgrees(threshold: nat, history: seq<bool>, p: Pair, move: Move)
    requires Agrees(threshold, history, p) && Enabled(threshold, p, move)
    ensures Agrees(threshold, history + ProbeOf(move), Next(threshold, p, move))
  {
    hide Agrees, Next, Enabled;
    match move
    case Probed(ok) => ProbedAgrees(threshold, history, p, ok);
    case Received =>
      assert history + ProbeOf(move) == history;
      ReceivedAgrees(threshold, history, p);
  }

  lemma {:induction false} RunAgrees(threshold: nat, history: seq<bool>, p: Pair, moves: seq<Move>)
    requires Agrees(threshold, history, p) && Possible(threshold, p, moves)
    ensures Agrees(threshold, history + Probes(moves), After(threshold, p, moves))
    decreases |moves|
  {
    hide Agrees, Enabled, Next, ProbeOf;
    if moves == [] {
      assert history + Probes(moves) == history;
    } else {
      MoveAgrees(threshold, history, p, moves[0]);
      var mid := history + ProbeOf(moves[0]);
      RunAgrees(threshold, mid, Next(threshold, p, moves[0]), moves[1..]);
      assert mid + Probes(moves[1..]) == history + Probes(moves);
    }
  }

  /** However probing and listening interleave on the bounded channel: applying the pending messages to the
      watcher's gatewayAlive gives the worker's state, or true if no probe has succeeded yet; and once the
      channel is empty the watcher agrees with the probe history. */
  lemma WatcherCatchesUp(threshold: nat, moves: seq<Move>)
    requires threshold <= FULL_32 && Possible(threshold, Pair(IDLE, true), moves)
    ensures var p, history := After(threshold, Pair(IDLE, true), moves), Probes(moves);
            && (p.worker.alive <==> ShouldBeAlive(threshold, history))
            && Applied(p.gatewayAlive, p.worker.pending) == (if Succeeded(history) then p.worker.alive else true)
            && (p.worker.pending == [] ==>
                  (p.gatewayAlive <==> (ShouldBeAlive(threshold, history) || !Succeeded(history))))
  {
    hide Ticks, After, Possible, ShouldBeAlive, Alternates;
    var p, history := After(threshold, Pair(IDLE, true), moves), Probes(moves);
    assert Ticks(threshold, []) == IDLE by { NoTicks(threshold); }
    RunAgrees(threshold, [], Pair(IDLE, true), moves);
    assert [] + history == history;
    ProbeHistory(threshold, history);
    TicksInvariant(threshold, history);
  }

  lemma NoTicks(threshold: nat)
    ensures Ticks(threshold, []) == IDLE
  {
  }
}
