/** Running the health checks: retries against a deadline, skips, warnings and fatal failures. */
module HealthCheck {
  import opened Strings

  /** Nanoseconds, as in time.Duration. */
  const RETRY_WINDOW: int := 5_000_000_000

  /** What one call of a check returns: nil, a SkipError, a VerboseSuccess, or any other error. */
  datatype Answer = Passed | Skip(reason: string) | Verbose(message: string) | Failed(text: string)

  /** `answer` and `took` give the outcome and the duration of the n-th attempt; `runs` is false for a
      checker without a check function. */
  datatype Checker = Checker(
    description: string, hintAnchor: string, fatal: bool, warning: bool, surfaceErrorOnRetry: bool,
    retryDeadline: int, runs: bool, answer: nat -> Answer, took: nat -> nat)

  datatype Category = Category(id: string, checkers: seq<Checker>, enabled: bool, hintBaseURL: string)

  datatype Result = Result(category: string, description: string, hintURL: string, retry: bool, warning: bool,
                           err: Option<string>)

  /** What a check emitted, whether it counts as passed, and when it ended. */
  datatype Report = Report(results: seq<Result>, ok: bool, end: int)

  /* ---------- one check ---------- */

  function Observed(cat: Category, c: Checker, a: Answer): Result {
    Result(
      cat.id,
      if a.Verbose? then c.description + "\n" + a.message else c.description,
      cat.hintBaseURL + c.hintAnchor, false, c.warning,
      if a.Failed? then Some(a.text) else None)
  }

  function Retried(c: Checker, r: Result): Result {
    r.(retry := true, err := if c.surfaceErrorOnRetry then r.err else Some("waiting for check to complete"))
  }

  /** The attempts of a check from the n-th on, starting at time `now`. */
  function Attempts(cat: Category, c: Checker, n: nat, now: int): Report
    decreases c.retryDeadline - now
  {
    var t := now + c.took(n);
    var a := c.answer(n);
    if a.Skip? then Report([], true, t)
    else
      var r := Observed(cat, c, a);
      if r.err.Some? && t < c.retryDeadline then
        var rest := Attempts(cat, c, n + 1, t + RETRY_WINDOW);
        Report([Retried(c, r)] + rest.results, rest.ok, rest.end)
      else Report([r], r.err.None?, t)
  }

  /** The attempts from the n-th on, after results that were observed before. */
  function Continued(observed: seq<Result>, cat: Category, c: Checker, n: nat, now: int): Report {
    var rest := Attempts(cat, c, n, now);
    Report(observed + rest.results, rest.ok, rest.end)
  }

  lemma AttemptNext(observed: seq<Result>, cat: Category, c: Checker, n: nat, now: int)
    ensures var t, a := now + c.took(n), c.answer(n); var r := Observed(cat, c, a);
            Continued(observed, cat, c, n, now) ==
              if a.Skip? then Report(observed, true, t)
              else if r.err.Some? && t < c.retryDeadline then
                Continued(observed + [Retried(c, r)], cat, c, n + 1, t + RETRY_WINDOW)
              else Report(observed + [r], r.err.None?, t)
  {
    hide Observed, Retried;
    var t, r := now + c.took(n), Observed(cat, c, c.answer(n));
    var rest := Attempts(cat, c, n + 1, t + RETRY_WINDOW).results;
    assert observed + ([Retried(c, r)] + rest) == (observed + [Retried(c, r)]) + rest;
    assert observed + [] == observed;
  }

  /** When the n-th attempt of a check that starts at `start` begins and ends: each waits one window after the last. */
  function Begins(c: Checker, start: int, n: nat): int {
    if n == 0 then start else Ends(c, start, n - 1) + 5_000_000_000
  }

  function Ends(c: Checker, start: int, n: nat): int {
    (if n == 0 then start else Ends(c, start, n - 1) + 5_000_000_000) + c.took(n)
  }

  /** An attempt is followed by another one iff it failed before the deadline. */
  predicate TriedAgain(c: Checker, start: int, n: nat) {
    c.answer(n).Failed? && Ends(c, start, n) < c.retryDeadline
  }

  /** A result tells of one answer: a verbose success lengthens the description, a failure is the error, and
      a failure that is retried gives way to a waiting text unless errors are to be surfaced. */
  ghost predicate Tells(cat: Category, c: Checker, a: Answer, again: bool, r: Result) {
    && r.category == cat.id && r.hintURL == cat.hintBaseURL + c.hintAnchor && r.warning == c.warning
    && r.retry == again
    && r.description == (match a case Verbose(message) => c.description + "\n" + message case _ => c.description)
    && (r.err.Some? <==> a.Failed?)
    && (a.Failed? ==>
          r.err.value == if again && !c.surfaceErrorOnRetry then "waiting for check to complete" else a.text)
  }

  /** What comes of a check, from its n-th attempt to its m-th and last: one result for each attempt, none for
      a skip at the end; it passes unless the last attempt failed. */
  ghost predicate Ran(cat: Category, c: Checker, start: int, n: nat, m: nat, report: Report) {
    && n <= m
    && (forall i: nat :: n <= i < m ==> TriedAgain(c, start, i)) && !TriedAgain(c, start, m)
    && |report.results| == m - n + (if c.answer(m).Skip? then 0 else 1)
    && (forall i :: 0 <= i < |report.results| ==> Tells(cat, c, c.answer(n + i), n + i < m, report.results[i]))
    && report.ok == !c.answer(m).Failed?
    && report.end == Ends(c, start, m)
  }

  lemma ObservedTells(cat: Category, c: Checker, a: Answer)
    ensures Tells(cat, c, a, false, Observed(cat, c, a))
    ensures a.Failed? ==> Tells(cat, c, a, true, Retried(c, Observed(cat, c, a)))
    ensures Observed(cat, c, a).err.Some? <==> a.Failed?
  {
  }

  lemma AttemptUnfolds(cat: Category, c: Checker, start: int, n: nat)
    ensures Attempts(cat, c, n, Begins(c, start, n)) ==
              if TriedAgain(c, start, n) then
                var rest := Attempts(cat, c, n + 1, Begins(c, start, n + 1));
                Report([Retried(c, Observed(cat, c, c.answer(n)))] + rest.results, rest.ok, rest.end)
              else Report(if c.answer(n).Skip? then [] else [Observed(cat, c, c.answer(n))], !c.answer(n).Failed?,
                          Ends(c, start, n))
    ensures c.retryDeadline - Begins(c, start, n + 1) < c.retryDeadline - Begins(c, start, n)
    ensures TriedAgain(c, start, n) ==> Begins(c, start, n) < c.retryDeadline
  {
    hide Retried;
    assert Begins(c, start, n) + c.took(n) == Ends(c, start, n);
  }

  lemma {:induction false} AttemptsAreExact(cat: Category, c: Checker, start: int, n: nat) returns (m: nat)
    ensures Ran(cat, c, start, n, m, Attempts(cat, c, n, Begins(c, start, n)))
    decreases c.retryDeadline - Begins(c, start, n)
  {
    hide Observed, Retried, Tells, Attempts, Ends;
    var a := c.answer(n);
    ObservedTells(cat, c, a);
    AttemptUnfolds(cat, c, start, n);
    var report := Attempts(cat, c, n, Begins(c, start, n));
    if TriedAgain(c, start, n) {
      m := AttemptsAreExact(cat, c, start, n + 1);
      var rest := Attempts(cat, c, n + 1, Begins(c, start, n + 1));
      forall i | 0 <= i < |report.results|
        ensures Tells(cat, c, c.answer(n + i), n + i < m, report.results[i])
      {
        if i > 0 {
          assert report.results[i] == rest.results[i - 1] && n + i == n + 1 + (i - 1);
        }
      }
    } else {
      m := n;
    }
  }

  method RunCheck(cat: Category, c: Checker, start: int) returns (observed: seq<Result>, ok: bool, now: int)
    ensures Report(observed, ok, now) == Attempts(cat, c, 0, start)
    ensures exists m: nat :: Ran(cat, c, start, 0, m, Report(observed, ok, now))
  {
    hide Continued, Attempts, Observed, Retried, Ran;
    ghost var m := AttemptsAreExact(cat, c, start, 0);
    observed, now := [], start;
    var n: nat := 0;
    assert Continued([], cat, c, 0, start) == Attempts(cat, c, 0, start) by { FromTheStart(cat, c, start); }
    while true
      invariant Continued(observed, cat, c, n, now) == Attempts(cat, c, 0, start)
      decreases c.retryDeadline - now
    {
      AttemptNext(observed, cat, c, n, now);
      var a := c.answer(n);
      now := now + c.took(n);
      if a.Skip? {
        return observed, true, now;
      }
      var r := Observed(cat, c, a);
      if r.err.Some? && now < c.retryDeadline {
        observed := observed + [Retried(c, r)];
        now := now + RETRY_WINDOW;
        n := n + 1;
        continue;
      }
      return observed + [r], r.err.None?, now;
    }
  }

  lemma FromTheStart(cat: Category, c: Checker, start: int)
    ensures Continued([], cat, c, 0, start) == Attempts(cat, c, 0, start)
  {
  }

  /** Retry results, each with an error, then at most one final result, whose error says whether the check
      failed; a check that ends without a final result was skipped and counts as passed. */
  predicate RetriesThenFinal(results: seq<Result>, ok: bool) {
    if results == [] then ok
    else if results[0].retry then results[0].err.Some? && RetriesThenFinal(results[1..], ok)
    else |results| == 1 && (results[0].err.None? <==> ok)
  }

  lemma {:induction false} AttemptsShape(cat: Category, c: Checker, n: nat, now: int)
    ensures var r := Attempts(cat, c, n, now); RetriesThenFinal(r.results, r.ok)
    decreases c.retryDeadline - now
  {
    var a, t := c.answer(n), now + c.took(n);
    if a.Failed? && t < c.retryDeadline {
      AttemptsShape(cat, c, n + 1, t + RETRY_WINDOW);
      assert Attempts(cat, c, n, now).results[1..] == Attempts(cat, c, n + 1, t + RETRY_WINDOW).results;
    }
  }

  lemma {:induction false} AttemptsBelong(cat: Category, c: Checker, n: nat, now: int, i: nat)
    requires i < |Attempts(cat, c, n, now).results|
    ensures var r := Attempts(cat, c, n, now).results[i];
            r.category == cat.id && r.warning == c.warning && r.hintURL == cat.hintBaseURL + c.hintAnchor
    decreases c.retryDeadline - now
  {
    var a, t := c.answer(n), now + c.took(n);
    if a.Failed? && t < c.retryDeadline && i > 0 {
      AttemptsBelong(cat, c, n + 1, t + RETRY_WINDOW, i - 1);
    }
  }

  function Retries(results: seq<Result>): nat {
    if results == [] then 0 else (if results[0].retry then 1 else 0) + Retries(results[1..])
  }

  /** With the clock moving at least one retry window per retry, the loop ends within the bound that the
      deadline sets. */
  lemma {:induction false} RetriesAreBounded(cat: Category, c: Checker, n: nat, now: int)
    ensures var k := Retries(Attempts(cat, c, n, now).results);
            k == 0 || (k - 1) * RETRY_WINDOW < c.retryDeadline - now
    decreases c.retryDeadline - now
  {
    var a := c.answer(n);
    var t := now + c.took(n);
    if a.Failed? && t < c.retryDeadline {
      RetriesAreBounded(cat, c, n + 1, t + RETRY_WINDOW);
      var r, rest := Attempts(cat, c, n, now), Attempts(cat, c, n + 1, t + RETRY_WINDOW);
      assert r.results[1..] == rest.results;
    }
  }

  /* ---------- all checks ---------- */

  /** A checker with the category it belongs to. */
  datatype Planned = Planned(category: Category, checker: Checker)

  function PlanOf(cat: Category, checkers: seq<Checker>): seq<Planned> {
    if checkers == [] then []
    else (if checkers[0].runs then [Planned(cat, checkers[0])] else []) + PlanOf(cat, checkers[1..])
  }

  /** The checks of the enabled categories, in order. */
  function Plan(categories: seq<Category>): seq<Planned> {
    if categories == [] then []
    else (if categories[0].enabled then PlanOf(categories[0], categories[0].checkers) else []) + Plan(categories[1..])
  }

  /** A planned check that was carried out, and its report. */
  datatype Executed = Executed(planned: Planned, report: Report)

  function Execute(plan: seq<Planned>, now: int): seq<Executed> {
    if plan == [] then []
    else
      var p := plan[0];
      var report := Attempts(p.category, p.checker, 0, now);
      if !report.ok && p.checker.fatal then [Executed(p, report)]
      else [Executed(p, report)] + Execute(plan[1..], report.end)
  }

  predicate FailsHard(e: Executed) {
    !e.report.ok && !e.planned.checker.warning
  }

  predicate FailsSoft(e: Executed) {
    !e.report.ok && e.planned.checker.warning
  }

  predicate FailsFatally(e: Executed) {
    !e.report.ok && e.planned.checker.fatal
  }

  function Emitted(run: seq<Executed>): seq<Result> {
    if run == [] then [] else run[0].report.results + Emitted(run[1..])
  }

  predicate Succeeds(run: seq<Executed>) {
    forall i :: 0 <= i < |run| ==> !FailsHard(run[i])
  }

  predicate Warns(run: seq<Executed>) {
    exists i :: 0 <= i < |run| && FailsSoft(run[i])
  }

  lemma SummaryIsExact(run: seq<Executed>)
    ensures Succeeds(run) <==> forall e :: e in run && !e.report.ok ==> e.planned.checker.warning
    ensures Warns(run) <==> exists e :: e in run && !e.report.ok && e.planned.checker.warning
  {
  }

  /** Exactly the runnable checks of the enabled categories are planned, category after category, in order. */
  lemma PlanIsExact(categories: seq<Category>, more: seq<Category>)
    ensures Plan(categories + more) == Plan(categories) + Plan(more)
    ensures forall p :: p in Plan(categories) <==>
              p.category in categories && p.category.enabled && p.checker in p.category.checkers && p.checker.runs
    ensures forall cat, a, b :: PlanOf(cat, a + b) == PlanOf(cat, a) + PlanOf(cat, b)
  {
    hide Plan, PlanOf;
    PlanOfCategories(categories, more);
    forall p ensures p in Plan(categories) <==>
                       && p.category in categories && p.category.enabled
                       && p.checker in p.category.checkers && p.checker.runs
    {
      PlannedExactly(categories, p);
    }
    forall cat, a, b ensures PlanOf(cat, a + b) == PlanOf(cat, a) + PlanOf(cat, b) {
      PlanOfCheckers(cat, a, b);
    }
  }

  lemma Regroup<T>(a: seq<T>, b: seq<T>, c: seq<T>)
    ensures a + (b + c) == (a + b) + c
  {
  }

  lemma {:induction false} PlanOfCategories(categories: seq<Category>, more: seq<Category>)
    ensures Plan(categories + more) == Plan(categories) + Plan(more)
  {
    hide PlanOf;
    if categories == [] {
      assert [] + more == more;
    } else {
      var first, rest := categories[0], categories[1..];
      var plan := if first.enabled then PlanOf(first, first.checkers) else [];
      PlanOfCategories(rest, more);
      assert (categories + more)[0] == first && (categories + more)[1..] == rest + more;
      assert Plan(categories + more) == plan + Plan(rest + more) && Plan(categories) == plan + Plan(rest);
      Regroup(plan, Plan(rest), Plan(more));
    }
  }

  lemma {:induction false} PlannedExactly(categories: seq<Category>, p: Planned)
    ensures p in Plan(categories) <==>
              p.category in categories && p.category.enabled && p.checker in p.category.checkers && p.checker.runs
  {
    hide PlanOf;
    if categories != [] {
      var first, rest := categories[0], categories[1..];
      assert forall c :: c in categories <==> c == first || c in rest;
      PlannedExactly(rest, p);
      PlannedOfCategory(first, first.checkers, p);
    }
  }

  lemma {:induction false} PlanOfCheckers(cat: Category, checkers: seq<Checker>, more: seq<Checker>)
    ensures PlanOf(cat, checkers + more) == PlanOf(cat, checkers) + PlanOf(cat, more)
  {
    if checkers == [] {
      assert [] + more == more;
    } else {
      var first, rest := checkers[0], checkers[1..];
      var plan := if first.runs then [Planned(cat, first)] else [];
      PlanOfCheckers(cat, rest, more);
      assert (checkers + more)[0] == first && (checkers + more)[1..] == rest + more;
      assert PlanOf(cat, checkers + more) == plan + PlanOf(cat, rest + more);
      assert PlanOf(cat, checkers) == plan + PlanOf(cat, rest);
      Regroup(plan, PlanOf(cat, rest), PlanOf(cat, more));
    }
  }

  lemma {:induction false} PlannedOfCategory(cat: Category, checkers: seq<Checker>, p: Planned)
    ensures p in PlanOf(cat, checkers) <==> p.category == cat && p.checker in checkers && p.checker.runs
  {
    if checkers != [] {
      var first, rest := checkers[0], checkers[1..];
      assert forall c :: c in checkers <==> c == first || c in rest;
      PlannedOfCategory(cat, rest, p);
    }
  }

  /** The executed checks are the plan up to and including the first fatal failure. */
  lemma {:induction false} ExecutesThePrefix(plan: seq<Planned>, now: int)
    ensures var run := Execute(plan, now);
            && |run| <= |plan|
            && (forall i :: 0 <= i < |run| ==> run[i].planned == plan[i])
            && (forall i :: 0 <= i < |run| - 1 ==> run[i].report.ok || !run[i].planned.checker.fatal)
            && (|run| < |plan| ==>
                  run != [] && !run[|run| - 1].report.ok && run[|run| - 1].planned.checker.fatal)
  {
    if plan != [] {
      var p := plan[0];
      var report := Attempts(p.category, p.checker, 0, now);
      ExecutesThePrefix(plan[1..], report.end);
    }
  }

  /** Each check starts when the one before it has ended. */
  lemma {:induction false} ExecutedInSequence(plan: seq<Planned>, now: int, i: nat)
    requires i < |Execute(plan, now)|
    ensures var run := Execute(plan, now);
            run[i].report == Attempts(run[i].planned.category, run[i].planned.checker, 0,
                                      if i == 0 then now else run[i - 1].report.end)
  {
    if plan != [] && i > 0 {
      var report := Attempts(plan[0].category, plan[0].checker, 0, now);
      ExecutedInSequence(plan[1..], report.end, i - 1);
    }
  }

  lemma {:induction false} EmittedOfConcat(a: seq<Executed>, b: seq<Executed>)
    ensures Emitted(a + b) == Emitted(a) + Emitted(b)
  {
    if a == [] {
      assert a + b == b;
    } else {
      EmittedOfConcat(a[1..], b);
      assert (a + b)[1..] == a[1..] + b && (a + b)[0] == a[0];
      var first, rest, more := a[0].report.results, Emitted(a[1..]), Emitted(b);
      assert Emitted(a + b) == first + Emitted(a[1..] + b);
      assert first + (rest + more) == (first + rest) + more;
    }
  }

  /** RunChecks: the observed results are those of the executed checks in order; it succeeds unless an
      executed check that is no warning failed, and warns if one that is failed. */
  method RunChecks(categories: seq<Category>, start: int) returns (success: bool, warning: bool, observed: seq<Result>)
    ensures var run := Execute(Plan(categories), start);
            observed == Emitted(run) && success == Succeeds(run) && warning == Warns(run)
    ensures var run := Execute(Plan(categories), start);
            && (success <==> forall e :: e in run && !e.report.ok ==> e.planned.checker.warning)
            && (warning <==> exists e :: e in run && !e.report.ok && e.planned.checker.warning)
  {
    SummaryIsExact(Execute(Plan(categories), start));
    hide Attempts, Plan, PlanOf, Execute, Emitted, Succeeds, Warns;
    success, warning, observed := true, false, [];
    var now := start;
    ghost var plan := Plan(categories);
    ghost var done: seq<Executed> := [];
    NothingDone(categories, start);
    for i := 0 to |categories|
      invariant Remains(plan, start, done, Plan(categories[i..]), now)
      invariant observed == Emitted(done) && success == Succeeds(done) && warning == Warns(done)
    {
      PlanNext(categories, i);
      if categories[i].enabled {
        var checkers := categories[i].checkers;
        ghost var later := Plan(categories[i + 1..]);
        assert checkers[0..] == checkers;
        for j := 0 to |checkers|
          invariant Remains(plan, start, done, PlanOf(categories[i], checkers[j..]) + later, now)
          invariant observed == Emitted(done) && success == Succeeds(done) && warning == Warns(done)
        {
          PlanOfNext(categories[i], checkers, j, later);
          if checkers[j].runs {
            ghost var next := Executed(Planned(categories[i], checkers[j]),
                                       Attempts(categories[i], checkers[j], 0, now));
            ExecuteNext(plan, start, done, next, PlanOf(categories[i], checkers[j + 1..]) + later, now);
            var results, ok;
            results, ok, now := RunCheck(categories[i], checkers[j], now);
            SummaryNext(done, next);
            done := done + [next];
            observed := observed + results;
            if !ok {
              if !checkers[j].warning {
                success := false;
              } else {
                warning := true;
              }
              if checkers[j].fatal {
                return;
              }
            }
          }
        }
        PlanOfDone(categories[i], checkers, later);
      }
    }
    PlanDone(categories, plan, start, done, now);
  }

  /** What is left of a run after the checks in `done`. */
  ghost predicate Remains(plan: seq<Planned>, start: int, done: seq<Executed>, rest: seq<Planned>, now: int) {
    Execute(plan, start) == done + Execute(rest, now)
  }

  lemma NothingDone(categories: seq<Category>, start: int)
    ensures Remains(Plan(categories), start, [], Plan(categories[0..]), start)
    ensures Emitted([]) == [] && Succeeds([]) && !Warns([])
  {
    assert categories[0..] == categories;
  }

  lemma PlanNext(categories: seq<Category>, i: nat)
    requires i < |categories|
    ensures Plan(categories[i..]) ==
            (if categories[i].enabled then PlanOf(categories[i], categories[i].checkers) else [])
            + Plan(categories[i + 1..])
    ensures !categories[i].enabled ==> Plan(categories[i..]) == Plan(categories[i + 1..])
  {
    assert categories[i..][1..] == categories[i + 1..];
  }

  lemma PlanDone(categories: seq<Category>, plan: seq<Planned>, start: int, done: seq<Executed>, now: int)
    requires Remains(plan, start, done, Plan(categories[|categories|..]), now)
    ensures Execute(plan, start) == done
  {
  }

  lemma PlanOfNext(cat: Category, checkers: seq<Checker>, j: nat, later: seq<Planned>)
    requires j < |checkers|
    ensures PlanOf(cat, checkers[j..]) + later ==
            (if checkers[j].runs then [Planned(cat, checkers[j])] else []) + (PlanOf(cat, checkers[j + 1..]) + later)
    ensures !checkers[j].runs ==> PlanOf(cat, checkers[j..]) + later == PlanOf(cat, checkers[j + 1..]) + later
  {
    assert checkers[j..][1..] == checkers[j + 1..];
  }

  lemma PlanOfDone(cat: Category, checkers: seq<Checker>, later: seq<Planned>)
    ensures PlanOf(cat, checkers[|checkers|..]) + later == later
  {
  }

  lemma ExecuteNext(plan: seq<Planned>, start: int, done: seq<Executed>, e: Executed, rest: seq<Planned>, now: int)
    requires Remains(plan, start, done, [e.planned] + rest, now)
    requires e.report == Attempts(e.planned.category, e.planned.checker, 0, now)
    ensures FailsFatally(e) ==> Execute(plan, start) == done + [e]
    ensures !FailsFatally(e) ==> Remains(plan, start, done + [e], rest, e.report.end)
  {
    hide Attempts;
    assert ([e.planned] + rest)[1..] == rest;
  }

  lemma SummaryNext(done: seq<Executed>, e: Executed)
    ensures Emitted(done + [e]) == Emitted(done) + e.report.results
    ensures Succeeds(done + [e]) <==> Succeeds(done) && !FailsHard(e)
    ensures Warns(done + [e]) <==> Warns(done) || FailsSoft(e)
  {
    EmittedOfConcat(done, [e]);
    assert Emitted([e]) == e.report.results + Emitted([e][1..]);
    assert (done + [e])[|done|] == e;
    if Warns(done) {
      var i :| 0 <= i < |done| && FailsSoft(done[i]);
      assert FailsSoft((done + [e])[i]);
    }
    if Succeeds(done + [e]) {
      forall i | 0 <= i < |done| ensures !FailsHard(done[i]) {
        assert !FailsHard((done + [e])[i]);
      }
      assert !FailsHard((done + [e])[|done|]);
    }
  }
}
