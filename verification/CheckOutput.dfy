/** The JSON form of check results: collected by category, parsed back by the parent command, re-run. */
module CheckOutput {
  import opened Strings
  import opened HealthCheck

  datatype Status = Success | Warn | Error

  datatype Check = Check(description: string, hint: string, error: string, result: Status)

  datatype CheckCategory = CheckCategory(name: string, checks: seq<Check>)

  /* ---------- collecting ---------- */

  function StatusOf(r: Result): Status {
    if r.err.None? then Success else if r.warning then Warn else Error
  }

  function CheckOf(r: Result): Check {
    Check(r.description, if r.err.Some? then r.hintURL else "", if r.err.Some? then r.err.value else "", StatusOf(r))
  }

  /** A result of another category than the last opens a new group, even if it is a retry. */
  function Grouped(groups: seq<CheckCategory>, category: string): (g: seq<CheckCategory>)
    ensures g != [] && g[|g| - 1].name == category
  {
    if groups == [] || groups[|groups| - 1].name != category then groups + [CheckCategory(category, [])] else groups
  }

  function Recorded(groups: seq<CheckCategory>, c: Check): seq<CheckCategory>
    requires groups != []
  {
    var n := |groups| - 1;
    groups[n := groups[n].(checks := groups[n].checks + [c])]
  }

  function Collect(results: seq<Result>): seq<CheckCategory> {
    if results == [] then []
    else
      var r := results[|results| - 1];
      var groups := Grouped(Collect(results[..|results| - 1]), r.category);
      if r.retry then groups else Recorded(groups, CheckOf(r))
  }

  lemma CollectNothing()
    ensures Collect([]) == []
  {
  }

  lemma CollectNext(results: seq<Result>, i: nat)
    requires i < |results|
    ensures var groups := Grouped(Collect(results[..i]), results[i].category);
            Collect(results[..i + 1]) == if results[i].retry then groups else Recorded(groups, CheckOf(results[i]))
  {
    hide Grouped, Recorded, CheckOf;
    assert results[..i + 1][..i] == results[..i];
  }

  method CollectJSONOutput(results: seq<Result>) returns (categories: seq<CheckCategory>)
    ensures categories == Collect(results)
  {
    hide Collect;
    categories := [];
    CollectNothing();
    for i := 0 to |results|
      invariant categories == Collect(results[..i])
    {
      CollectNext(results, i);
      var result := results[i];
      if categories == [] || categories[|categories| - 1].name != result.category {
        categories := categories + [CheckCategory(result.category, [])];
      }
      if !result.retry {
        var status := Success;
        if result.err.Some? {
          status := Error;
          if result.warning {
            status := Warn;
          }
        }
        var check := Check(result.description, "", "", status);
        if result.err.Some? {
          check := check.(error := result.err.value);
          if result.hintURL != "" {
            check := check.(hint := result.hintURL);
          }
        }
        var last := |categories| - 1;
        categories := categories[last := categories[last].(checks := categories[last].checks + [check])];
      }
    }
    assert results[..|results|] == results;
  }

  /* ---------- parsing back ---------- */

  function Parsed(category: string, c: Check): Result {
    Result(category, c.description, c.hint, false, c.result == Warn, if c.error != "" then Some(c.error) else None)
  }

  function ParsedChecks(category: string, checks: seq<Check>): seq<Result> {
    seq(|checks|, i requires 0 <= i < |checks| => Parsed(category, checks[i]))
  }

  function Parse(categories: seq<CheckCategory>): seq<Result> {
    if categories == [] then []
    else
      var n := |categories| - 1;
      Parse(categories[..n]) + ParsedChecks(categories[n].name, categories[n].checks)
  }

  method ParseCheckOutput(categories: seq<CheckCategory>) returns (results: seq<Result>)
    ensures results == Parse(categories)
  {
    results := [];
    for i := 0 to |categories|
      invariant results == Parse(categories[..i])
    {
      assert categories[..i + 1][..i] == categories[..i];
      var before := results;
      var checks := categories[i].checks;
      for j := 0 to |checks|
        invariant results == before + ParsedChecks(categories[i].name, checks[..j])
      {
        var check := checks[j];
        var err := None;
        if check.error != "" {
          err := Some(check.error);
        }
        var warning := check.result == Warn;
        results := results + [Result(categories[i].name, check.description, check.hint, false, warning, err)];
      }
      assert checks[..|checks|] == checks;
    }
    assert categories[..|categories|] == categories;
  }

  /* ---------- re-running ---------- */

  predicate Sound(results: seq<Result>) {
    forall i :: 0 <= i < |results| ==> results[i].err.None? || results[i].warning
  }

  predicate Warned(results: seq<Result>) {
    exists i :: 0 <= i < |results| && results[i].err.Some? && results[i].warning
  }

  method RerunChecks(results: seq<Result>) returns (success: bool, warning: bool, observed: seq<Result>)
    ensures observed == results && success == Sound(results) && warning == Warned(results)
  {
    success, warning, observed := true, false, [];
    for i := 0 to |results|
      invariant observed == results[..i]
      invariant success <==> forall j :: 0 <= j < i ==> results[j].err.None? || results[j].warning
      invariant warning <==> exists j :: 0 <= j < i && results[j].err.Some? && results[j].warning
    {
      if results[i].err.Some? {
        if !results[i].warning {
          success := false;
        } else {
          warning := true;
        }
      }
      observed := observed + [results[i]];
    }
  }

  /* ---------- the round trip ---------- */

  function Finals(results: seq<Result>): seq<Result> {
    if results == [] then []
    else
      var n := |results| - 1;
      Finals(results[..n]) + if results[n].retry then [] else [results[n]]
  }

  /** What survives of a final result: a success carries neither hint nor warning mark, and an error
      without text reads as a success. */
  function Survivor(r: Result): Result {
    Parsed(r.category, CheckOf(r))
  }

  function Survivors(results: seq<Result>): seq<Result> {
    seq(|results|, i requires 0 <= i < |results| => Survivor(results[i]))
  }

  lemma ParseOfGrouped(groups: seq<CheckCategory>, category: string)
    ensures Parse(Grouped(groups, category)) == Parse(groups)
  {
    assert (groups + [CheckCategory(category, [])])[..|groups|] == groups;
  }

  lemma ParseOfRecorded(groups: seq<CheckCategory>, c: Check)
    requires groups != []
    ensures Parse(Recorded(groups, c)) == Parse(groups) + [Parsed(groups[|groups| - 1].name, c)]
  {
    hide ParsedChecks;
    var n := |groups| - 1;
    var after := Recorded(groups, c);
    assert after[..n] == groups[..n];
    assert after[n] == CheckCategory(groups[n].name, groups[n].checks + [c]);
    ParsedChecksAppend(groups[n].name, groups[n].checks, c);
  }

  lemma ParsedChecksAppend(category: string, checks: seq<Check>, c: Check)
    ensures ParsedChecks(category, checks + [c]) == ParsedChecks(category, checks) + [Parsed(category, c)]
  {
  }

  /** Parsing the collected categories yields the final results, in order, whatever was retried and however
      the categories were grouped. */
  lemma {:induction false} ParseOfCollect(results: seq<Result>)
    ensures Parse(Collect(results)) == Survivors(Finals(results))
  {
    if results != [] {
      var n := |results| - 1;
      var r := results[n];
      ParseOfCollect(results[..n]);
      var groups := Grouped(Collect(results[..n]), r.category);
      ParseOfGrouped(Collect(results[..n]), r.category);
      if !r.retry {
        ParseOfRecorded(groups, CheckOf(r));
        assert Survivors(Finals(results[..n]) + [r]) == Survivors(Finals(results[..n])) + [Survivor(r)];
      }
    }
  }

  predicate HasText(r: Result) {
    r.err.Some? ==> r.err.value != ""
  }

  predicate AllHaveText(results: seq<Result>) {
    forall i :: 0 <= i < |results| ==> HasText(results[i])
  }

  /** A result as the parent command shows it: for a success, hint and warning mark do not matter. */
  function Shown(r: Result): Result {
    if r.err.None? then r.(hintURL := "", warning := false) else r
  }

  lemma SurvivorIsShown(r: Result)
    requires !r.retry
    ensures Survivor(r) == Shown(r) <==> HasText(r)
    ensures Survivor(r).err.Some? <==> r.err.Some? && r.err.value != ""
    ensures r.err.Some? ==> Survivor(r).warning == r.warning
  {
  }

  lemma {:induction false} FinalsAreFinal(results: seq<Result>, i: nat)
    requires i < |Finals(results)|
    ensures !Finals(results)[i].retry
  {
    if results != [] {
      var n := |results| - 1;
      if i < |Finals(results[..n])| {
        FinalsAreFinal(results[..n], i);
      }
    }
  }

  /** The parsed results are the final ones exactly when every error has a text. */
  lemma RoundTripIsExact(results: seq<Result>)
    ensures var finals := Finals(results); var parsed := Parse(Collect(results));
            && |parsed| == |finals|
            && (AllHaveText(finals) <==> forall i :: 0 <= i < |finals| ==> parsed[i] == Shown(finals[i]))
  {
    var finals := Finals(results);
    ParseOfCollect(results);
    forall i | 0 <= i < |finals| ensures Parse(Collect(results))[i] == Shown(finals[i]) <==> HasText(finals[i]) {
      FinalsAreFinal(results, i);
      SurvivorIsShown(finals[i]);
    }
  }

  /** Re-running the parsed results gives the pair of the final results exactly when the errors that decide
      it have a text: one hard failure with a text if there is any, and likewise one soft failure. */
  lemma RerunIsExact(results: seq<Result>)
    ensures var finals := Finals(results); var parsed := Parse(Collect(results));
            && (Sound(parsed) == Sound(finals) <==>
                  (Sound(finals) || exists i :: 0 <= i < |finals| && HardError(finals[i]) && HasText(finals[i])))
            && (Warned(parsed) == Warned(finals) <==>
                  (!Warned(finals) || exists i :: 0 <= i < |finals| && SoftError(finals[i]) && HasText(finals[i])))
  {
    hide Survivor, Parse, Collect, Finals, HasText;
    var finals := Finals(results);
    var parsed := Parse(Collect(results));
    ParseOfCollect(results);
    forall i | 0 <= i < |finals|
      ensures HardError(parsed[i]) <==> HardError(finals[i]) && HasText(finals[i])
      ensures SoftError(parsed[i]) <==> SoftError(finals[i]) && HasText(finals[i])
    {
      FinalsAreFinal(results, i);
      assert parsed[i] == Survivor(finals[i]);
      SurvivorErrors(finals[i]);
    }
    PairByErrors(finals);
    PairByErrors(parsed);
  }

  predicate HardError(r: Result) {
    r.err.Some? && !r.warning
  }

  predicate SoftError(r: Result) {
    r.err.Some? && r.warning
  }

  lemma SurvivorErrors(r: Result)
    requires !r.retry
    ensures HardError(Survivor(r)) <==> HardError(r) && HasText(r)
    ensures SoftError(Survivor(r)) <==> SoftError(r) && HasText(r)
  {
  }

  lemma PairByErrors(results: seq<Result>)
    ensures Sound(results) <==> !exists i :: 0 <= i < |results| && HardError(results[i])
    ensures Warned(results) <==> exists i :: 0 <= i < |results| && SoftError(results[i])
  {
    if !Sound(results) {
      var i :| 0 <= i < |results| && !(results[i].err.None? || results[i].warning);
      assert HardError(results[i]);
    }
    if Warned(results) {
      var i :| 0 <= i < |results| && results[i].err.Some? && results[i].warning;
      assert SoftError(results[i]);
    }
  }

  /* ---------- from running to re-running ---------- */

  lemma {:induction false} FinalsOfConcat(a: seq<Result>, b: seq<Result>)
    ensures Finals(a + b) == Finals(a) + Finals(b)
  {
    if b == [] {
      assert a + b == a;
    } else {
      var n := |b| - 1;
      FinalsOfConcat(a, b[..n]);
      assert (a + b)[..|a| + n] == a + b[..n];
    }
  }

  /** A check's final result, if any, has an error exactly when the check failed. */
  lemma {:induction false} FinalOfCheck(results: seq<Result>, ok: bool)
    requires RetriesThenFinal(results, ok)
    ensures |Finals(results)| <= 1 && (Finals(results) == [] ==> ok)
    ensures Finals(results) != [] ==> (Finals(results)[0].err.None? <==> ok) && Finals(results)[0] in results
  {
    if results != [] {
      assert results == [results[0]] + results[1..];
      FinalsOfConcat([results[0]], results[1..]);
      assert Finals([results[0]]) == if results[0].retry then [] else [results[0]];
      if results[0].retry {
        FinalOfCheck(results[1..], ok);
      } else {
        assert results[1..] == [];
      }
    }
  }

  ghost predicate Genuine(e: Executed) {
    exists now :: e.report == Attempts(e.planned.category, e.planned.checker, 0, now)
  }

  lemma FinalOfExecuted(e: Executed)
    requires Genuine(e)
    ensures var finals := Finals(e.report.results);
            && (Sound(finals) <==> !FailsHard(e))
            && (Warned(finals) <==> FailsSoft(e))
  {
    hide Attempts, Finals;
    var now :| e.report == Attempts(e.planned.category, e.planned.checker, 0, now);
    AttemptsShape(e.planned.category, e.planned.checker, 0, now);
    FinalOfCheck(e.report.results, e.report.ok);
    var finals := Finals(e.report.results);
    if finals != [] {
      var i :| 0 <= i < |e.report.results| && e.report.results[i] == finals[0];
      AttemptsBelong(e.planned.category, e.planned.checker, 0, now, i);
      assert finals == [finals[0]];
    }
  }

  lemma PairOfConcat(a: seq<Result>, b: seq<Result>)
    ensures Sound(a + b) <==> Sound(a) && Sound(b)
    ensures Warned(a + b) <==> Warned(a) || Warned(b)
  {
    if Warned(b) {
      var i :| 0 <= i < |b| && b[i].err.Some? && b[i].warning;
      assert (a + b)[|a| + i] == b[i];
    }
    if Warned(a) {
      var i :| 0 <= i < |a| && a[i].err.Some? && a[i].warning;
      assert (a + b)[i] == a[i];
    }
    if Sound(a + b) {
      forall i | 0 <= i < |a| ensures a[i].err.None? || a[i].warning { assert (a + b)[i] == a[i]; }
      forall i | 0 <= i < |b| ensures b[i].err.None? || b[i].warning { assert (a + b)[|a| + i] == b[i]; }
    }
  }

  /** The pair that RunChecks returns is the pair of the final results it emitted. */
  lemma {:induction false} PairOfRun(run: seq<Executed>)
    requires forall i :: 0 <= i < |run| ==> Genuine(run[i])
    ensures Succeeds(run) <==> Sound(Finals(Emitted(run)))
    ensures Warns(run) <==> Warned(Finals(Emitted(run)))
  {
    hide Finals, Genuine, FailsHard, FailsSoft, Sound, Warned;
    if run == [] {
      NoFinals();
    } else {
      var rest := run[1..];
      PairOfRun(rest);
      FinalOfExecuted(run[0]);
      FinalsOfConcat(run[0].report.results, Emitted(rest));
      PairOfConcat(Finals(run[0].report.results), Finals(Emitted(rest)));
      HeadAndTail(run);
    }
  }

  lemma NoFinals()
    ensures Finals([]) == [] && Sound([]) && !Warned([])
  {
  }

  lemma HeadAndTail(run: seq<Executed>)
    requires run != []
    ensures Succeeds(run) <==> !FailsHard(run[0]) && Succeeds(run[1..])
    ensures Warns(run) <==> FailsSoft(run[0]) || Warns(run[1..])
  {
    hide FailsHard, FailsSoft;
    if Warns(run[1..]) {
      var i :| 0 <= i < |run[1..]| && FailsSoft(run[1..][i]);
      assert FailsSoft(run[i + 1]);
    }
    if Succeeds(run) {
      forall i | 0 <= i < |run[1..]| ensures !FailsHard(run[1..][i]) { assert !FailsHard(run[i + 1]); }
    }
    forall i | 0 < i < |run| ensures run[i] == run[1..][i - 1] { }
  }

  /** Check-output round trip: run the checks with the JSON collector, parse its categories, re-run them. If
      every final error has a text, the final results come back in order and the pair is the one that
      RunChecks returned, whose first half is the emitted `success` field. */
  lemma CheckOutputRoundTrip(categories: seq<Category>, start: int)
    requires AllHaveText(Finals(Emitted(Execute(Plan(categories), start))))
    ensures var run := Execute(Plan(categories), start);
            var finals := Finals(Emitted(run)); var parsed := Parse(Collect(Emitted(run)));
            && |parsed| == |finals|
            && (forall i :: 0 <= i < |finals| ==> parsed[i] == Shown(finals[i]))
            && Sound(parsed) == Succeeds(run)
            && Warned(parsed) == Warns(run)
  {
    hide Finals, Parse, Collect, Execute, Plan, Emitted, Genuine, Shown, Sound, Warned;
    var run := Execute(Plan(categories), start);
    forall i | 0 <= i < |run| ensures Genuine(run[i]) {
      ExecutedInSequence(Plan(categories), start, i);
      GenuineAt(run, start, i);
    }
    var results := Emitted(run);
    PairOfRun(run);
    RoundTripIsExact(results);
    RerunIsExact(results);
    PairByErrors(Finals(results));
  }

  lemma GenuineAt(run: seq<Executed>, start: int, i: nat)
    requires i < |run|
    requires run[i].report == Attempts(run[i].planned.category, run[i].planned.checker, 0,
                                       if i == 0 then start else run[i - 1].report.end)
    ensures Genuine(run[i])
  {
    hide Attempts;
  }
}
