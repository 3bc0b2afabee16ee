/** The grading part of `validate_code_test`: partition the outputs of a run, mark the passed
    prefix, sort by test id, then run the private cases. */
module Grader {
  import opened Types

  // ---- specification: one verdict per output, position by position -------------------------

  /** At most one trailing newline is ignored. */
  function Chomp(s: string): string {
    if s != "" && s[|s| - 1] == '\n' then s[..|s| - 1] else s
  }

  function Verdict(output: string, test: TestCase): Progress {
    Progress(test.id, Chomp(output) == test.expected, Chomp(output), test.expected)
  }

  function Verdicts(outputs: seq<string>, cases: seq<TestCase>): (v: seq<Progress>)
    requires |outputs| <= |cases|
  {
    seq(|outputs|, i requires 0 <= i < |outputs| => Verdict(outputs[i], cases[i]))
  }

  /** As many outputs as cases, and each is what its case expects. */
  predicate Matches(outputs: seq<string>, cases: seq<TestCase>) {
    && |outputs| == |cases|
    && forall i :: 0 <= i < |cases| ==> Chomp(outputs[i]) == cases[i].expected
  }

  function Keep(ps: seq<Progress>, succeeded: bool): seq<Progress> {
    if ps == [] then []
    else
      var n := |ps| - 1;
      Keep(ps[..n], succeeded) + if ps[n].succeeded == succeeded then [ps[n]] else []
  }

  /** Insert after every entry whose id is not larger. */
  function Insert(s: seq<Progress>, p: Progress): seq<Progress> {
    if s == [] || s[|s| - 1].testIndex <= p.testIndex then s + [p]
    else Insert(s[..|s| - 1], p) + [s[|s| - 1]]
  }

  /** The stable library sort by `test_index`; lemmas `SortSorts`, `SortPermutes`
      and `SortIsStable` say what is used of it. */
  function SortById(s: seq<Progress>): seq<Progress> {
    if s == [] then [] else Insert(SortById(s[..|s| - 1]), s[|s| - 1])
  }

  /** What a failed public phase reports. */
  function Report(outputs: seq<string>, cases: seq<TestCase>): seq<Progress>
    requires |outputs| <= |cases|
  {
    var v := Verdicts(outputs, cases);
    SortById(Keep(v, true) + Keep(v, false))
  }

  /** What a passed public phase reports: numbered by position, not by id. */
  function PassedReport(outputs: seq<string>, cases: seq<TestCase>): seq<Progress>
    requires Matches(outputs, cases)
  {
    seq(|cases|, i requires 0 <= i < |cases| => Progress(i, true, cases[i].expected, cases[i].expected))
  }

  function Join(lines: seq<string>): string {
    if lines == [] then "" else Join(lines[..|lines| - 1]) + lines[|lines| - 1]
  }

  function FirstOrEmpty(lines: seq<string>): string {
    if lines == [] then "" else lines[0]
  }

  datatype GradeResult = Graded(response: CompilationResponse) | Refused

  /** `privateRun` is what the sandbox would answer to the private cases; `None` when the call fails. */
  function Grade(task: GameTask, taskIndex: nat, run: SandboxResponse,
                 privateRun: Option<SandboxResponse>): GradeResult
  {
    if !run.success then
      Graded(CompilationResponse(taskIndex, [], false, false, false, Join(run.stderr)))
    else if |run.stdout| > |task.publicCases| then Refused
    else if !Matches(run.stdout, task.publicCases) then
      Graded(CompilationResponse(taskIndex, Report(run.stdout, task.publicCases),
                                 false, false, false, FirstOrEmpty(run.stderr)))
    else
      var shown := PassedReport(run.stdout, task.publicCases);
      if privateRun.None? then Refused
      else if !privateRun.value.success then
        Graded(CompilationResponse(taskIndex, shown, false, true, false, Join(privateRun.value.stderr)))
      else if |privateRun.value.stdout| > |task.privateCases| then Refused
      else if !Matches(privateRun.value.stdout, task.privateCases) then
        Graded(CompilationResponse(taskIndex, shown, false, true, false,
                                   FirstOrEmpty(privateRun.value.stderr)))
      else
        Graded(CompilationResponse(taskIndex, shown, true, true, true, ""))
  }

  /** Both runs succeed and every output of both is the expected one. */
  predicate Solves(task: GameTask, run: SandboxResponse, privateRun: Option<SandboxResponse>) {
    && run.success && Matches(run.stdout, task.publicCases)
    && privateRun.Some? && privateRun.value.success
    && Matches(privateRun.value.stdout, task.privateCases)
  }

  predicate IsDone(g: GradeResult) {
    g.Graded? && g.response.isDone
  }

  // ---- the grading, as loops ---------------------------------------------------------------

  function Reported(tests: seq<(TestCase, string)>, succeeded: bool): seq<Progress> {
    seq(|tests|, i requires 0 <= i < |tests| =>
      Progress(tests[i].0.id, succeeded, tests[i].1, tests[i].0.expected))
  }

  lemma VerdictsStep(outputs: seq<string>, cases: seq<TestCase>, i: nat)
    requires i < |outputs| && i < |cases|
    ensures var v := Verdict(outputs[i], cases[i]);
      forall b :: Keep(Verdicts(outputs[..i + 1], cases), b)
               == Keep(Verdicts(outputs[..i], cases), b) + if v.succeeded == b then [v] else []
  {
    var w := Verdicts(outputs[..i + 1], cases);
    assert w[..i] == Verdicts(outputs[..i], cases);
  }

  lemma ReportedStep(tests: seq<(TestCase, string)>, test: TestCase, s: string, succeeded: bool)
    ensures Reported(tests + [(test, s)], succeeded)
         == Reported(tests, succeeded) + [Progress(test.id, succeeded, s, test.expected)]
  {
  }

  predicate MatchesUpTo(outputs: seq<string>, cases: seq<TestCase>, i: nat)
    requires i <= |outputs| && i <= |cases|
  {
    forall j :: 0 <= j < i ==> Chomp(outputs[j]) == cases[j].expected
  }

  lemma MatchesNext(outputs: seq<string>, cases: seq<TestCase>, i: nat)
    requires i < |outputs| && i < |cases|
    ensures MatchesUpTo(outputs, cases, i + 1)
       <==> MatchesUpTo(outputs, cases, i) && Chomp(outputs[i]) == cases[i].expected
  {
  }

  predicate FinishedUpTo(finished: seq<(TestCase, string)>, cases: seq<TestCase>, i: nat)
    requires i <= |cases| && |finished| == i
  {
    forall j :: 0 <= j < i ==> finished[j] == (cases[j], cases[j].expected)
  }

  /** Split the outputs into those that match their case and those that do not;
      an output without a case is an error. */
  method Partition(outputs: seq<string>, cases: seq<TestCase>)
    returns (ok: bool, finished: seq<(TestCase, string)>, failed: seq<(TestCase, string)>)
    ensures ok <==> |outputs| <= |cases|
    ensures ok ==> Reported(finished, true) == Keep(Verdicts(outputs, cases), true)
    ensures ok ==> Reported(failed, false) == Keep(Verdicts(outputs, cases), false)
    ensures ok ==> (|finished| == |cases| <==> Matches(outputs, cases))
    ensures Matches(outputs, cases) ==> |finished| == |cases| && FinishedUpTo(finished, cases, |cases|)
  {
    finished, failed := [], [];
    for i := 0 to |outputs|
      invariant i <= |cases|
      invariant Reported(finished, true) == Keep(Verdicts(outputs[..i], cases), true)
      invariant Reported(failed, false) == Keep(Verdicts(outputs[..i], cases), false)
      invariant |finished| <= i
      invariant |finished| == i <==> MatchesUpTo(outputs, cases, i)
      invariant |finished| == i ==> FinishedUpTo(finished, cases, i)
    {
      var s := outputs[i];
      if s != "" && s[|s| - 1] == '\n' {
        s := s[..|s| - 1];
      }
      if i >= |cases| {
        return false, [], [];
      }
      VerdictsStep(outputs, cases, i);
      MatchesNext(outputs, cases, i);
      if s == cases[i].expected {
        ReportedStep(finished, cases[i], s, true);
        finished := finished + [(cases[i], s)];
      } else {
        ReportedStep(failed, cases[i], s, false);
        failed := failed + [(cases[i], s)];
      }
    }
    assert outputs[..|outputs|] == outputs;
    ok := true;
  }

  /** List the finished tests as failed, mark that prefix as succeeded, append the failed ones and sort. */
  method BuildReport(finished: seq<(TestCase, string)>, failed: seq<(TestCase, string)>)
    returns (report: seq<Progress>)
    ensures report == SortById(Reported(finished, true) + Reported(failed, false))
  {
    report := [];
    ghost var good, bad := Reported(finished, true), Reported(failed, false);
    for i := 0 to |finished|
      invariant report == Reported(finished, false)[..i]
    {
      report := report + [Progress(finished[i].0.id, false, finished[i].1, finished[i].0.expected)];
    }
    for i := 0 to |finished|
      invariant report == good[..i] + Reported(finished, false)[i..]
    {
      report := report[i := report[i].(succeeded := true)];
    }
    for i := 0 to |failed|
      invariant report == good + bad[..i]
    {
      report := report + [Progress(failed[i].0.id, false, failed[i].1, failed[i].0.expected)];
    }
    assert bad[..|failed|] == bad;
    report := SortById(report);
  }

  /** The private phase keeps only the count of matching outputs. */
  method CountPrivate(outputs: seq<string>, cases: seq<TestCase>) returns (ok: bool, count: nat)
    ensures ok <==> |outputs| <= |cases|
    ensures ok ==> (count == |cases| <==> Matches(outputs, cases))
  {
    count := 0;
    for i := 0 to |outputs|
      invariant i <= |cases| && count <= i
      invariant count == i <==> forall j :: 0 <= j < i ==> Chomp(outputs[j]) == cases[j].expected
    {
      if i >= |cases| {
        return false, 0;
      }
      if Chomp(outputs[i]) == cases[i].expected {
        count := count + 1;
      }
    }
    ok := true;
  }

  method JoinLines(lines: seq<string>) returns (text: string)
    ensures text == Join(lines)
  {
    text := "";
    for i := 0 to |lines|
      invariant text == Join(lines[..i])
    {
      assert lines[..i + 1][..i] == lines[..i];
      text := text + lines[i];
    }
    assert lines[..|lines|] == lines;
  }

  /** The loops compute the pointwise verdict. */
  method GradeRun(task: GameTask, taskIndex: nat, run: SandboxResponse, privateRun: Option<SandboxResponse>)
    returns (result: GradeResult)
    ensures result == Grade(task, taskIndex, run, privateRun)
  {
    if !run.success {
      var text := JoinLines(run.stderr);
      return Graded(CompilationResponse(taskIndex, [], false, false, false, text));
    }
    var ok, finished, failed := Partition(run.stdout, task.publicCases);
    if !ok {
      return Refused;
    }
    if |finished| != |task.publicCases| {
      var report := BuildReport(finished, failed);
      return Graded(CompilationResponse(taskIndex, report, false, false, false, FirstOrEmpty(run.stderr)));
    }
    var shown := [];
    for i := 0 to |finished|
      invariant shown == PassedReport(run.stdout, task.publicCases)[..i]
    {
      shown := shown + [Progress(i, true, finished[i].1, finished[i].0.expected)];
    }
    if privateRun.None? {
      return Refused;
    }
    var second := privateRun.value;
    if !second.success {
      var text := JoinLines(second.stderr);
      return Graded(CompilationResponse(taskIndex, shown, false, true, false, text));
    }
    var ok2, count := CountPrivate(second.stdout, task.privateCases);
    if !ok2 {
      return Refused;
    }
    if count != |task.privateCases| {
      return Graded(CompilationResponse(taskIndex, shown, false, true, false, FirstOrEmpty(second.stderr)));
    }
    return Graded(CompilationResponse(taskIndex, shown, true, true, true, ""));
  }

  // ---- what the sort does ------------------------------------------------------------------

  predicate SortedById(s: seq<Progress>) {
    forall i, j :: 0 <= i < j < |s| ==> s[i].testIndex <= s[j].testIndex
  }

  function WithId(s: seq<Progress>, id: nat): seq<Progress> {
    if s == [] then []
    else WithId(s[..|s| - 1], id) + if s[|s| - 1].testIndex == id then [s[|s| - 1]] else []
  }

  lemma {:induction false} InsertSorts(s: seq<Progress>, p: Progress, bound: nat)
    requires SortedById(s) && p.testIndex <= bound
    requires forall i :: 0 <= i < |s| ==> s[i].testIndex <= bound
    ensures |Insert(s, p)| == |s| + 1
    ensures SortedById(Insert(s, p))
    ensures forall i :: 0 <= i <= |s| ==> Insert(s, p)[i].testIndex <= bound
  {
    if s != [] && s[|s| - 1].testIndex > p.testIndex {
      InsertSorts(s[..|s| - 1], p, s[|s| - 1].testIndex);
    }
  }

  lemma LastAdds(s: seq<Progress>, p: Progress)
    ensures multiset(s + [p]) == multiset(s) + multiset{p}
  {
  }

  lemma {:induction false} InsertAdds(s: seq<Progress>, p: Progress)
    ensures multiset(Insert(s, p)) == multiset(s) + multiset{p}
  {
    LastAdds(s, p);
    if s != [] && s[|s| - 1].testIndex > p.testIndex {
      var front, last := s[..|s| - 1], s[|s| - 1];
      assert s == front + [last];
      InsertAdds(front, p);
      LastAdds(Insert(front, p), last);
      LastAdds(front, last);
    }
  }

  lemma WithIdAppends(s: seq<Progress>, p: Progress, id: nat)
    ensures WithId(s + [p], id) == WithId(s, id) + if p.testIndex == id then [p] else []
  {
    assert (s + [p])[..|s|] == s;
  }

  lemma {:induction false} InsertIsStable(s: seq<Progress>, p: Progress, id: nat)
    ensures WithId(Insert(s, p), id) == WithId(s, id) + if p.testIndex == id then [p] else []
  {
    WithIdAppends(s, p, id);
    if s != [] && s[|s| - 1].testIndex > p.testIndex {
      InsertIsStable(s[..|s| - 1], p, id);
      WithIdAppends(Insert(s[..|s| - 1], p), s[|s| - 1], id);
    }
  }

  lemma {:induction false} SortSorts(s: seq<Progress>)
    ensures |SortById(s)| == |s| && SortedById(SortById(s))
  {
    if s != [] {
      var n := |s| - 1;
      SortSorts(s[..n]);
      var t := SortById(s[..n]);
      InsertSorts(t, s[n], if n > 0 && t[n - 1].testIndex > s[n].testIndex then t[n - 1].testIndex else s[n].testIndex);
    }
  }

  lemma {:induction false} SortPermutes(s: seq<Progress>)
    ensures multiset(SortById(s)) == multiset(s)
  {
    if s != [] {
      var front, last := s[..|s| - 1], s[|s| - 1];
      assert s == front + [last];
      SortPermutes(front);
      InsertAdds(SortById(front), last);
      LastAdds(front, last);
    }
  }

  lemma {:induction false} SortIsStable(s: seq<Progress>, id: nat)
    ensures WithId(SortById(s), id) == WithId(s, id)
  {
    if s != [] {
      var n := |s| - 1;
      SortIsStable(s[..n], id);
      InsertIsStable(SortById(s[..n]), s[n], id);
    }
  }

  lemma KeepStep(ps: seq<Progress>, p: Progress, succeeded: bool)
    ensures Keep(ps + [p], succeeded) == Keep(ps, succeeded) + if p.succeeded == succeeded then [p] else []
  {
    assert (ps + [p])[..|ps|] == ps;
  }

  lemma {:induction false} KeepSplits(ps: seq<Progress>)
    ensures multiset(Keep(ps, true)) + multiset(Keep(ps, false)) == multiset(ps)
  {
    if ps != [] {
      var front, p := ps[..|ps| - 1], ps[|ps| - 1];
      assert ps == front + [p];
      KeepSplits(front);
      KeepStep(front, p, true);
      KeepStep(front, p, false);
      LastAdds(front, p);
      LastAdds(Keep(front, p.succeeded), p);
    }
  }

  predicate IncreasingIds(s: seq<Progress>) {
    forall i, j :: 0 <= i < j < |s| ==> s[i].testIndex < s[j].testIndex
  }

  lemma SamePlaces(s: seq<Progress>, t: seq<Progress>, p: Progress)
    requires multiset(s) == multiset(t)
    ensures p in s <==> p in t
  {
    assert p in s <==> p in multiset(s);
    assert p in t <==> p in multiset(t);
  }

  lemma SameLength(s: seq<Progress>, t: seq<Progress>)
    requires multiset(s) == multiset(t)
    ensures |s| == |t|
  {
    assert |s| == |multiset(s)|;
  }

  lemma LastsAgree(a: seq<Progress>, b: seq<Progress>)
    requires IncreasingIds(a) && SortedById(b) && multiset(a) == multiset(b) && a != [] && |a| == |b|
    ensures a[|a| - 1] == b[|b| - 1]
  {
    var x, y := a[|a| - 1], b[|b| - 1];
    SamePlaces(a, b, x);
    SamePlaces(a, b, y);
    var i :| 0 <= i < |a| && a[i] == y;
    var j :| 0 <= j < |b| && b[j] == x;
  }

  lemma FrontsAgree(a: seq<Progress>, b: seq<Progress>, p: Progress)
    requires multiset(a + [p]) == multiset(b + [p])
    ensures multiset(a) == multiset(b)
  {
    LastAdds(a, p);
    LastAdds(b, p);
    assert multiset(a) == multiset(a + [p]) - multiset{p};
    assert multiset(b) == multiset(b + [p]) - multiset{p};
  }

  lemma {:induction false} SortedPermutationIsUnique(a: seq<Progress>, b: seq<Progress>)
    requires IncreasingIds(a) && SortedById(b) && multiset(a) == multiset(b)
    ensures a == b
  {
    SameLength(a, b);
    if a != [] {
      var n := |a| - 1;
      LastsAgree(a, b);
      assert a == a[..n] + [a[n]] && b == b[..n] + [a[n]];
      FrontsAgree(a[..n], b[..n], a[n]);
      SortedPermutationIsUnique(a[..n], b[..n]);
    }
  }

  // ---- main results ------------------------------------------------------------------------

  /** A failed public phase reports a permutation of the verdicts, sorted by id, and with
      equal ids the passed ones first, each group in the order of the outputs. */
  lemma ReportIsSortedPermutation(outputs: seq<string>, cases: seq<TestCase>, id: nat)
    requires |outputs| <= |cases|
    ensures SortedById(Report(outputs, cases))
    ensures multiset(Report(outputs, cases)) == multiset(Verdicts(outputs, cases))
    ensures WithId(Report(outputs, cases), id)
         == WithId(Keep(Verdicts(outputs, cases), true) + Keep(Verdicts(outputs, cases), false), id)
  {
    var v := Verdicts(outputs, cases);
    KeepSplits(v);
    var k := Keep(v, true) + Keep(v, false);
    SortSorts(k);
    SortPermutes(k);
    SortIsStable(k, id);
  }

  /** With strictly increasing case ids, partition, mark and sort are one map over the outputs. */
  lemma ReportIsPointwise(outputs: seq<string>, cases: seq<TestCase>)
    requires |outputs| <= |cases|
    requires forall i, j :: 0 <= i < j < |cases| ==> cases[i].id < cases[j].id
    ensures |Report(outputs, cases)| == |outputs|
    ensures forall i :: 0 <= i < |outputs| ==>
      Report(outputs, cases)[i] ==
        Progress(cases[i].id, Chomp(outputs[i]) == cases[i].expected, Chomp(outputs[i]), cases[i].expected)
  {
    ReportIsSortedPermutation(outputs, cases, 0);
    SortedPermutationIsUnique(Verdicts(outputs, cases), Report(outputs, cases));
  }

  lemma ReportIsHonest(outputs: seq<string>, cases: seq<TestCase>)
    requires |outputs| <= |cases|
    ensures |Report(outputs, cases)| == |outputs|
    ensures forall p :: p in Report(outputs, cases) ==> (p.succeeded <==> p.stdout == p.expected)
  {
    var v := Verdicts(outputs, cases);
    var r := Report(outputs, cases);
    ReportIsSortedPermutation(outputs, cases, 0);
    assert |r| == |multiset(r)| == |multiset(v)| == |v|;
    forall p | p in r ensures p.succeeded <==> p.stdout == p.expected {
      assert p in multiset(r);
      assert p in multiset(v);
      assert p in v;
    }
  }

  /** The grading is done exactly when both phases match everywhere, and then says so in all
      three flags; it is an error exactly when a phase that is reached has surplus outputs, or
      when the private run cannot be made. */
  lemma GradeVerdict(task: GameTask, taskIndex: nat, run: SandboxResponse, privateRun: Option<SandboxResponse>)
    ensures var g := Grade(task, taskIndex, run, privateRun);
      && (IsDone(g) <==> Solves(task, run, privateRun))
      && (g.Graded? ==>
          && g.response.taskIndex == taskIndex
          && g.response.isDone == g.response.privateDone
          && (g.response.publicDone <==> run.success && Matches(run.stdout, task.publicCases))
          && (run.success ==> |g.response.publicTests| == |run.stdout|)
          && forall p :: p in g.response.publicTests ==> (p.succeeded <==> p.stdout == p.expected))
      && (g.Refused? <==>
          run.success &&
          (|run.stdout| > |task.publicCases|
           || (Matches(run.stdout, task.publicCases) &&
               (privateRun.None? ||
                (privateRun.value.success && |privateRun.value.stdout| > |task.privateCases|)))))
  {
    if run.success && |run.stdout| <= |task.publicCases| && !Matches(run.stdout, task.publicCases) {
      ReportIsHonest(run.stdout, task.publicCases);
    }
  }

  // ---- what is answered, case by case ------------------------------------------------------

  /** `text` is `output` without one trailing newline, if it has one. */
  predicate Trims(output: string, text: string) {
    output == text + "\n" || (output == text && !(text != "" && text[|text| - 1] == '\n'))
  }

  lemma ChompTrims(output: string, text: string)
    ensures Trims(output, text) <==> Chomp(output) == text
    ensures Chomp(text + "\n") == text
    ensures !(text != "" && text[|text| - 1] == '\n') ==> Chomp(text) == text
  {
    if output != "" && output[|output| - 1] == '\n' {
      assert output == output[..|output| - 1] + "\n";
    }
  }

  /** What is reported on one output: the id of its case, whether it is what the case expects, the output
      itself and the expected text. */
  predicate IsEntry(p: Progress, output: string, test: TestCase) {
    && p.testIndex == test.id && Trims(output, p.stdout) && p.expected == test.expected
    && (p.succeeded <==> p.stdout == test.expected)
  }

  predicate AreEntries(ps: seq<Progress>, outputs: seq<string>, cases: seq<TestCase>) {
    |ps| == |outputs| && |outputs| <= |cases| && forall k :: 0 <= k < |ps| ==> IsEntry(ps[k], outputs[k], cases[k])
  }

  predicate AllExpected(outputs: seq<string>, cases: seq<TestCase>) {
    |outputs| == |cases| && forall k :: 0 <= k < |cases| ==> Trims(outputs[k], cases[k].expected)
  }

  lemma MatchesAllExpected(outputs: seq<string>, cases: seq<TestCase>)
    ensures Matches(outputs, cases) <==> AllExpected(outputs, cases)
  {
    if |outputs| == |cases| {
      forall k | 0 <= k < |cases|
        ensures Chomp(outputs[k]) == cases[k].expected <==> Trims(outputs[k], cases[k].expected)
      {
        ChompTrims(outputs[k], cases[k].expected);
      }
    }
  }

  lemma EntriesAreVerdicts(ps: seq<Progress>, outputs: seq<string>, cases: seq<TestCase>)
    requires AreEntries(ps, outputs, cases)
    ensures ps == Verdicts(outputs, cases)
  {
    forall k | 0 <= k < |ps| ensures ps[k] == Verdicts(outputs, cases)[k] {
      ChompTrims(outputs[k], ps[k].stdout);
    }
  }

  /** A failed public phase answers with exactly one entry for each output, sorted by the ids of the cases,
      successes first among equal ids; position by position when the ids are increasing. */
  lemma FailedPhaseAnswers(task: GameTask, i: nat, run: SandboxResponse, privateRun: Option<SandboxResponse>,
                           entries: seq<Progress>, id: nat)
    requires run.success && AreEntries(entries, run.stdout, task.publicCases)
    requires !AllExpected(run.stdout, task.publicCases)
    ensures var g := Grade(task, i, run, privateRun);
      && g.Graded? && !g.response.isDone && !g.response.publicDone && !g.response.privateDone
      && SortedById(g.response.publicTests) && multiset(g.response.publicTests) == multiset(entries)
      && WithId(g.response.publicTests, id) == WithId(Keep(entries, true) + Keep(entries, false), id)
      && g.response.stderr == (if run.stderr == [] then "" else run.stderr[0])
    ensures (forall j, k :: 0 <= j < k < |task.publicCases| ==> task.publicCases[j].id < task.publicCases[k].id) ==>
      Grade(task, i, run, privateRun).response.publicTests == entries
  {
    MatchesAllExpected(run.stdout, task.publicCases);
    EntriesAreVerdicts(entries, run.stdout, task.publicCases);
    ReportIsSortedPermutation(run.stdout, task.publicCases, id);
    if forall j, k :: 0 <= j < k < |task.publicCases| ==> task.publicCases[j].id < task.publicCases[k].id {
      SortedPermutationIsUnique(entries, Report(run.stdout, task.publicCases));
    }
  }

  /** There are such entries for any outputs without surplus, and no others. */
  lemma EntriesExist(outputs: seq<string>, cases: seq<TestCase>)
    requires |outputs| <= |cases|
    ensures exists ps :: AreEntries(ps, outputs, cases)
  {
    var ps := Verdicts(outputs, cases);
    forall k | 0 <= k < |ps| ensures IsEntry(ps[k], outputs[k], cases[k]) {
      ChompTrims(outputs[k], ps[k].stdout);
    }
    assert AreEntries(ps, outputs, cases);
  }

  /** A passed public phase answers with every case, by position, whatever becomes of the private one; and
      a private run that fails says why. */
  lemma PassedPhaseAnswers(task: GameTask, i: nat, run: SandboxResponse, privateRun: Option<SandboxResponse>)
    requires run.success && AllExpected(run.stdout, task.publicCases)
    ensures var g := Grade(task, i, run, privateRun);
      g.Graded? ==>
        && g.response.publicDone && |g.response.publicTests| == |task.publicCases|
        && (forall k :: 0 <= k < |task.publicCases| ==>
              g.response.publicTests[k]
                == Progress(k, true, task.publicCases[k].expected, task.publicCases[k].expected))
        && privateRun.Some?
        && g.response.stderr ==
             if !privateRun.value.success then Join(privateRun.value.stderr)
             else if g.response.isDone || privateRun.value.stderr == [] then "" else privateRun.value.stderr[0]
  {
    MatchesAllExpected(run.stdout, task.publicCases);
  }

  /** A run that fails answers with what the sandbox complained of, and no entries. */
  lemma FailedRunAnswers(task: GameTask, i: nat, run: SandboxResponse, privateRun: Option<SandboxResponse>)
    requires !run.success
    ensures Grade(task, i, run, privateRun)
         == Graded(CompilationResponse(i, [], false, false, false, Join(run.stderr)))
  {
  }

  lemma {:induction false} JoinConcatenates(a: seq<string>, b: seq<string>)
    ensures Join([]) == "" && (forall line: string :: Join([line]) == line)
    ensures Join(a + b) == Join(a) + Join(b)
  {
    forall line: string ensures Join([line]) == line {
      assert [line][..0] == [];
      assert Join([line][..0]) == "";
    }
    if b == [] {
      assert a + b == a;
    } else {
      var front, last := b[..|b| - 1], b[|b| - 1];
      JoinConcatenates(a, front);
      assert (a + b)[..|a + b| - 1] == a + front;
    }
  }

  /** A task is done exactly when both runs succeed, and each output of both is what its case expects. */
  lemma DoneExactly(task: GameTask, i: nat, run: SandboxResponse, privateRun: Option<SandboxResponse>)
    ensures IsDone(Grade(task, i, run, privateRun)) <==>
      && run.success && AllExpected(run.stdout, task.publicCases)
      && privateRun.Some? && privateRun.value.success && AllExpected(privateRun.value.stdout, task.privateCases)
    ensures Solves(task, run, privateRun) <==> IsDone(Grade(task, i, run, privateRun))
  {
    MatchesAllExpected(run.stdout, task.publicCases);
    if privateRun.Some? {
      MatchesAllExpected(privateRun.value.stdout, task.privateCases);
    }
  }

  /** It is refused exactly when a phase that is reached has surplus outputs, or the private run fails to
      be made. */
  lemma RefusedExactly(task: GameTask, i: nat, run: SandboxResponse, privateRun: Option<SandboxResponse>)
    ensures Grade(task, i, run, privateRun).Refused? <==>
      run.success &&
      (|run.stdout| > |task.publicCases|
       || (AllExpected(run.stdout, task.publicCases) &&
           (privateRun.None? ||
            (privateRun.value.success && |privateRun.value.stdout| > |task.privateCases|))))
  {
    MatchesAllExpected(run.stdout, task.publicCases);
    GradeVerdict(task, i, run, privateRun);
  }
}
