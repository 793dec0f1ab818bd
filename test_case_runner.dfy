/** The test-case panel of the collaborative editor
    (src/components/collaborative/TestCaseRunner.tsx): the passed / failed /
    not-run counters, the status colour and the "add test case" form. */
module TestCaseRunner {
  import opened Options
  import opened Seqs

  /** `"passed" | "failed" | "not-run"`; the field itself is optional. */
  datatype RunStatus = Passed | Failed | NotRun

  datatype TestCase = TestCase(
    id: string,
    name: string,
    input: string,
    expectedOutput: string,
    actualOutput: Option<string>,
    status: Option<RunStatus>)

  predicate IsPassed(t: TestCase) { t.status == Some(Passed) }
  predicate IsFailed(t: TestCase) { t.status == Some(Failed) }
  /** `test.status === "not-run" || !test.status`: a missing status counts as not run. */
  predicate IsNotRun(t: TestCase) { t.status == Some(NotRun) || t.status.None? }

  function PassedCount(cases: seq<TestCase>): nat { |Filter(cases, IsPassed)| }
  function FailedCount(cases: seq<TestCase>): nat { |Filter(cases, IsFailed)| }
  function NotRunCount(cases: seq<TestCase>): nat { |Filter(cases, IsNotRun)| }

  /** Every test case is counted exactly once by the three counters. */
  lemma CountsAddUp(cases: seq<TestCase>)
    ensures PassedCount(cases) + FailedCount(cases) + NotRunCount(cases) == |cases|
    ensures PassedCount(cases) <= |cases| && FailedCount(cases) <= |cases| && NotRunCount(cases) <= |cases|
  {
    forall t: TestCase
      ensures (IsPassed(t) || IsFailed(t) || IsNotRun(t)) && !(IsPassed(t) && IsFailed(t))
           && !(IsPassed(t) && IsNotRun(t)) && !(IsFailed(t) && IsNotRun(t))
    {
      match t.status
      case None =>
      case Some(s) => assert s == Passed || s == Failed || s == NotRun;
    }
    FilterPartition3(cases, IsPassed, IsFailed, IsNotRun);
  }

  /** Counting a list with one more test case raises exactly the counter of its status. */
  lemma {:induction false} CountsOfAppended(cases: seq<TestCase>, t: TestCase)
    ensures PassedCount(cases + [t]) == PassedCount(cases) + (if IsPassed(t) then 1 else 0)
    ensures FailedCount(cases + [t]) == FailedCount(cases) + (if IsFailed(t) then 1 else 0)
    ensures NotRunCount(cases + [t]) == NotRunCount(cases) + (if IsNotRun(t) then 1 else 0)
  {
    FilterAppend(cases, t, IsPassed);
    FilterAppend(cases, t, IsFailed);
    FilterAppend(cases, t, IsNotRun);
  }

  lemma {:induction false} FilterAppend(s: seq<TestCase>, x: TestCase, p: TestCase -> bool)
    ensures Filter(s + [x], p) == Filter(s, p) + (if p(x) then [x] else [])
  {
    if s == [] {
      assert [x][1..] == [];
    } else {
      assert (s + [x])[1..] == s[1..] + [x];
      FilterAppend(s[1..], x, p);
    }
  }

  /** `getStatusColor`: green for passed, red for failed, gray for not run or none. */
  function StatusColor(status: Option<RunStatus>): (r: string)
    ensures r == "text-green-500" <==> status == Some(Passed)
    ensures r == "text-red-500" <==> status == Some(Failed)
    ensures r == "text-gray-400" <==> status == Some(NotRun) || status.None?
  {
    match status
    case Some(Passed) => "text-green-500"
    case Some(Failed) => "text-red-500"
    case _ => "text-gray-400"
  }

  /** The "Actual Output" block: only for a failed test with a non-empty actual output. */
  function ActualOutputShown(t: TestCase): (r: Option<string>)
    ensures r.Some? <==> IsFailed(t) && t.actualOutput.Some? && t.actualOutput.value != ""
    ensures r.Some? ==> Some(r.value) == t.actualOutput
  {
    if t.status == Some(Failed) && t.actualOutput.Some? && t.actualOutput.value != "" then t.actualOutput
    else None
  }

  /** The three fields handed to `onAddTestCase` (no id, status or actual output). */
  datatype NewTestCase = NewTestCase(name: string, input: string, expectedOutput: string)

  /** The "add test case" form's state. */
  class TestCaseForm {
    var name: string
    var input: string
    var expectedOutput: string

    constructor()
      ensures name == "" && input == "" && expectedOutput == ""
    {
      name, input, expectedOutput := "", "", "";
    }

    method SetName(value: string)
      modifies this
      ensures name == value && input == old(input) && expectedOutput == old(expectedOutput)
    {
      name := value;
    }

    method SetInput(value: string)
      modifies this
      ensures input == value && name == old(name) && expectedOutput == old(expectedOutput)
    {
      input := value;
    }

    method SetExpectedOutput(value: string)
      modifies this
      ensures expectedOutput == value && name == old(name) && input == old(input)
    {
      expectedOutput := value;
    }

    /** `handleAddTestCase`. Returns what the callback receives, if it is
        called. Only an empty field is refused (whitespace passes); on
        success the form is cleared, on refusal it is left as it was. */
    method AddTestCase() returns (sent: Option<NewTestCase>)
      modifies this
      ensures sent.None? <==> old(name) == "" || old(input) == "" || old(expectedOutput) == ""
      ensures sent.Some? ==> sent.value == NewTestCase(old(name), old(input), old(expectedOutput))
      ensures sent.Some? ==> name == "" && input == "" && expectedOutput == ""
      ensures sent.None? ==> name == old(name) && input == old(input) && expectedOutput == old(expectedOutput)
    {
      if name == "" || input == "" || expectedOutput == "" {
        return None;
      }
      sent := Some(NewTestCase(name, input, expectedOutput));
      name, input, expectedOutput := "", "", "";
    }
  }

  /** A name made only of a space is accepted, and a second press with the
      cleared form sends nothing. */
  method WhitespaceNameAccepted() returns (first: Option<NewTestCase>, second: Option<NewTestCase>)
    ensures first == Some(NewTestCase(" ", "f(1)", "1"))
    ensures second.None?
  {
    var form := new TestCaseForm();
    form.SetName(" ");
    form.SetInput("f(1)");
    form.SetExpectedOutput("1");
    first := form.AddTestCase();
    second := form.AddTestCase();
  }

  /** The four default test cases: two passed, one failed, one not run. */
  function DefaultTestCases(): seq<TestCase> {
    [ TestCase("1", "Basic Test", "binarySearch([1, 2, 3, 4, 5], 3)", "2", Some("2"), Some(Passed)),
      TestCase("2", "Element Not Found", "binarySearch([1, 2, 3, 4, 5], 6)", "-1", Some("-1"), Some(Passed)),
      TestCase("3", "Empty Array", "binarySearch([], 1)", "-1", None, Some(NotRun)),
      TestCase("4", "Large Array", "binarySearch(Array.from({length: 1000}, (_, i) => i), 500)", "500",
               Some("499"), Some(Failed)) ]
  }

  lemma DefaultCounts()
    ensures PassedCount(DefaultTestCases()) == 2
    ensures FailedCount(DefaultTestCases()) == 1
    ensures NotRunCount(DefaultTestCases()) == 1
  {
    var d := DefaultTestCases();
    CountsOfFour(d[0], d[1], d[2], d[3]);
    assert d == [d[0], d[1], d[2], d[3]];
  }

  lemma CountsOfFour(a: TestCase, b: TestCase, c: TestCase, e: TestCase)
    ensures PassedCount([a, b, c, e]) == Ind(IsPassed(a)) + Ind(IsPassed(b)) + Ind(IsPassed(c)) + Ind(IsPassed(e))
    ensures FailedCount([a, b, c, e]) == Ind(IsFailed(a)) + Ind(IsFailed(b)) + Ind(IsFailed(c)) + Ind(IsFailed(e))
    ensures NotRunCount([a, b, c, e]) == Ind(IsNotRun(a)) + Ind(IsNotRun(b)) + Ind(IsNotRun(c)) + Ind(IsNotRun(e))
  {
    CountsOfAppended([], a);
    assert [] + [a] == [a];
    CountsOfAppended([a], b);
    assert [a] + [b] == [a, b];
    CountsOfAppended([a, b], c);
    assert [a, b] + [c] == [a, b, c];
    CountsOfAppended([a, b, c], e);
    assert [a, b, c] + [e] == [a, b, c, e];
  }

  function Ind(b: bool): nat { if b then 1 else 0 }
}
