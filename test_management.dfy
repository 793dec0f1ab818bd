/** The company's test list (src/components/company/TestManagement.tsx): a
    title search with an optional type filter, and the list of types the
    filter drop-down offers. */
module TestManagement {
  import opened Options
  import opened Strings
  import opened Seqs

  datatype Test = Test(
    id: string,
    title: string,
    difficulty: string,
    testType: string,
    submissions: int,
    passRate: int,
    createdAt: string,
    status: string)

  /** The predicate given to `tests.filter`: the search looks at the title
      only; a falsy type filter admits every type. */
  predicate KeepTest(t: Test, query: string, selectedFilter: Option<string>) {
    Matches(t.title, query) &&
    (selectedFilter.None? || selectedFilter.value == "" || t.testType == selectedFilter.value)
  }

  function KeepFn(query: string, selectedFilter: Option<string>): Test -> bool {
    t => KeepTest(t, query, selectedFilter)
  }

  /** `filteredTests`: the tests that pass, in list order. */
  function FilteredTests(tests: seq<Test>, query: string, selectedFilter: Option<string>): (r: seq<Test>)
    ensures forall k :: 0 <= k < |r| ==> KeepTest(r[k], query, selectedFilter)
    ensures forall k :: 0 <= k < |tests| && KeepTest(tests[k], query, selectedFilter) ==> tests[k] in r
    ensures IsSubsequence(r, tests) && |r| <= |tests|
    ensures forall t :: multiset(r)[t] == if KeepTest(t, query, selectedFilter) then multiset(tests)[t] else 0
  {
    var r := Filter(tests, KeepFn(query, selectedFilter));
    FilterMultiset(tests, KeepFn(query, selectedFilter));
    FilterIsSubsequence(tests, KeepFn(query, selectedFilter));
    SubsequenceLength(r, tests);
    r
  }

  /** `tests.map((test) => test.type)`. */
  function Types(tests: seq<Test>): (r: seq<string>)
    ensures |r| == |tests|
    ensures forall i :: 0 <= i < |tests| ==> r[i] == tests[i].testType
  {
    if tests == [] then [] else [tests[0].testType] + Types(tests[1..])
  }

  /** `Array.from(new Set(types))`: each type once, and exactly the types
      some test has. */
  function TestTypes(tests: seq<Test>): (r: seq<string>)
    ensures NoDuplicates(r)
    ensures forall x :: x in r <==> exists i :: 0 <= i < |tests| && tests[i].testType == x
  {
    var types := Types(tests);
    var r := Distinct(types);
    forall x | x in r ensures exists i :: 0 <= i < |tests| && tests[i].testType == x {
      var i :| 0 <= i < |types| && types[i] == x;
    }
    r
  }

  /** The drop-down lists the types in the order they first appear. */
  lemma TestTypesInFirstOccurrenceOrder(tests: seq<Test>, i: nat, j: nat)
    requires i < j < |TestTypes(tests)|
    ensures FirstIndex(Types(tests), TestTypes(tests)[i]) < FirstIndex(Types(tests), TestTypes(tests)[j])
  {
    DistinctFirstOccurrenceOrder(Types(tests), i, j);
  }

  /** Every type offered selects at least one test when the search is empty. */
  lemma OfferedTypeSelectsSomething(tests: seq<Test>, x: string)
    requires x in TestTypes(tests)
    ensures |FilteredTests(tests, "", Some(x))| > 0
  {
    var i :| 0 <= i < |tests| && tests[i].testType == x;
    MatchesEmpty(tests[i].title);
    assert KeepTest(tests[i], "", Some(x));
  }

  /** An empty search without a type filter lists every test. */
  lemma EmptySearchListsAll(tests: seq<Test>)
    ensures FilteredTests(tests, "", None) == tests
  {
    forall k | 0 <= k < |tests| ensures KeepFn("", None)(tests[k]) {
      MatchesEmpty(tests[k].title);
    }
    FilterAll(tests, KeepFn("", None));
  }
}
