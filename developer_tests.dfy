/** The developer's "My Tests" page (src/app/developer-dashboard/tests/page.tsx):
    a search over title, company and skills, and the All / Active / Completed /
    Expired tabs. */
module DeveloperTests {
  import opened Strings
  import opened Seqs
  import opened TestCard

  /** The search box: title, company or any skill contains the query, ignoring case. */
  predicate MatchesSearch(t: TestData, query: string) {
    Matches(t.title, query) || Matches(t.company, query) ||
    exists k :: 0 <= k < |t.skills| && Matches(t.skills[k], query)
  }

  /** The tab's status test; the tab value is any string. */
  predicate InBucket(filterStatus: string, status: Status) {
    filterStatus == "all" ||
    (filterStatus == "active" && (status == InProgress || status == NotStarted)) ||
    (filterStatus == "completed" && status == Completed) ||
    (filterStatus == "expired" && status == Expired)
  }

  /** The tabs are exactly the status groups they name, and any other tab value admits nothing. */
  lemma BucketMeaning(filterStatus: string, status: Status)
    ensures InBucket("all", status)
    ensures InBucket("active", status) <==> status in {InProgress, NotStarted}
    ensures InBucket("completed", status) <==> status == Completed
    ensures InBucket("expired", status) <==> status == Expired
    ensures filterStatus !in {"all", "active", "completed", "expired"} ==> !InBucket(filterStatus, status)
  {
  }

  function BucketFn(filterStatus: string): TestData -> bool {
    (t: TestData) => InBucket(filterStatus, t.status)
  }

  function KeepFn(query: string, filterStatus: string): TestData -> bool {
    (t: TestData) => MatchesSearch(t, query) && InBucket(filterStatus, t.status)
  }

  /** `filteredTests`: the tests that match the search and lie in the tab's bucket, in order. */
  function FilteredTests(tests: seq<TestData>, query: string, filterStatus: string): (r: seq<TestData>)
    ensures forall k :: 0 <= k < |r| ==> MatchesSearch(r[k], query) && InBucket(filterStatus, r[k].status)
    ensures forall k :: 0 <= k < |tests| && MatchesSearch(tests[k], query) && InBucket(filterStatus, tests[k].status)
              ==> tests[k] in r
    ensures IsSubsequence(r, tests) && |r| <= |tests|
    ensures forall t :: multiset(r)[t] ==
              if MatchesSearch(t, query) && InBucket(filterStatus, t.status) then multiset(tests)[t] else 0
  {
    var r := Filter(tests, KeepFn(query, filterStatus));
    FilterMultiset(tests, KeepFn(query, filterStatus));
    FilterIsSubsequence(tests, KeepFn(query, filterStatus));
    SubsequenceLength(r, tests);
    r
  }

  /** An empty search on the "all" tab lists every test. */
  lemma EmptySearchListsAll(tests: seq<TestData>)
    ensures FilteredTests(tests, "", "all") == tests
  {
    forall k | 0 <= k < |tests| ensures KeepFn("", "all")(tests[k]) {
      MatchesEmpty(tests[k].title);
    }
    FilterAll(tests, KeepFn("", "all"));
  }

  /** A tab value other than the four lists nothing. */
  lemma UnknownTabListsNothing(tests: seq<TestData>, query: string, filterStatus: string)
    requires filterStatus !in {"all", "active", "completed", "expired"}
    ensures FilteredTests(tests, query, filterStatus) == []
  {
    FilterNone(tests, KeepFn(query, filterStatus));
  }

  /** A tab's list is the "all" list narrowed to the tab's statuses. */
  lemma TabNarrowsAll(tests: seq<TestData>, query: string, filterStatus: string)
    ensures FilteredTests(tests, query, filterStatus)
         == Filter(FilteredTests(tests, query, "all"), BucketFn(filterStatus))
  {
    FilterConjunction(tests, BucketFn(filterStatus), KeepFn(query, "all"),
                      KeepFn(query, filterStatus));
  }

  /** For one search, the Active, Completed and Expired tabs split the All tab:
      their counts add up to its count. */
  lemma TabsPartitionAll(tests: seq<TestData>, query: string)
    ensures |FilteredTests(tests, query, "active")| + |FilteredTests(tests, query, "completed")|
          + |FilteredTests(tests, query, "expired")| == |FilteredTests(tests, query, "all")|
  {
    var all := FilteredTests(tests, query, "all");
    TabNarrowsAll(tests, query, "active");
    TabNarrowsAll(tests, query, "completed");
    TabNarrowsAll(tests, query, "expired");
    var a, c, e := BucketFn("active"), BucketFn("completed"), BucketFn("expired");
    forall t: TestData
      ensures (a(t) || c(t) || e(t)) && !(a(t) && c(t)) && !(a(t) && e(t)) && !(c(t) && e(t))
    {
      BucketMeaning("", t.status);
    }
    FilterPartition3(all, a, c, e);
  }
}
