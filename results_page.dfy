/** The developer's results page (src/app/developer-dashboard/results/page.tsx):
    a search over title, company and skill names, and the score colour. */
module ResultsPage {
  import opened Strings
  import opened Seqs

  datatype SkillScore = SkillScore(name: string, score: int)

  datatype TestResult = TestResult(
    id: string,
    title: string,
    company: string,
    completedAt: string,
    score: int,
    skills: seq<SkillScore>,
    hasFeedback: bool)

  /** The predicate given to `allResults.filter`. */
  predicate MatchesSearch(r: TestResult, query: string) {
    Matches(r.title, query) || Matches(r.company, query) ||
    exists k :: 0 <= k < |r.skills| && Matches(r.skills[k].name, query)
  }

  function KeepFn(query: string): TestResult -> bool {
    (r: TestResult) => MatchesSearch(r, query)
  }

  /** `filteredResults`: the matching results, in their order. */
  function FilteredResults(results: seq<TestResult>, query: string): (r: seq<TestResult>)
    ensures forall k :: 0 <= k < |r| ==> MatchesSearch(r[k], query)
    ensures forall k :: 0 <= k < |results| && MatchesSearch(results[k], query) ==> results[k] in r
    ensures IsSubsequence(r, results) && |r| <= |results|
    ensures forall x :: multiset(r)[x] == if MatchesSearch(x, query) then multiset(results)[x] else 0
  {
    var r := Filter(results, KeepFn(query));
    FilterMultiset(results, KeepFn(query));
    FilterIsSubsequence(results, KeepFn(query));
    SubsequenceLength(r, results);
    r
  }

  /** An empty search keeps every result, in order. */
  lemma EmptySearchKeepsAll(results: seq<TestResult>)
    ensures FilteredResults(results, "") == results
  {
    forall k | 0 <= k < |results| ensures KeepFn("")(results[k]) {
      MatchesEmpty(results[k].title);
    }
    FilterAll(results, KeepFn(""));
  }

  /** A result without skills can be found only by its title or company. */
  lemma NoSkillsSearchesTitleAndCompany(r: TestResult, query: string)
    requires r.skills == []
    ensures MatchesSearch(r, query) <==> Matches(r.title, query) || Matches(r.company, query)
  {
  }

  /** `getScoreColor`: green from 90, amber from 70, red below. */
  function ScoreColor(score: int): (r: string)
    ensures r == "text-green-600" <==> score >= 90
    ensures r == "text-amber-600" <==> 70 <= score < 90
    ensures r == "text-red-600" <==> score < 70
  {
    if score >= 90 then "text-green-600"
    else if score >= 70 then "text-amber-600"
    else "text-red-600"
  }

  /** The bands in order, worst first. */
  function Rank(color: string): nat {
    if color == "text-green-600" then 2 else if color == "text-amber-600" then 1 else 0
  }

  /** A higher score never gets a worse colour. */
  lemma ScoreColorMonotone(a: int, b: int)
    requires a <= b
    ensures Rank(ScoreColor(a)) <= Rank(ScoreColor(b))
  {
  }
}
