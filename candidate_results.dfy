/** The company's candidate table (src/components/company/CandidateResults.tsx):
    a text search with two optional drop-down filters, the score cell and the
    status and suitability badge colours. */
module CandidateResults {
  import opened Options
  import opened Strings
  import opened Seqs

  /** Status is one of "Completed", "In Progress" or "Failed" and suitability
      one of "Suitable", "Pending" or "Not Suitable"; both are compared as text. */
  datatype Candidate = Candidate(
    id: string,
    name: string,
    email: string,
    testTitle: string,
    score: int,
    submittedAt: string,
    status: string,
    suitability: string)

  /** The search box matches the name, the email or the test title, ignoring case. */
  predicate MatchesSearch(c: Candidate, query: string) {
    Matches(c.name, query) || Matches(c.email, query) || Matches(c.testTitle, query)
  }

  /** A drop-down filter (`string | null`): a falsy one, `null` or "", admits
      every value; otherwise only the equal value. */
  predicate Admits(filter: Option<string>, value: string) {
    filter.None? || filter.value == "" || value == filter.value
  }

  /** The predicate given to `candidates.filter`. */
  predicate Keep(c: Candidate, query: string, statusFilter: Option<string>, suitabilityFilter: Option<string>) {
    MatchesSearch(c, query) && Admits(statusFilter, c.status) && Admits(suitabilityFilter, c.suitability)
  }

  function KeepFn(query: string, statusFilter: Option<string>, suitabilityFilter: Option<string>): Candidate -> bool {
    c => Keep(c, query, statusFilter, suitabilityFilter)
  }

  /** `filteredCandidates`: exactly the candidates that pass search and both
      filters, in table order, so the footer's "Showing n of m" has n <= m. */
  function FilteredCandidates(cs: seq<Candidate>, query: string, statusFilter: Option<string>,
                              suitabilityFilter: Option<string>): (r: seq<Candidate>)
    ensures forall k :: 0 <= k < |r| ==> Keep(r[k], query, statusFilter, suitabilityFilter)
    ensures forall k :: 0 <= k < |cs| && Keep(cs[k], query, statusFilter, suitabilityFilter) ==> cs[k] in r
    ensures IsSubsequence(r, cs) && |r| <= |cs|
    ensures forall c :: multiset(r)[c] == if Keep(c, query, statusFilter, suitabilityFilter) then multiset(cs)[c] else 0
  {
    var r := Filter(cs, KeepFn(query, statusFilter, suitabilityFilter));
    FilterMultiset(cs, KeepFn(query, statusFilter, suitabilityFilter));
    FilterIsSubsequence(cs, KeepFn(query, statusFilter, suitabilityFilter));
    SubsequenceLength(r, cs);
    r
  }

  /** With an empty search and no filter set, the whole table is shown. */
  lemma NoFilterShowsAll(cs: seq<Candidate>, statusFilter: Option<string>, suitabilityFilter: Option<string>)
    requires statusFilter.None? || statusFilter == Some("")
    requires suitabilityFilter.None? || suitabilityFilter == Some("")
    ensures FilteredCandidates(cs, "", statusFilter, suitabilityFilter) == cs
  {
    forall k | 0 <= k < |cs| ensures KeepFn("", statusFilter, suitabilityFilter)(cs[k]) {
      MatchesEmpty(cs[k].name);
    }
    FilterAll(cs, KeepFn("", statusFilter, suitabilityFilter));
  }

  /** Choosing a status never adds rows: the rows shown with a status filter
      are a subsequence of those shown without one. */
  lemma StatusFilterNarrows(cs: seq<Candidate>, query: string, status: string, suitabilityFilter: Option<string>)
    ensures IsSubsequence(FilteredCandidates(cs, query, Some(status), suitabilityFilter),
                          FilteredCandidates(cs, query, None, suitabilityFilter))
  {
    FilterMonotone(cs, KeepFn(query, Some(status), suitabilityFilter), KeepFn(query, None, suitabilityFilter));
  }

  /** Choosing a suitability never adds rows either. */
  lemma SuitabilityFilterNarrows(cs: seq<Candidate>, query: string, statusFilter: Option<string>, suitability: string)
    ensures IsSubsequence(FilteredCandidates(cs, query, statusFilter, Some(suitability)),
                          FilteredCandidates(cs, query, statusFilter, None))
  {
    FilterMonotone(cs, KeepFn(query, statusFilter, Some(suitability)), KeepFn(query, statusFilter, None));
  }

  /** The two filters act independently: both set is the status filter applied
      to what the suitability filter alone keeps. */
  lemma FiltersCompose(cs: seq<Candidate>, query: string, status: string, suitability: string)
    requires status != "" && suitability != ""
    ensures FilteredCandidates(cs, query, Some(status), Some(suitability))
         == Filter(FilteredCandidates(cs, query, None, Some(suitability)), (c: Candidate) => c.status == status)
  {
    FilterConjunction(cs, (c: Candidate) => c.status == status, KeepFn(query, None, Some(suitability)),
                      KeepFn(query, Some(status), Some(suitability)));
  }

  /** The score column: "-" while the test is in progress, else the score and "%". */
  function ScoreCell(c: Candidate): (r: string)
    ensures r == "-" <==> c.status == "In Progress"
    ensures r != "-" ==> |r| >= 2 && r[|r| - 1] == '%'
    ensures r != "-" && c.score >= 0 ==>
      AllDigits(r[..|r| - 1]) && DecimalValue(r[..|r| - 1]) == c.score
  {
    if c.status == "In Progress" then "-"
    else
      var digits := IntToString(c.score);
      var r := digits + "%";
      assert r[..|r| - 1] == digits;
      DecimalValueOfNatToString(if c.score >= 0 then c.score else 0);
      r
  }

  /** `getStatusColor`: a badge class per status, "" for anything else. */
  function StatusColor(status: string): (r: string)
    ensures r == "" <==> status !in {"Completed", "In Progress", "Failed"}
  {
    match status
    case "Completed" => "bg-green-100 text-green-800"
    case "In Progress" => "bg-blue-100 text-blue-800"
    case "Failed" => "bg-red-100 text-red-800"
    case _ => ""
  }

  /** Different statuses get different badges. */
  lemma StatusColorInjective(a: string, b: string)
    requires StatusColor(a) != "" && StatusColor(a) == StatusColor(b)
    ensures a == b
  {
  }

  /** `getSuitabilityColor`: a badge class per verdict, "" for anything else. */
  function SuitabilityColor(suitability: string): (r: string)
    ensures r == "" <==> suitability !in {"Suitable", "Not Suitable", "Pending"}
  {
    match suitability
    case "Suitable" => "bg-green-100 text-green-800"
    case "Not Suitable" => "bg-red-100 text-red-800"
    case "Pending" => "bg-amber-100 text-amber-800"
    case _ => ""
  }

  /** Different verdicts get different badges. */
  lemma SuitabilityColorInjective(a: string, b: string)
    requires SuitabilityColor(a) != "" && SuitabilityColor(a) == SuitabilityColor(b)
    ensures a == b
  {
  }
}
