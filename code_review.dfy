/** The code-review panel of the collaborative editor
    (src/components/collaborative/CodeReviewPanel.tsx): error and warning
    counters, the severity badge colour and label, and the issue list. */
module CodeReview {
  import opened Options
  import opened Strings
  import opened Seqs

  /** A lint finding; severity is "error", "warning" or "info", compared as text. */
  datatype CodeIssue = CodeIssue(line: int, code: string, message: string, severity: string, rule: Option<string>)

  predicate IsError(i: CodeIssue) { i.severity == "error" }
  predicate IsWarning(i: CodeIssue) { i.severity == "warning" }
  predicate IsInfo(i: CodeIssue) { i.severity == "info" }

  /** The "n Errors" badge. */
  function ErrorCount(issues: seq<CodeIssue>): nat { |Filter(issues, IsError)| }

  /** The "n Warnings" badge. */
  function WarningCount(issues: seq<CodeIssue>): nat { |Filter(issues, IsWarning)| }

  /** The two badges never count more issues than there are; info issues
      are in neither, and with only the three severities the badges plus
      the info issues are all of them. */
  lemma BadgeCounts(issues: seq<CodeIssue>)
    ensures ErrorCount(issues) + WarningCount(issues) <= |issues|
    ensures (forall k :: 0 <= k < |issues| ==> issues[k].severity in {"error", "warning", "info"}) ==>
      ErrorCount(issues) + WarningCount(issues) + |Filter(issues, IsInfo)| == |issues|
  {
    FilterDisjoint(issues, IsError, IsWarning);
    if forall k :: 0 <= k < |issues| ==> issues[k].severity in {"error", "warning", "info"} {
      ThreeSeverities(issues);
    }
  }

  lemma {:induction false} ThreeSeverities(issues: seq<CodeIssue>)
    requires forall k :: 0 <= k < |issues| ==> issues[k].severity in {"error", "warning", "info"}
    ensures ErrorCount(issues) + WarningCount(issues) + |Filter(issues, IsInfo)| == |issues|
  {
    if issues != [] {
      ThreeSeverities(issues[1..]);
    }
  }

  /** `getSeverityColor`: a class per severity, gray for anything else. */
  function SeverityColor(severity: string): (r: string)
    ensures r == "bg-gray-100 text-gray-800 border-gray-200" <==> severity !in {"error", "warning", "info"}
  {
    match severity
    case "error" => "bg-red-100 text-red-800 border-red-200"
    case "warning" => "bg-yellow-100 text-yellow-800 border-yellow-200"
    case "info" => "bg-blue-100 text-blue-800 border-blue-200"
    case _ => "bg-gray-100 text-gray-800 border-gray-200"
  }

  /** Different severities get different colours. */
  lemma SeverityColorInjective(a: string, b: string)
    requires a in {"error", "warning", "info"} && SeverityColor(a) == SeverityColor(b)
    ensures a == b
  {
  }

  /** The headings of the three severities, `charAt(0).toUpperCase() + slice(1)`. */
  lemma SeverityLabels()
    ensures Capitalize("error") == "Error"
    ensures Capitalize("warning") == "Warning"
    ensures Capitalize("info") == "Info"
  {
  }

  /** One rendered issue row. */
  datatype Row = Row(heading: string, line: int, ruleBadge: Option<string>, code: string, message: string)

  /** The panel's body: a placeholder when the list is empty, one row per issue otherwise. */
  datatype Body = NoIssuesFound | Rows(rows: seq<Row>)

  /** `{issue.rule && <Badge>}`: a badge only for a defined, non-empty rule. */
  function RuleBadge(rule: Option<string>): (r: Option<string>)
    ensures r.Some? <==> rule.Some? && rule.value != ""
    ensures r.Some? ==> r == rule
  {
    if rule.Some? && rule.value != "" then rule else None
  }

  function RowOf(i: CodeIssue): Row {
    Row(Capitalize(i.severity), i.line, RuleBadge(i.rule), i.code, i.message)
  }

  function RowsOf(issues: seq<CodeIssue>): (r: seq<Row>)
    ensures |r| == |issues|
    ensures forall k :: 0 <= k < |issues| ==> r[k] == RowOf(issues[k])
  {
    if issues == [] then [] else [RowOf(issues[0])] + RowsOf(issues[1..])
  }

  /** The body: placeholder exactly for an empty list; otherwise rows in
      issue order, each labelled by its capitalised severity and carrying a
      rule badge exactly when the rule is set. */
  function RenderBody(issues: seq<CodeIssue>): (b: Body)
    ensures b.NoIssuesFound? <==> issues == []
    ensures b.Rows? ==> |b.rows| == |issues|
    ensures b.Rows? ==> forall k :: 0 <= k < |issues| ==>
      b.rows[k].heading == Capitalize(issues[k].severity) && b.rows[k].line == issues[k].line &&
      (b.rows[k].ruleBadge.Some? <==> issues[k].rule.Some? && issues[k].rule.value != "")
  {
    if |issues| > 0 then Rows(RowsOf(issues)) else NoIssuesFound
  }
}
