/** The code-analysis report (src/components/reports/CodeAnalysis.tsx): the
    colour of the three score cards and the severity badge of each issue
    (whose text is `Strings.Capitalize` of the severity). */
module CodeAnalysis {

  /** `getScoreColor`: green from 90, amber from 70, red below. */
  function ScoreColor(score: int): (r: string)
    ensures r == "text-green-500" <==> score >= 90
    ensures r == "text-amber-500" <==> 70 <= score < 90
    ensures r == "text-red-500" <==> score < 70
  {
    if score >= 90 then "text-green-500"
    else if score >= 70 then "text-amber-500"
    else "text-red-500"
  }

  /** The bands in order, worst first. */
  function Rank(color: string): nat {
    if color == "text-green-500" then 2 else if color == "text-amber-500" then 1 else 0
  }

  /** A higher score never gets a worse colour. */
  lemma ScoreColorMonotone(a: int, b: int)
    requires a <= b
    ensures Rank(ScoreColor(a)) <= Rank(ScoreColor(b))
  {
  }

  /** The report's default scores: code quality 85, performance 78, problem solving 92. */
  lemma DefaultScoreColors()
    ensures ScoreColor(85) == "text-amber-500"
    ensures ScoreColor(78) == "text-amber-500"
    ensures ScoreColor(92) == "text-green-500"
  {
  }

  /** A badge's `variant`. */
  datatype Variant = Destructive | Secondary | Default

  /** `getSeverityColor`: errors are destructive, warnings secondary, the rest default. */
  function SeverityVariant(severity: string): (r: Variant)
    ensures r == Destructive <==> severity == "error"
    ensures r == Secondary <==> severity == "warning"
    ensures r == Default <==> severity != "error" && severity != "warning"
  {
    match severity
    case "error" => Destructive
    case "warning" => Secondary
    case "info" => Default
    case _ => Default
  }
}
