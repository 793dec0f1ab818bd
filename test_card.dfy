/** A developer's test card (src/components/developer/TestCard.tsx): the
    action button chosen by the test's status, the difficulty badge, the
    score line and the local `cn` class-name joiner. */
module TestCard {
  import opened Options
  import opened Strings
  import opened Seqs

  /** The four statuses the `TestData` type allows. */
  datatype Status = NotStarted | InProgress | Completed | Expired

  /** `TestData`; difficulty is kept as text because the colour function takes any string. */
  datatype TestData = TestData(
    id: string,
    title: string,
    company: string,
    difficulty: string,
    duration: int,
    deadline: string,
    status: Status,
    score: Option<int>,
    skills: seq<string>)

  /** What the footer button does: a callback with the test's id, or a
      disabled "Expired" button with none. */
  datatype Action = StartTest(id: string) | ContinueTest(id: string) | ViewResults(id: string) | Disabled

  /** `getActionButton`: the status picks the button; every live button
      passes `test.id` to its callback, and only an expired test has none. */
  function ActionButton(t: TestData): (a: Action)
    ensures a.Disabled? <==> t.status == Expired
    ensures !a.Disabled? ==> a.id == t.id
    ensures a.StartTest? <==> t.status == NotStarted
    ensures a.ContinueTest? <==> t.status == InProgress
    ensures a.ViewResults? <==> t.status == Completed
  {
    match t.status
    case NotStarted => StartTest(t.id)
    case InProgress => ContinueTest(t.id)
    case Completed => ViewResults(t.id)
    case Expired => Disabled
  }

  /** The button's caption. */
  function ButtonLabel(a: Action): string {
    match a
    case StartTest(_) => "Start Test"
    case ContinueTest(_) => "Continue Test"
    case ViewResults(_) => "View Results"
    case Disabled => "Expired"
  }

  /** Two tests with the same status get the same caption, and different
      statuses different captions. */
  lemma ButtonLabelDeterminesStatus(s: TestData, t: TestData)
    ensures ButtonLabel(ActionButton(s)) == ButtonLabel(ActionButton(t)) <==> s.status == t.status
  {
  }

  /** `getDifficultyColor`: one class per difficulty, blue for anything else. */
  function DifficultyColor(difficulty: string): (r: string)
    ensures r == "bg-blue-100 text-blue-800" <==> difficulty !in {"Easy", "Medium", "Hard"}
  {
    match difficulty
    case "Easy" => "bg-green-100 text-green-800"
    case "Medium" => "bg-yellow-100 text-yellow-800"
    case "Hard" => "bg-red-100 text-red-800"
    case _ => "bg-blue-100 text-blue-800"
  }

  /** Different known difficulties get different badges. */
  lemma DifficultyColorInjective(a: string, b: string)
    requires a in {"Easy", "Medium", "Hard"} && DifficultyColor(a) == DifficultyColor(b)
    ensures a == b
  {
  }

  /** The "Score: n%" line, shown only for a completed test that has a score. */
  function ScoreLine(t: TestData): (r: Option<string>)
    ensures r.Some? <==> t.status == Completed && t.score.Some?
    ensures r.Some? ==> StartsWith(r.value, "Score: ") && r.value[|r.value| - 1] == '%'
    ensures r.Some? ==> |r.value| >= 9
    ensures r.Some? && t.score.value >= 0 ==>
      AllDigits(r.value[7..|r.value| - 1]) && DecimalValue(r.value[7..|r.value| - 1]) == t.score.value
  {
    if t.status == Completed && t.score.Some? then
      var digits := IntToString(t.score.value);
      var line := "Score: " + digits + "%";
      assert line[7..|line| - 1] == digits;
      DecimalValueOfNatToString(if t.score.value >= 0 then t.score.value else 0);
      Some(line)
    else None
  }

  // ------------------------------------------------------------------ cn

  /** An argument of `cn(...classes: (string | boolean | undefined)[])`. */
  datatype ClassArg = Text(s: string) | Flag(b: bool) | Undefined

  /** `Boolean(arg)`: non-empty text and `true` are truthy. */
  predicate Truthy(a: ClassArg) {
    (a.Text? && a.s != "") || (a.Flag? && a.b)
  }

  /** How `join` prints an argument that survived the filter. */
  function Render(a: ClassArg): string {
    match a
    case Text(s) => s
    case Flag(b) => if b then "true" else "false"
    case Undefined => "undefined"
  }

  function RenderAll(args: seq<ClassArg>): (r: seq<string>)
    ensures |r| == |args|
    ensures forall k :: 0 <= k < |args| ==> r[k] == Render(args[k])
  {
    if args == [] then [] else [Render(args[0])] + RenderAll(args[1..])
  }

  /** `classes.filter(Boolean).join(" ")`. */
  function Cn(args: seq<ClassArg>): string {
    Join(RenderAll(Filter(args, Truthy)), ' ')
  }

  /** With no truthy argument the class string is empty. */
  lemma CnAllFalsy(args: seq<ClassArg>)
    requires forall k :: 0 <= k < |args| ==> !Truthy(args[k])
    ensures Cn(args) == ""
  {
    FilterNone(args, Truthy);
  }

  /** The truthy class names come back out, in order, when the result is
      split at spaces, provided none of them contains a space. */
  lemma CnSplit(args: seq<ClassArg>)
    requires exists k :: 0 <= k < |args| && Truthy(args[k])
    requires forall k :: 0 <= k < |args| ==> ' ' !in Render(args[k])
    ensures Split(Cn(args), ' ') == RenderAll(Filter(args, Truthy))
  {
    var kept := Filter(args, Truthy);
    var names := RenderAll(kept);
    var k :| 0 <= k < |args| && Truthy(args[k]);
    assert args[k] in kept;
    forall j | 0 <= j < |names| ensures ' ' !in names[j] {
      assert kept[j] in args;
      var i :| 0 <= i < |args| && args[i] == kept[j];
      assert names[j] == Render(args[i]);
    }
    assert Cn(args) == Join(names, ' ');
    SplitJoin(names, ' ');
  }

  /** `cond && "class"`: the class when the condition holds, `false` otherwise. */
  function When(cond: bool, cls: string): ClassArg {
    if cond then Text(cls) else Flag(false)
  }

  /** The classes of the status line: the base, then one colour per status
      guarded by a comparison with the test's status. */
  function StatusLineArgs(status: Status): seq<ClassArg> {
    [ Text("text-sm font-medium"),
      When(status == Completed, "text-green-600"),
      When(status == InProgress, "text-blue-600"),
      When(status == Expired, "text-red-600") ]
  }

  /** The status line's colour, if its status has one. */
  function StatusTextColor(status: Status): Option<string> {
    match status
    case Completed => Some("text-green-600")
    case InProgress => Some("text-blue-600")
    case Expired => Some("text-red-600")
    case NotStarted => None
  }

  /** The status line gets the base classes and, after a space, the colour of
      its status; a test not started gets the base classes alone. */
  lemma StatusLineClasses(status: Status)
    ensures StatusTextColor(status).None? ==> Cn(StatusLineArgs(status)) == "text-sm font-medium"
    ensures StatusTextColor(status).Some? ==>
      Cn(StatusLineArgs(status)) == "text-sm font-medium" + " " + StatusTextColor(status).value
  {
    var args := StatusLineArgs(status);
    assert args == [Text("text-sm font-medium"), args[1], args[2], args[3]];
    CnBaseAndOne("text-sm font-medium", args[1], args[2], args[3]);
  }

  /** `cond && "class"` with a non-empty class: `false` or that class. */
  predicate Guarded(a: ClassArg) {
    a == Flag(false) || (a.Text? && a.s != "")
  }

  /** The one class present among three guarded ones, if any. */
  function Present(x: ClassArg, y: ClassArg, z: ClassArg): seq<ClassArg> {
    if x.Text? then [x] else if y.Text? then [y] else if z.Text? then [z] else []
  }

  /** A base class followed by three guarded classes of which at most one is
      present: the base alone, or the base, a space and that one class. */
  lemma CnBaseAndOne(base: string, x: ClassArg, y: ClassArg, z: ClassArg)
    requires base != "" && Guarded(x) && Guarded(y) && Guarded(z)
    requires (x.Text? ==> y == z == Flag(false)) && (y.Text? ==> z == Flag(false))
    ensures !x.Text? && !y.Text? && !z.Text? ==> Cn([Text(base), x, y, z]) == base
    ensures x.Text? ==> Cn([Text(base), x, y, z]) == base + " " + x.s
    ensures y.Text? ==> Cn([Text(base), x, y, z]) == base + " " + y.s
    ensures z.Text? ==> Cn([Text(base), x, y, z]) == base + " " + z.s
  {
    FilterFour(Text(base), x, y, z, Truthy);
    KeptPresent(base, x, y, z);
    CnBaseThen(base, Present(x, y, z));
  }

  lemma KeptPresent(base: string, x: ClassArg, y: ClassArg, z: ClassArg)
    requires base != "" && Guarded(x) && Guarded(y) && Guarded(z)
    requires (x.Text? ==> y == z == Flag(false)) && (y.Text? ==> z == Flag(false))
    ensures KeptOne(Text(base), Truthy) + (KeptOne(x, Truthy) + (KeptOne(y, Truthy) + KeptOne(z, Truthy)))
      == [Text(base)] + Present(x, y, z)
  {
  }

  /** The base class, then at most one more. */
  lemma CnBaseThen(base: string, rest: seq<ClassArg>)
    requires base != "" && |rest| <= 1
    requires rest != [] ==> rest[0].Text? && rest[0].s != ""
    ensures rest == [] ==> Join(RenderAll([Text(base)] + rest), ' ') == base
    ensures rest != [] ==> Join(RenderAll([Text(base)] + rest), ' ') == base + " " + rest[0].s
  {
    if rest == [] {
      assert [Text(base)] + rest == [Text(base)];
      assert RenderAll([Text(base)]) == [base];
    } else {
      assert RenderAll([Text(base)] + rest) == [base, rest[0].s];
      JoinTwo(base, rest[0].s);
    }
  }

  lemma JoinTwo(a: string, b: string)
    ensures Join([a, b], ' ') == a + " " + b
  {
    assert [a, b][1..] == [b];
  }
}
