/** The developer's learning paths (src/app/developer-dashboard/learning/page.tsx):
    the progress-bar colour, the difficulty badge and the completed-module count. */
module Learning {
  import opened Seqs

  datatype PathModule = PathModule(id: string, title: string, isCompleted: bool)

  /** A learning path. `progress` is a stored percentage, not computed from the modules. */
  datatype LearningPath = LearningPath(
    id: string,
    title: string,
    description: string,
    progress: int,
    estimatedHours: int,
    difficulty: string,
    skills: seq<string>,
    isRecommended: bool,
    modules: seq<PathModule>)

  /** `getProgressColor`: green from 75, blue from 25, amber below. */
  function ProgressColor(progress: int): (r: string)
    ensures r == "bg-green-600" <==> progress >= 75
    ensures r == "bg-blue-600" <==> 25 <= progress < 75
    ensures r == "bg-amber-600" <==> progress < 25
  {
    if progress >= 75 then "bg-green-600"
    else if progress >= 25 then "bg-blue-600"
    else "bg-amber-600"
  }

  /** The bands in order: amber, blue, green. */
  function Rank(color: string): nat {
    if color == "bg-green-600" then 2 else if color == "bg-blue-600" then 1 else 0
  }

  /** More progress never gives a lower band. */
  lemma ProgressColorMonotone(a: int, b: int)
    requires a <= b
    ensures Rank(ProgressColor(a)) <= Rank(ProgressColor(b))
  {
  }

  /** `getDifficultyColor`: a class per level, gray for anything else. */
  function DifficultyColor(difficulty: string): (r: string)
    ensures r == "bg-gray-100 text-gray-800" <==> difficulty !in {"Beginner", "Intermediate", "Advanced"}
  {
    match difficulty
    case "Beginner" => "bg-green-100 text-green-800"
    case "Intermediate" => "bg-blue-100 text-blue-800"
    case "Advanced" => "bg-purple-100 text-purple-800"
    case _ => "bg-gray-100 text-gray-800"
  }

  /** Different levels get different badges. */
  lemma DifficultyColorInjective(a: string, b: string)
    requires a in {"Beginner", "Intermediate", "Advanced"} && DifficultyColor(a) == DifficultyColor(b)
    ensures a == b
  {
  }

  predicate IsCompleted(m: PathModule) { m.isCompleted }

  /** "n of m modules completed": n counts the completed modules, so n <= m,
      with n == m exactly when every module is completed. */
  function CompletedCount(path: LearningPath): (n: nat)
    ensures n <= |path.modules|
    ensures n == |path.modules| <==> forall k :: 0 <= k < |path.modules| ==> path.modules[k].isCompleted
  {
    var done := Filter(path.modules, IsCompleted);
    AllCompletedIff(path.modules);
    |done|
  }

  lemma {:induction false} AllCompletedIff(ms: seq<PathModule>)
    ensures |Filter(ms, IsCompleted)| == |ms| <==> forall k :: 0 <= k < |ms| ==> ms[k].isCompleted
  {
    if ms != [] {
      AllCompletedIff(ms[1..]);
      assert forall k :: 1 <= k < |ms| ==> ms[k] == ms[1..][k - 1];
    }
  }

  /** The modules of the first mock path: two of four completed. */
  function FirstPathModules(): seq<PathModule> {
    [ PathModule("1-1", "Modern JavaScript Syntax", true),
      PathModule("1-2", "Working with Arrays and Objects", true),
      PathModule("1-3", "Asynchronous Programming", false),
      PathModule("1-4", "Error Handling and Debugging", false) ]
  }

  /** The displayed progress is the stored number: the first mock path
      stores 65% although half of its modules are completed. */
  lemma ProgressNotDerived(p: LearningPath)
    requires p.progress == 65 && p.modules == FirstPathModules()
    ensures CompletedCount(p) * 100 / |p.modules| == 50 != p.progress
  {
    HalfOfFirstModules();
  }

  lemma HalfOfFirstModules()
    ensures |FirstPathModules()| == 4 && |Filter(FirstPathModules(), IsCompleted)| == 2
  {
    var ms := FirstPathModules();
    assert ms[2..][1..] == ms[3..];
    assert Filter(ms[3..], IsCompleted) == [];
    assert Filter(ms[2..], IsCompleted) == [];
    assert Filter(ms[1..], IsCompleted) == [ms[1]];
    assert Filter(ms, IsCompleted) == [ms[0], ms[1]];
  }
}
