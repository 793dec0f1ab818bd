/** The developer's achievements page
    (src/app/developer-dashboard/achievements/page.tsx): earned and
    in-progress lists, the "next achievement" card and the level colour. */
module Achievements {
  import opened Options
  import opened Seqs

  /** An achievement; the icon is left out, category and level are compared as text. */
  datatype Achievement = Achievement(
    id: string,
    title: string,
    description: string,
    earnedAt: Option<string>,
    isEarned: bool,
    progress: Option<int>,
    category: string,
    level: Option<string>)

  predicate IsEarned(a: Achievement) { a.isEarned }
  predicate NotEarned(a: Achievement) { !a.isEarned }

  /** `earnedAchievements`. */
  function Earned(all: seq<Achievement>): (r: seq<Achievement>)
    ensures forall k :: 0 <= k < |r| ==> r[k].isEarned
    ensures forall k :: 0 <= k < |all| && all[k].isEarned ==> all[k] in r
    ensures IsSubsequence(r, all)
    ensures forall a :: multiset(r)[a] == if a.isEarned then multiset(all)[a] else 0
  {
    FilterIsSubsequence(all, IsEarned);
    FilterMultiset(all, IsEarned);
    Filter(all, IsEarned)
  }

  /** `inProgressAchievements`. */
  function InProgress(all: seq<Achievement>): (r: seq<Achievement>)
    ensures forall k :: 0 <= k < |r| ==> !r[k].isEarned
    ensures forall k :: 0 <= k < |all| && !all[k].isEarned ==> all[k] in r
    ensures IsSubsequence(r, all)
    ensures forall a :: multiset(r)[a] == if a.isEarned then 0 else multiset(all)[a]
  {
    FilterIsSubsequence(all, NotEarned);
    FilterMultiset(all, NotEarned);
    Filter(all, NotEarned)
  }

  /** The two lists split the achievements: every one is in exactly one of
      them, so the "earned / total" card never shows more earned than total. */
  lemma EarnedInProgressPartition(all: seq<Achievement>)
    ensures |Earned(all)| + |InProgress(all)| == |all|
    ensures |Earned(all)| <= |all|
    ensures forall a :: a in Earned(all) ==> a !in InProgress(all)
  {
    FilterComplement(all, IsEarned, NotEarned);
  }

  /** `inProgressAchievements[0]?.title`: the title of the first achievement
      not yet earned, or nothing when all are earned. */
  function NextAchievement(all: seq<Achievement>): (r: Option<string>)
    ensures r.None? <==> forall k :: 0 <= k < |all| ==> all[k].isEarned
    ensures r.Some? ==> exists k :: 0 <= k < |all| && !all[k].isEarned && all[k].title == r.value
                                  && forall j :: 0 <= j < k ==> all[j].isEarned
  {
    var pending := InProgress(all);
    FirstInProgress(all);
    if |pending| > 0 then Some(pending[0].title) else None
  }

  /** The head of the in-progress list is the first unearned achievement. */
  lemma FirstInProgress(all: seq<Achievement>)
    ensures |InProgress(all)| > 0 ==> exists k :: 0 <= k < |all| && all[k] == InProgress(all)[0]
                                           && forall j :: 0 <= j < k ==> all[j].isEarned
  {
    FilterHead(all, NotEarned);
  }

  /** `getLevelColor`: a colour per medal, blue when there is none or it is unknown. */
  function LevelColor(level: Option<string>): (r: string)
    ensures r == "text-blue-500" <==> level.None? || level.value !in {"bronze", "silver", "gold"}
  {
    match level
    case Some("bronze") => "text-amber-600"
    case Some("silver") => "text-slate-400"
    case Some("gold") => "text-yellow-500"
    case _ => "text-blue-500"
  }

  /** Different medals get different colours. */
  lemma LevelColorInjective(a: string, b: Option<string>)
    requires a in {"bronze", "silver", "gold"} && LevelColor(Some(a)) == LevelColor(b)
    ensures b == Some(a)
  {
  }
}
