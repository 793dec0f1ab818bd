/** The reviewers' feedback section (src/components/reports/FeedbackSection.tsx):
    the All / Positive / Needs Improvement tabs, each card's type label and the
    author's avatar initials. */
module Feedback {
  import opened Options
  import opened Strings
  import opened Seqs

  datatype FeedbackType = Positive | Negative | Neutral

  datatype Reviewer = Reviewer(id: string, name: string, role: string, avatarUrl: Option<string>)

  datatype FeedbackItem = FeedbackItem(id: string, content: string, kind: FeedbackType, author: Reviewer, createdAt: string)

  predicate IsPositive(item: FeedbackItem) { item.kind == Positive }
  predicate IsNegative(item: FeedbackItem) { item.kind == Negative }
  predicate IsNeutral(item: FeedbackItem) { item.kind == Neutral }

  /** The "All Feedback" tab: every item, in order. */
  function AllTab(items: seq<FeedbackItem>): seq<FeedbackItem> {
    items
  }

  /** The "Positive" tab: exactly the positive items, in order. */
  function PositiveTab(items: seq<FeedbackItem>): (r: seq<FeedbackItem>)
    ensures forall k :: 0 <= k < |r| ==> r[k].kind == Positive
    ensures forall k :: 0 <= k < |items| && items[k].kind == Positive ==> items[k] in r
    ensures IsSubsequence(r, AllTab(items))
    ensures forall x :: multiset(r)[x] == if x.kind == Positive then multiset(items)[x] else 0
  {
    FilterIsSubsequence(items, IsPositive);
    FilterMultiset(items, IsPositive);
    Filter(items, IsPositive)
  }

  /** The "Needs Improvement" tab: exactly the negative items, in order. */
  function NegativeTab(items: seq<FeedbackItem>): (r: seq<FeedbackItem>)
    ensures forall k :: 0 <= k < |r| ==> r[k].kind == Negative
    ensures forall k :: 0 <= k < |items| && items[k].kind == Negative ==> items[k] in r
    ensures IsSubsequence(r, AllTab(items))
    ensures forall x :: multiset(r)[x] == if x.kind == Negative then multiset(items)[x] else 0
  {
    FilterIsSubsequence(items, IsNegative);
    FilterMultiset(items, IsNegative);
    Filter(items, IsNegative)
  }

  /** Neutral items show up only under "All": the two other tabs hold at most
      as many cards as "All", and exactly as many when nothing is neutral. */
  lemma TabCounts(items: seq<FeedbackItem>)
    ensures |PositiveTab(items)| + |NegativeTab(items)| + |Filter(items, IsNeutral)| == |AllTab(items)|
    ensures |PositiveTab(items)| + |NegativeTab(items)| <= |AllTab(items)|
    ensures (forall k :: 0 <= k < |items| ==> items[k].kind != Neutral) ==>
      |PositiveTab(items)| + |NegativeTab(items)| == |AllTab(items)|
  {
    forall x: FeedbackItem
      ensures (IsPositive(x) || IsNegative(x) || IsNeutral(x)) && !(IsPositive(x) && IsNegative(x))
           && !(IsPositive(x) && IsNeutral(x)) && !(IsNegative(x) && IsNeutral(x))
    {
    }
    FilterPartition3(items, IsPositive, IsNegative, IsNeutral);
    if forall k :: 0 <= k < |items| ==> items[k].kind != Neutral {
      FilterNone(items, IsNeutral);
    }
  }

  /** The label next to a card's icon. */
  function TypeLabel(kind: FeedbackType): (r: string)
    ensures r == "Positive" <==> kind == Positive
    ensures r == "Needs Improvement" <==> kind == Negative
    ensures r == "Neutral" <==> kind == Neutral
  {
    match kind
    case Positive => "Positive"
    case Negative => "Needs Improvement"
    case Neutral => "Neutral"
  }

  /** The avatar fallback, `name.substring(0, 2).toUpperCase()`: the first two
      characters (fewer for a shorter name), upper-cased. */
  function Initials(name: string): (r: string)
    ensures |r| == if |name| < 2 then |name| else 2
    ensures forall k :: 0 <= k < |r| ==> r[k] == ToUpperChar(name[k])
  {
    ToUpper(if |name| < 2 then name else name[..2])
  }

  lemma InitialsOfReviewers()
    ensures Initials("Sarah Kim") == "SA"
    ensures Initials("Michael Chen") == "MI"
    ensures Initials("Alex Johnson") == "AL"
  {
  }
}
