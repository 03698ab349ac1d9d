/** The milestone messages and the word counter of src/components/ProgressBar.tsx. */
module ProgressBar {
  import opened Wrappers

  datatype Milestone = Milestone(at: int, message: string)

  /** `MILESTONES`. */
  const Milestones: seq<Milestone> := [
    Milestone(1, "\U{1F9E0} Your brain is getting stronger!"),
    Milestone(3, "\U{1F31F} You solved 3 words! Keep going!"),
    Milestone(5, "\U{1F9E0} You are training your reading muscles!"),
    Milestone(7, "\U{1F31F} 7 words! You are on fire! \U{1F525}"),
    Milestone(10, "\U{1F3C6} 10 words! You are a word champion!"),
    Milestone(15, "\U{1F31F} 15 words! Super reader in the making! \U{1F9E0}"),
    Milestone(20, "\U{1F3C6} 20 words! Your reading superpowers are REAL! \U{1F4AA}")
  ]

  /** The thresholds rise strictly. */
  predicate Increasing(ms: seq<Milestone>) {
    forall i, j :: 0 <= i < j < |ms| ==> ms[i].at < ms[j].at
  }

  /** `[...ms].reverse().find(m => count >= m.at)`: the last milestone reached. */
  function LastReached(ms: seq<Milestone>, count: int): (r: Option<nat>)
    ensures r.Some? ==>
      (r.value < |ms| && ms[r.value].at <= count && forall k :: r.value < k < |ms| ==> ms[k].at > count)
    ensures r.None? ==> forall k :: 0 <= k < |ms| ==> ms[k].at > count
    decreases |ms|
  {
    if ms == [] then None
    else if count >= ms[|ms| - 1].at then Some(|ms| - 1)
    else LastReached(ms[..|ms| - 1], count)
  }

  /** `getMilestoneMessage`: the message of the last milestone reached, if any. */
  function GetMilestoneMessage(correctCount: int): (r: Option<string>)
    ensures r.Some? ==> exists k :: 0 <= k < |Milestones| && Milestones[k].at <= correctCount && r.value == Milestones[k].message
  {
    match LastReached(Milestones, correctCount)
    case None => None
    case Some(k) => Some(Milestones[k].message)
  }

  lemma MilestonesIncreasing()
    ensures Increasing(Milestones)
  {
  }

  /**
   * Over rising thresholds the last milestone reached is the one with the
   * largest threshold not above the count.
   */
  lemma LastReachedIsLargest(ms: seq<Milestone>, count: int)
    requires Increasing(ms)
    ensures var r := LastReached(ms, count);
      r.Some? ==> forall k :: 0 <= k < |ms| && ms[k].at <= count ==> ms[k].at <= ms[r.value].at
  {
  }

  /**
   * No message before the first correct answer and one from then on; it is
   * the message of the largest threshold reached.
   */
  lemma MilestoneMessageFacts(correctCount: int)
    ensures GetMilestoneMessage(correctCount).None? <==> correctCount < 1
    ensures GetMilestoneMessage(correctCount).Some? ==>
      exists k :: 0 <= k < |Milestones| && Milestones[k].at <= correctCount
        && GetMilestoneMessage(correctCount) == Some(Milestones[k].message)
        && forall m :: 0 <= m < |Milestones| && Milestones[m].at <= correctCount ==> Milestones[m].at <= Milestones[k].at
  {
    MilestonesIncreasing();
    LastReachedIsLargest(Milestones, correctCount);
    assert Milestones[0].at == 1;
  }

  /** Four correct answers show the three-word message. */
  lemma FourGivesThree()
    ensures GetMilestoneMessage(4) == Some(Milestones[1].message)
  {
  }

  /** From twenty on the message stays the last one. */
  lemma TwentyOrMoreGivesTwenty(correctCount: int)
    requires correctCount >= 20
    ensures GetMilestoneMessage(correctCount) == Some(Milestones[6].message)
  {
  }

  /** The "Word N of total" number, `Math.min(current + 1, total)`. */
  function WordNumber(current: int, total: int): (n: int)
    ensures n <= total
    ensures current < total ==> n == current + 1
    ensures current >= total ==> n == total
  {
    if current + 1 <= total then current + 1 else total
  }
}
