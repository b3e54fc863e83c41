/**
 * The dashboard's session state: the fixed family data and the two maps the
 * views write into, job completion and charity contributions.
 */
module App {
  import opened JsValues
  import opened JsObject
  import opened Family
  import PocketMoneyTracker
  import CharityTracker

  /** `completedJobs[key] = completed`, as a value. */
  function MarkJob(done: map<JobKey, bool>, childName: string, jobIndex: int, completed: bool): (r: map<JobKey, bool>)
    ensures JobKey(childName, jobIndex) in r && r[JobKey(childName, jobIndex)] == completed
    ensures forall k :: k != JobKey(childName, jobIndex) ==> (k in r <==> k in done) && (k in done ==> r[k] == done[k])
  {
    done[JobKey(childName, jobIndex) := completed]
  }

  /** Repeating a job event changes nothing more; of two events on one job the last wins. */
  lemma MarkJobIdempotent(done: map<JobKey, bool>, childName: string, jobIndex: int, b1: bool, b2: bool)
    ensures MarkJob(MarkJob(done, childName, jobIndex, b1), childName, jobIndex, b1) == MarkJob(done, childName, jobIndex, b1)
    ensures MarkJob(MarkJob(done, childName, jobIndex, b1), childName, jobIndex, b2) == MarkJob(done, childName, jobIndex, b2)
  {
  }

  /** Repeating a charity event changes nothing more; of two events for one child the last wins. */
  lemma CharityAllocationIdempotent(allocations: Entries<int>, childName: string, a1: int, a2: int)
    ensures Put(Put(allocations, childName, a1), childName, a1) == Put(allocations, childName, a1)
    ensures Put(Put(allocations, childName, a1), childName, a2) == Put(allocations, childName, a2)
  {
    PutIdempotent(allocations, childName, a1);
    PutLastWins(allocations, childName, a1, a2);
  }

  /**
   * A job event changes a child's completed count only through the one flag
   * it writes: other children's counts stay, and this child's count trades the
   * old flag for the new one when the index lies within the first `n` jobs.
   */
  lemma {:induction false} MarkJobCount(done: map<JobKey, bool>, childName: string, jobIndex: int, completed: bool,
                                        name: string, n: nat)
    ensures var after := PocketMoneyTracker.CountDone(MarkJob(done, childName, jobIndex, completed), name, n);
            var before := PocketMoneyTracker.CountDone(done, name, n);
            var inRange := name == childName && 0 <= jobIndex < n;
            var was := PocketMoneyTracker.IsDone(done, JobKey(childName, jobIndex));
            after == before - (if inRange && was then 1 else 0) + (if inRange && completed then 1 else 0)
  {
    if n > 0 {
      MarkJobCount(done, childName, jobIndex, completed, name, n - 1);
    }
  }

  /** The `App` component's state. */
  class Session {
    const children: seq<Child>
    const charity: CharityRecord
    var completedJobs: map<JobKey, bool>
    var charityAllocations: Entries<int>

    predicate Valid()
      reads this
    {
      DistinctKeys(charityAllocations)
    }

    /** The roster and charity of `familyData`; both maps start empty. */
    constructor ()
      ensures Valid()
      ensures children == Roster() && charity == InitialCharity()
      ensures completedJobs == map[] && charityAllocations == []
    {
      children := Roster();
      charity := InitialCharity();
      completedJobs := map[];
      charityAllocations := [];
    }

    /** `handleJobComplete(childName, jobIndex, completed)`: an upsert into `completedJobs` only. */
    method HandleJobComplete(childName: string, jobIndex: int, completed: bool)
      requires Valid()
      modifies this
      ensures Valid()
      ensures completedJobs == MarkJob(old(completedJobs), childName, jobIndex, completed)
      ensures charityAllocations == old(charityAllocations)
    {
      completedJobs := completedJobs[JobKey(childName, jobIndex) := completed];
    }

    /** `handleCharityAllocation(childName, amount)`: the amount is stored as given, unclamped. */
    method HandleCharityAllocation(childName: string, amount: int)
      requires Valid()
      modifies this
      ensures Valid()
      ensures charityAllocations == Put(old(charityAllocations), childName, amount)
      ensures Get(charityAllocations, childName) == Some(amount)
      ensures completedJobs == old(completedJobs)
    {
      PutKeepsDistinct(charityAllocations, childName, amount);
      charityAllocations := Put(charityAllocations, childName, amount);
    }

    /**
     * The pocket-money figures for a roster child in the current session: the
     * count never exceeds three, and the earnings lie within the allowance.
     */
    method ChildEarnings(i: nat) returns (totalEarned: int)
      requires i < |children| && children == Roster()
      ensures totalEarned == PocketMoneyTracker.Earnings(children, completedJobs, children[i])
      ensures 0 <= totalEarned <= children[i].weeklyAmount
    {
      PocketMoneyTracker.RosterCountAtMostThree(completedJobs, children[i].name);
      RosterShape();
      var k := PocketMoneyTracker.CompletedCount(children, completedJobs, children[i].name);
      PocketMoneyTracker.EarningsWithinAllowance(children[i].weeklyAmount, k, 3);
      totalEarned := PocketMoneyTracker.CalculateEarnings(children, completedJobs, children[i]);
    }

    /** The charity tracker's figures for the current session. */
    function CharityView(): (v: CharityTracker.TrackerView)
      reads this
      requires charity.target > 0
      ensures v.thisWeek == 2 * CharityTracker.TotalAllocated(charityAllocations)
      ensures v.goalReached <==> charity.raised + v.thisWeek >= charity.target
    {
      CharityTracker.Render(charity, children, charityAllocations)
    }
  }

  /** With no completion flags set, no job index of any child counts as done. */
  lemma {:induction false} NothingDone(name: string, n: nat)
    ensures PocketMoneyTracker.CountDone(map[], name, n) == 0
  {
    if n > 0 {
      NothingDone(name, n - 1);
    }
  }

  /** A fresh session shows no completed jobs for anyone, no progress and no goal reached. */
  lemma FreshSessionFigures()
    ensures forall name :: PocketMoneyTracker.CompletedCount(Roster(), map[], name) == 0
    ensures CharityTracker.Render(InitialCharity(), Roster(), []).progressPercentage == 0.0
    ensures !CharityTracker.Render(InitialCharity(), Roster(), []).goalReached
  {
    forall name ensures PocketMoneyTracker.CompletedCount(Roster(), map[], name) == 0 {
      match PocketMoneyTracker.FindChild(Roster(), name)
      case None =>
      case Some(c) => NothingDone(name, |c.jobs|);
    }
  }
}
