/**
 * The weekly pocket-money engine: how a child's allowance is split over its
 * jobs, what the completed jobs earn, and the per-child ledger of how the
 * money is divided between charity, savings and spending.
 */
module PocketMoneyTracker {
  import opened JsValues
  import opened Family

  // ---------------------------------------------------------------------
  // Job values and earnings
  // ---------------------------------------------------------------------

  /**
   * `calculateJobValue`: the allowance split into exactly three payouts,
   * the first two the floored third, the last absorbing the remainder. The
   * remainder is JavaScript's `%`, so for a negative allowance it is negative.
   */
  function JobValues(weeklyAmount: int): (values: seq<int>)
    ensures |values| == 3
    ensures values[0] == values[1] == FloorDiv(weeklyAmount, 3)
    ensures weeklyAmount >= 0 ==> values[0] + values[1] + values[2] == weeklyAmount
    ensures weeklyAmount >= 0 ==> forall i :: 0 <= i < 3 ==> 0 <= values[i] <= weeklyAmount
    ensures weeklyAmount >= 0 ==> values[0] <= values[2] && values[2] <= values[0] + 2
  {
    var base := FloorDiv(weeklyAmount, 3);
    [base, base, base + JsRem(weeklyAmount, 3)]
  }

  /**
   * The three payouts add up to the allowance exactly when the allowance is
   * non-negative or a multiple of three; otherwise JavaScript's signed
   * remainder makes them fall short by exactly 3.
   */
  lemma SplitSumsToAllowance(weeklyAmount: int)
    ensures var v := JobValues(weeklyAmount);
      v[0] + v[1] + v[2] == weeklyAmount <==> (weeklyAmount >= 0 || weeklyAmount % 3 == 0)
    ensures var v := JobValues(weeklyAmount);
      !(weeklyAmount >= 0 || weeklyAmount % 3 == 0) ==> v[0] + v[1] + v[2] == weeklyAmount - 3
  {
    var w := weeklyAmount;
    if w < 0 {
      var m := -w;
      assert m == 3 * (m / 3) + m % 3;
      assert w == 3 * (w / 3) + w % 3;
      if m % 3 == 0 {
        assert w / 3 == -(m / 3);
      } else {
        assert w / 3 == -(m / 3) - 1;
        assert w % 3 == 3 - m % 3;
      }
    }
  }

  /** Whether the completion flag for `key` is set (`completedJobs[key]` is truthy). */
  predicate IsDone(done: map<JobKey, bool>, key: JobKey)
  {
    key in done && done[key]
  }

  /** `children.find(child => child.name === name)`: the first child with that name. */
  function FindChild(children: seq<Child>, name: string): (r: Option<Child>)
    ensures r.Some? ==> r.value in children && r.value.name == name
    ensures r.None? <==> forall c :: c in children ==> c.name != name
    ensures r.Some? ==> exists i :: 0 <= i < |children| && children[i] == r.value
                                    && forall j :: 0 <= j < i ==> children[j].name != name
  {
    if children == [] then None
    else if children[0].name == name then Some(children[0])
    else
      var r := FindChild(children[1..], name);
      assert r.Some? ==> exists i :: 0 <= i < |children| && children[i] == r.value
                                     && forall j :: 0 <= j < i ==> children[j].name != name by {
        if r.Some? {
          var i :| 0 <= i < |children[1..]| && children[1..][i] == r.value
                   && forall j :: 0 <= j < i ==> children[1..][j].name != name;
          assert children[i + 1] == r.value;
          forall j | 0 <= j < i + 1 ensures children[j].name != name {
            if j > 0 { assert children[j] == children[1..][j - 1]; }
          }
        }
      }
      r
  }

  /** How many of the job indices `0 .. n-1` of child `name` are marked complete. */
  function CountDone(done: map<JobKey, bool>, name: string, n: nat): (count: nat)
    ensures count <= n
  {
    if n == 0 then 0
    else CountDone(done, name, n - 1) + (if IsDone(done, JobKey(name, n - 1)) then 1 else 0)
  }

  /** The job indices below `n` of child `name` that are marked complete. */
  ghost function DoneIndices(done: map<JobKey, bool>, name: string, n: nat): set<int>
  {
    set i | 0 <= i < n && IsDone(done, JobKey(name, i))
  }

  /** The count is the number of ticked indices within the job list; stray keys do not count. */
  lemma {:induction false} CountDoneIsCardinality(done: map<JobKey, bool>, name: string, n: nat)
    ensures CountDone(done, name, n) == |DoneIndices(done, name, n)|
  {
    if n > 0 {
      CountDoneIsCardinality(done, name, n - 1);
      if IsDone(done, JobKey(name, n - 1)) {
        assert DoneIndices(done, name, n) == DoneIndices(done, name, n - 1) + {n - 1};
      } else {
        assert DoneIndices(done, name, n) == DoneIndices(done, name, n - 1);
      }
    }
  }

  /**
   * `getCompletedJobsCount`: the number of the named child's jobs whose flag
   * is set, or 0 when no child has that name.
   */
  function CompletedCount(children: seq<Child>, done: map<JobKey, bool>, name: string): (count: nat)
    ensures FindChild(children, name).None? ==> count == 0
    ensures FindChild(children, name).Some? ==>
      count == CountDone(done, name, |FindChild(children, name).value.jobs|)
    ensures FindChild(children, name).Some? ==> count <= |FindChild(children, name).value.jobs|
  {
    match FindChild(children, name)
    case None => 0
    case Some(c) => CountDone(done, name, |c.jobs|)
  }

  /** The sum of the first `k` payouts, added up in job order. */
  function SumFirst(values: seq<int>, k: nat): int
    requires k <= |values|
  {
    if k == 0 then 0 else SumFirst(values, k - 1) + values[k - 1]
  }

  /**
   * What a child has earned: the first `k` payouts of its split, `k` being
   * the number of its completed jobs, whichever jobs those are.
   */
  function Earnings(children: seq<Child>, done: map<JobKey, bool>, child: Child): (earned: int)
    requires CompletedCount(children, done, child.name) <= 3
    ensures child.weeklyAmount >= 0 ==> 0 <= earned <= child.weeklyAmount
    ensures child.weeklyAmount >= 0 && CompletedCount(children, done, child.name) == 3 ==>
      earned == child.weeklyAmount
    ensures CompletedCount(children, done, child.name) == 0 ==> earned == 0
  {
    var k := CompletedCount(children, done, child.name);
    var earned := SumFirst(JobValues(child.weeklyAmount), k);
    assert child.weeklyAmount >= 0 ==>
      0 <= earned <= child.weeklyAmount && (k == 3 ==> earned == child.weeklyAmount) by {
      if child.weeklyAmount >= 0 {
        EarningsWithinAllowance(child.weeklyAmount, k, 3);
      }
    }
    earned
  }

  /** `calculateEarnings`: the loop that adds up the first `completedCount` payouts. */
  method CalculateEarnings(children: seq<Child>, done: map<JobKey, bool>, child: Child)
    returns (totalEarned: int)
    requires CompletedCount(children, done, child.name) <= 3
    ensures totalEarned == Earnings(children, done, child)
  {
    var completedCount := CompletedCount(children, done, child.name);
    var jobValues := JobValues(child.weeklyAmount);
    totalEarned := 0;
    for i := 0 to completedCount
      invariant totalEarned == SumFirst(jobValues, i)
    {
      totalEarned := totalEarned + jobValues[i];
    }
  }

  /**
   * For a non-negative allowance, earnings grow with the number of completed
   * jobs, stay within the allowance, and all three jobs earn all of it.
   */
  lemma {:induction false} EarningsWithinAllowance(weeklyAmount: int, k1: nat, k2: nat)
    requires weeklyAmount >= 0 && k1 <= k2 <= 3
    ensures 0 <= SumFirst(JobValues(weeklyAmount), k1) <= SumFirst(JobValues(weeklyAmount), k2) <= weeklyAmount
    ensures SumFirst(JobValues(weeklyAmount), 3) == weeklyAmount
  {
    var v := JobValues(weeklyAmount);
    assert SumFirst(v, 1) == v[0];
    assert SumFirst(v, 2) == v[0] + v[1];
    assert SumFirst(v, 3) == v[0] + v[1] + v[2];
  }

  /** Crediting is positional: two completion states with equal counts earn the same. */
  lemma EarningsDependOnlyOnCount(children: seq<Child>, d1: map<JobKey, bool>, d2: map<JobKey, bool>, child: Child)
    requires CompletedCount(children, d1, child.name) == CompletedCount(children, d2, child.name) <= 3
    ensures Earnings(children, d1, child) == Earnings(children, d2, child)
  {
  }

  /**
   * Leni's jobs are worth 3, 3 and 4. Ticking only the third job ("Help with
   * dishes", worth 4) earns 3, the first payout; ticking all three earns 10.
   */
  lemma LeniEarnings()
    ensures JobValues(10) == [3, 3, 4]
    ensures Earnings(Roster(), map[JobKey("Leni", 2) := true], Roster()[0]) == 3
    ensures Earnings(Roster(), map[JobKey("Leni", 0) := true, JobKey("Leni", 1) := true,
                                   JobKey("Leni", 2) := true], Roster()[0]) == 10
  {
    var leni := Roster()[0];
    assert FindChild(Roster(), "Leni") == Some(leni);
    var one := map[JobKey("Leni", 2) := true];
    assert CountDone(one, "Leni", 2) == 0;
    assert CountDone(one, "Leni", 3) == 1;
    var all := map[JobKey("Leni", 0) := true, JobKey("Leni", 1) := true, JobKey("Leni", 2) := true];
    assert CountDone(all, "Leni", 3) == 3;
    EarningsWithinAllowance(10, 1, 3);
    assert SumFirst(JobValues(10), 1) == 3;
  }

  /** Within the fixed roster no child can have more than three completed jobs. */
  lemma RosterCountAtMostThree(done: map<JobKey, bool>, name: string)
    ensures CompletedCount(Roster(), done, name) <= 3
  {
    RosterShape();
  }

  // ---------------------------------------------------------------------
  // The allocation ledger
  // ---------------------------------------------------------------------

  datatype Category = Charity | Savings | Spending

  /** Child name to (category to amount); a category or child may be absent. */
  type Ledger = map<string, map<Category, int>>

  /** Every stored amount is at least 0, as the clamped writes guarantee. */
  predicate NonNegative(l: Ledger)
  {
    forall name, cat | name in l && cat in l[name] :: l[name][cat] >= 0
  }

  /**
   * `handleAllocationChange` as a value: the child's entry (empty if absent)
   * with `cat` set to `max(0, amount)`; every other entry kept.
   */
  function Allocate(l: Ledger, name: string, cat: Category, amount: int): (r: Ledger)
    ensures r.Keys == l.Keys + {name}
    ensures cat in r[name] && r[name][cat] == ClampNonNegative(amount)
    ensures forall n :: n in l && n != name ==> r[n] == l[n]
    ensures forall c :: c != cat ==> (c in r[name] <==> name in l && c in l[name])
    ensures forall c :: c != cat && c in r[name] ==> r[name][c] == l[name][c]
    ensures NonNegative(l) ==> NonNegative(r)
  {
    var entry := if name in l then l[name] else map[];
    l[name := entry[cat := ClampNonNegative(amount)]]
  }

  /** `m[cat] || 1`: the stored amount unless it is absent or 0. */
  function OrOne(m: map<Category, int>, cat: Category): (r: int)
    ensures r != 0
    ensures cat in m && m[cat] != 0 ==> r == m[cat]
    ensures (cat !in m || m[cat] == 0) ==> r == 1
  {
    if cat in m && m[cat] != 0 then m[cat] else 1
  }

  /**
   * `getAllocation`: the stored amount, or the $1 minimum when the child or
   * category is absent or the stored amount is 0.
   */
  function GetAllocation(l: Ledger, name: string, cat: Category): (r: int)
    ensures r != 0
    ensures r == 1 || (name in l && cat in l[name] && r == l[name][cat])
    ensures NonNegative(l) ==> r >= 1
  {
    if name in l then OrOne(l[name], cat) else 1
  }

  /**
   * `getTotalAllocated`: 3 for a child with no entry, else the three
   * categories each read with the same "0 or absent is 1" default.
   */
  function GetTotalAllocated(l: Ledger, name: string): (total: int)
    ensures total == GetAllocation(l, name, Charity) + GetAllocation(l, name, Savings)
                     + GetAllocation(l, name, Spending)
    ensures name !in l ==> total == 3
    ensures NonNegative(l) ==> total >= 3
  {
    if name !in l then 3
    else
      var child := l[name];
      OrOne(child, Charity) + OrOne(child, Savings) + OrOne(child, Spending)
  }

  /**
   * A write reads back as itself when positive and as 1 otherwise: a stored 0
   * is indistinguishable from a category never written.
   */
  lemma ReadAfterAllocate(l: Ledger, name: string, cat: Category, amount: int)
    ensures GetAllocation(Allocate(l, name, cat, amount), name, cat) == if amount > 0 then amount else 1
    ensures amount <= 0 ==>
      GetAllocation(Allocate(l, name, cat, amount), name, cat) == GetAllocation(map[], name, cat)
  {
  }

  /** A write changes no other child's and no other category's reading. */
  lemma ReadOtherAfterAllocate(l: Ledger, name: string, cat: Category, amount: int, n: string, c: Category)
    requires n != name || c != cat
    ensures GetAllocation(Allocate(l, name, cat, amount), n, c) == GetAllocation(l, n, c)
  {
  }

  /** Whatever is written, the total after a write moves by the change in that one reading. */
  lemma TotalAfterAllocate(l: Ledger, name: string, cat: Category, amount: int)
    ensures GetTotalAllocated(Allocate(l, name, cat, amount), name)
         == GetTotalAllocated(l, name) - GetAllocation(l, name, cat) + (if amount > 0 then amount else 1)
  {
    ReadAfterAllocate(l, name, cat, amount);
    forall c | c != cat
      ensures GetAllocation(Allocate(l, name, cat, amount), name, c) == GetAllocation(l, name, c)
    {
      ReadOtherAfterAllocate(l, name, cat, amount, name, c);
    }
  }

  /** `remaining = totalEarned - totalAllocated`. */
  function Remaining(totalEarned: int, l: Ledger, name: string): (remaining: int)
    ensures remaining + GetTotalAllocated(l, name) == totalEarned
    ensures name !in l ==> remaining == totalEarned - 3
    ensures NonNegative(l) ==> remaining <= totalEarned - 3
  {
    totalEarned - GetTotalAllocated(l, name)
  }

  /** The over-allocation warning is shown. */
  predicate OverAllocated(totalEarned: int, l: Ledger, name: string): (shown: bool)
    ensures shown <==> totalEarned < GetTotalAllocated(l, name)
    ensures NonNegative(l) && totalEarned < 3 ==> shown
    ensures name !in l ==> (shown <==> totalEarned < 3)
  {
    Remaining(totalEarned, l, name) < 0
  }

  /**
   * With nothing allocated, 10 earned leaves 7; and since every reading is at
   * least 1, earnings below 3 are over-allocated whatever the ledger holds.
   */
  lemma OverAllocationFacts(l: Ledger, name: string, totalEarned: int)
    ensures Remaining(10, map[], name) == 7
    ensures NonNegative(l) && totalEarned < 3 ==> OverAllocated(totalEarned, l, name)
    ensures OverAllocated(totalEarned, map[], name) <==> totalEarned < 3
  {
  }

  /** The per-child ledger of `PocketMoneyTracker`'s `allocations` state. */
  class AllocationLedger {
    var allocations: Ledger

    predicate Valid()
      reads this
    {
      NonNegative(allocations)
    }

    constructor ()
      ensures Valid() && allocations == map[]
    {
      allocations := map[];
    }

    /** `handleAllocationChange(childName, category, amount)`. */
    method HandleAllocationChange(childName: string, category: Category, amount: int)
      requires Valid()
      modifies this
      ensures Valid()
      ensures allocations == Allocate(old(allocations), childName, category, amount)
      ensures GetAllocation(allocations, childName, category) == if amount > 0 then amount else 1
    {
      ReadAfterAllocate(allocations, childName, category, amount);
      var entry := if childName in allocations then allocations[childName] else map[];
      allocations := allocations[childName := entry[category := ClampNonNegative(amount)]];
    }
  }

  /** What one child's card shows. */
  datatype ChildCard = ChildCard(
    jobValues: seq<int>, totalEarned: int, completedCount: nat, jobCount: nat,
    charity: int, savings: int, spending: int, remaining: int, overAllocated: bool)

  /** The figures of one child's card, computed as the render loop does. */
  method RenderChild(children: seq<Child>, done: map<JobKey, bool>, l: Ledger, child: Child)
    returns (card: ChildCard)
    requires CompletedCount(children, done, child.name) <= 3
    ensures card.jobValues == JobValues(child.weeklyAmount)
    ensures card.totalEarned == Earnings(children, done, child)
    ensures card.completedCount == CompletedCount(children, done, child.name)
    ensures card.jobCount == |child.jobs|
    ensures card.charity == GetAllocation(l, child.name, Charity)
    ensures card.savings == GetAllocation(l, child.name, Savings)
    ensures card.spending == GetAllocation(l, child.name, Spending)
    ensures card.charity + card.savings + card.spending == GetTotalAllocated(l, child.name)
    ensures card.remaining == card.totalEarned - (card.charity + card.savings + card.spending)
    ensures card.overAllocated <==> card.totalEarned < GetTotalAllocated(l, child.name)
  {
    var jobValues := JobValues(child.weeklyAmount);
    var totalEarned := CalculateEarnings(children, done, child);
    var totalAllocated := GetTotalAllocated(l, child.name);
    var remaining := totalEarned - totalAllocated;
    card := ChildCard(jobValues, totalEarned, CompletedCount(children, done, child.name), |child.jobs|,
                      GetAllocation(l, child.name, Charity), GetAllocation(l, child.name, Savings),
                      GetAllocation(l, child.name, Spending), remaining, remaining < 0);
  }
}
