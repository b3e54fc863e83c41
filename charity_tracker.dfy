/**
 * The family charity calculator: the children's weekly contributions, the
 * parents' 1:1 match, and the progress towards the charity's target.
 */
module CharityTracker {
  import opened JsValues
  import opened JsObject
  import opened Family

  /** `amount || 0`: a missing contribution counts as 0. */
  function OrZero(v: Option<int>): (r: int)
    ensures v.None? ==> r == 0
    ensures v.Some? ==> r == v.value
  {
    if v.Some? then v.value else 0
  }

  /**
   * `totalAllocated`: the `reduce` over `Object.values(allocations)`, i.e.
   * the sum over every key present, whether or not it names a roster child.
   * (Integer addition is associative, so the sum is written from the front.)
   */
  function TotalAllocated(allocations: Entries<int>): (total: int)
    ensures (forall i :: 0 <= i < |allocations| ==> allocations[i].1 >= 0) ==> total >= 0
  {
    if allocations == [] then 0
    else allocations[0].1 + TotalAllocated(allocations[1..])
  }

  /** Writing `amount` under `name` moves the total by the change in that one value. */
  lemma {:induction false} TotalAfterPut(allocations: Entries<int>, name: string, amount: int)
    ensures TotalAllocated(Put(allocations, name, amount))
         == TotalAllocated(allocations) - OrZero(Get(allocations, name)) + amount
  {
    if allocations != [] {
      var e := allocations;
      GetCons(e[0], e[1..], name);
      assert e == [e[0]] + e[1..];
      if e[0].0 != name {
        TotalAfterPut(e[1..], name, amount);
        assert Put(e, name, amount)[1..] == Put(e[1..], name, amount);
      }
    }
  }

  /** Dropping one key removes exactly its value from the total. */
  lemma {:induction false} TotalWithout(allocations: Entries<int>, name: string)
    requires DistinctKeys(allocations)
    ensures TotalAllocated(allocations) == OrZero(Get(allocations, name)) + TotalAllocated(Without(allocations, name))
  {
    if allocations != [] {
      var e := allocations;
      GetCons(e[0], e[1..], name);
      assert e == [e[0]] + e[1..];
      assert DistinctKeys(e[1..]);
      TotalWithout(e[1..], name);
      if e[0].0 == name {
        KeysCons(e[0], e[1..]);
        assert name !in Keys(e[1..]);
        assert Without(e[1..], name) == Without(e, name);
      } else {
        assert Without(e, name) == [e[0]] + Without(e[1..], name);
      }
    }
  }

  /** One donation card: the child's amount, the parents' equal match and their total. */
  datatype DonationCard = DonationCard(childName: string, child: int, parentMatch: int, total: int)

  /** The card of child `name`: `allocations[name] || 0`, matched 1:1. */
  function Card(allocations: Entries<int>, name: string): (card: DonationCard)
    ensures card.parentMatch == card.child
    ensures card.total == 2 * card.child
    ensures Get(allocations, name).None? ==> card.child == 0
    ensures Get(allocations, name).Some? ==> card.child == Get(allocations, name).value
  {
    var childAllocation := OrZero(Get(allocations, name));
    var matchedAmount := childAllocation;
    DonationCard(name, childAllocation, matchedAmount, childAllocation + matchedAmount)
  }

  /** The sum of the card totals over a list of names. */
  function CardsTotal(allocations: Entries<int>, names: seq<string>): int
  {
    if names == [] then 0 else Card(allocations, names[0]).total + CardsTotal(allocations, names[1..])
  }

  lemma {:induction false} CardsTotalAgree(a: Entries<int>, b: Entries<int>, names: seq<string>)
    requires forall n :: n in names ==> Get(a, n) == Get(b, n)
    ensures CardsTotal(a, names) == CardsTotal(b, names)
  {
    if names != [] {
      CardsTotalAgree(a, b, names[1..]);
    }
  }

  /**
   * When every key of the allocations is one of a list of distinct names, the
   * cards over those names add up to the weekly total (twice the children's).
   */
  lemma {:induction false} CardsAddUpToWeeklyTotal(allocations: Entries<int>, names: seq<string>)
    requires DistinctKeys(allocations)
    requires forall i, j :: 0 <= i < j < |names| ==> names[i] != names[j]
    requires Keys(allocations) <= set n | n in names
    ensures CardsTotal(allocations, names) == 2 * TotalAllocated(allocations)
    decreases names
  {
    if names != [] {
      var n := names[0];
      var rest := Without(allocations, n);
      forall m | m in names[1..] ensures Get(allocations, m) == Get(rest, m) {
        assert m != n;
      }
      CardsTotalAgree(allocations, rest, names[1..]);
      forall k | k in Keys(rest) ensures k in set m | m in names[1..] {
        assert k != n && k in Keys(allocations);
        var i :| 0 <= i < |names| && names[i] == k;
        assert names[1..][i - 1] == k;
      }
      CardsAddUpToWeeklyTotal(rest, names[1..]);
      TotalWithout(allocations, n);
    }
  }

  /**
   * The sum runs over all keys, not only roster children: a contribution
   * under a name outside the roster counts towards the weekly total without
   * showing on any card.
   */
  lemma OutsideKeyCountsButHasNoCard()
    ensures TotalAllocated([("Grandma", 5)]) == 5
    ensures CardsTotal([("Grandma", 5)], Names(Roster())) == 0
  {
    RosterShape();
    var e: Entries<int> := [("Grandma", 5)];
    assert Get(e, "Leni") == None && Get(e, "Ayda") == None && Get(e, "Finn") == None;
    assert Names(Roster())[1..][1..][1..] == [];
  }

  /** The weekly summary lines. */
  datatype WeeklySummary = WeeklySummary(childrenTotal: int, parentsMatch: int, weeklyTotal: int)

  /** "Children's Total", "Parents' Match" (the same figure) and "Weekly Total". */
  function Summary(allocations: Entries<int>): (s: WeeklySummary)
    ensures s.childrenTotal == TotalAllocated(allocations)
    ensures s.parentsMatch == s.childrenTotal
    ensures s.weeklyTotal == s.childrenTotal + s.parentsMatch
  {
    var totalAllocated := TotalAllocated(allocations);
    var totalWithMatching := totalAllocated * 2;
    WeeklySummary(totalAllocated, totalAllocated, totalWithMatching)
  }

  /**
   * `progressPercentage = min((raised + totalWithMatching) / target * 100, 100)`,
   * in exact arithmetic. The source does not guard a zero target.
   */
  function ProgressPercentage(raised: int, totalWithMatching: int, target: int): (p: real)
    requires target > 0
    ensures p <= 100.0
    ensures raised + totalWithMatching >= 0 ==> 0.0 <= p
    ensures p == 100.0 <==> raised + totalWithMatching >= target
    ensures raised + totalWithMatching < target ==>
      p * (target as real) == 100.0 * ((raised + totalWithMatching) as real)
  {
    var x := (raised + totalWithMatching) as real;
    var t := target as real;
    var ratio := x / t * 100.0;
    assert ratio >= 100.0 <==> x >= t by {
      assert ratio * t == x * 100.0;
    }
    assert x >= 0.0 ==> ratio >= 0.0 by {
      assert ratio * t == x * 100.0;
    }
    if ratio < 100.0 then ratio else 100.0
  }

  /** Everything the tracker shows, derived from the charity and the allocations. */
  datatype TrackerView = TrackerView(
    progressPercentage: real, progressRaised: int, target: int, goalReached: bool,
    cards: seq<DonationCard>, summary: WeeklySummary,
    previouslyDonated: int, thisWeek: int, totalImpact: int)

  /** The tracker's derived figures, recomputed from scratch on every render. */
  function Render(charity: CharityRecord, children: seq<Child>, allocations: Entries<int>): (v: TrackerView)
    requires charity.target > 0
    ensures v.summary == Summary(allocations)
    ensures v.thisWeek == v.summary.weeklyTotal == 2 * TotalAllocated(allocations)
    ensures v.progressRaised == v.totalImpact == charity.raised + v.thisWeek
    ensures v.previouslyDonated == charity.raised && v.target == charity.target
    ensures v.progressPercentage == ProgressPercentage(charity.raised, v.thisWeek, charity.target)
    ensures v.progressPercentage <= 100.0
    ensures charity.raised + v.thisWeek >= 0 ==> 0.0 <= v.progressPercentage
    ensures v.goalReached <==> charity.raised + 2 * TotalAllocated(allocations) >= charity.target
    ensures |v.cards| == |children|
    ensures forall i :: 0 <= i < |children| ==> v.cards[i] == Card(allocations, children[i].name)
  {
    var summary := Summary(allocations);
    var totalWithMatching := summary.weeklyTotal;
    var progressPercentage := ProgressPercentage(charity.raised, totalWithMatching, charity.target);
    var cards := seq(|children|, i requires 0 <= i < |children| => Card(allocations, children[i].name));
    TrackerView(progressPercentage, charity.raised + totalWithMatching, charity.target,
                progressPercentage >= 100.0, cards, summary,
                charity.raised, totalWithMatching, charity.raised + totalWithMatching)
  }

  /**
   * Contributions of 5 and 3 with nothing raised and a target of 100: the
   * week totals 16 with the match, and progress is 16 percent.
   */
  lemma ScenarioFiveAndThree()
    ensures var v := Render(InitialCharity(), Roster(), [("Leni", 5), ("Ayda", 3)]);
      v.summary == WeeklySummary(8, 8, 16) && v.totalImpact == 16
      && v.progressPercentage == 16.0 && !v.goalReached
  {
    var e: Entries<int> := [("Leni", 5), ("Ayda", 3)];
    assert TotalAllocated(e) == 8;
  }

  /** The tracker's own edit state; the charity itself is a property it cannot change. */
  datatype CharityDraft = CharityDraft(name: string, description: string, target: int, image: string)

  const GoalPrefix: string := "Congratulations! You've reached the goal for "

  class CharityForm {
    var editMode: bool
    var newCharity: CharityDraft

    constructor (charity: CharityRecord)
      ensures !editMode
      ensures newCharity == CharityDraft(charity.name, charity.description, charity.target, charity.image)
    {
      editMode := false;
      newCharity := CharityDraft(charity.name, charity.description, charity.target, charity.image);
    }

    /** `handleSaveCharity`: leaves edit mode and nothing else; the draft is not applied. */
    method SaveCharity()
      modifies this
      ensures !editMode
      ensures newCharity == old(newCharity)
    {
      editMode := false;
    }

    /**
     * `handleCompleteGoal`: only the congratulation message, which names the
     * charity; no state changes.
     */
    method CompleteGoal(charity: CharityRecord) returns (message: string)
      ensures GoalPrefix + charity.name <= message
    {
      message := GoalPrefix + charity.name + "! 🎉";
    }
  }
}
