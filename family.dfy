/**
 * The household data the dashboard is configured with: the children, their
 * weekly allowances and jobs, and the charity the family saves towards.
 */
module Family {

  datatype Child = Child(name: string, age: int, weeklyAmount: int, jobs: seq<string>)

  datatype CharityRecord = CharityRecord(
    name: string, description: string, target: int, raised: int, image: string)

  /**
   * The key of one job's completion flag. The source joins the two parts into
   * the string `name-index`; here the pair is kept as it is.
   */
  datatype JobKey = JobKey(childName: string, jobIndex: int)

  /** The fixed roster the session starts with. */
  function Roster(): (children: seq<Child>)
    ensures |children| == 3
    ensures forall i :: 0 <= i < |children| ==> |children[i].jobs| == 3 && children[i].weeklyAmount >= 0
    ensures forall i, j :: 0 <= i < j < |children| ==> children[i].name != children[j].name
  {
    [ Child("Leni", 10, 10, ["Feed pets", "Tidy room", "Help with dishes"]),
      Child("Ayda", 7, 7, ["Make bed", "Put toys away", "Help set table"]),
      Child("Finn", 4, 4, ["Put shoes away", "Help sort washing", "Water plants"]) ]
  }

  /** The charity the session starts with. */
  function InitialCharity(): (charity: CharityRecord)
    ensures 0 <= charity.raised < charity.target
  {
    CharityRecord("Local Food Bank", "Help feed families in Brisbane", 100, 0, "🍎")
  }

  /** The roster's names, in roster order. */
  function Names(children: seq<Child>): (names: seq<string>)
    ensures |names| == |children|
    ensures forall i :: 0 <= i < |children| ==> names[i] == children[i].name
  {
    seq(|children|, i requires 0 <= i < |children| => children[i].name)
  }

  /** Every roster child has exactly three jobs, a non-negative allowance and a name of its own. */
  lemma RosterShape()
    ensures |Roster()| == 3
    ensures forall c :: c in Roster() ==> |c.jobs| == 3 && c.weeklyAmount >= 0
    ensures Names(Roster()) == ["Leni", "Ayda", "Finn"]
    ensures Roster()[0].weeklyAmount == 10 && Roster()[1].weeklyAmount == 7 && Roster()[2].weeklyAmount == 4
    ensures InitialCharity().target == 100 && InitialCharity().raised == 0
  {
  }
}
