/**
 * The weekly reflection journal: five fixed lists of entries, an entry being
 * typed, and the category the entry goes to.
 */
module WeeklyReflection {

  datatype Category = Highlights | Achievements | Challenges | Gratitude | NextWeekGoals

  /** The categories in the order the tabs and the summary show them. */
  const Categories: seq<Category> := [Highlights, Achievements, Challenges, Gratitude, NextWeekGoals]

  type Reflections = map<Category, seq<string>>

  /** Every category has a list. */
  predicate HasAllCategories(r: Reflections)
  {
    forall c: Category :: c in r
  }

  lemma Listed(r: Reflections, c: Category)
    requires HasAllCategories(r)
    ensures c in r
  {
  }

  /** A map holding the five named categories holds every category. */
  lemma FiveAreAll(r: Reflections)
    requires Highlights in r && Achievements in r && Challenges in r
    requires Gratitude in r && NextWeekGoals in r
    ensures HasAllCategories(r)
  {
    forall c: Category ensures c in r {
      match c
      case Highlights =>
      case Achievements =>
      case Challenges =>
      case Gratitude =>
      case NextWeekGoals =>
    }
  }

  /** The characters `String.prototype.trim` strips: white space and line terminators. */
  predicate IsSpace(c: char)
  {
    var n := c as int;
    || 0x9 <= n <= 0xD || n == 0x20 || n == 0xA0 || n == 0x1680
    || 0x2000 <= n <= 0x200A || n == 0x2028 || n == 0x2029
    || n == 0x202F || n == 0x205F || n == 0x3000 || n == 0xFEFF
  }

  /** `s` without its leading white space. */
  function TrimStart(s: string): (r: string)
    ensures |r| <= |s| && r == s[|s| - |r|..]
    ensures r == [] || !IsSpace(r[0])
    ensures forall i :: 0 <= i < |s| - |r| ==> IsSpace(s[i])
  {
    if s == [] || !IsSpace(s[0]) then s else TrimStart(s[1..])
  }

  /** `s` without its trailing white space. */
  function TrimEnd(s: string): (r: string)
    ensures |r| <= |s| && r == s[..|r|]
    ensures r == [] || !IsSpace(r[|r| - 1])
    ensures forall i :: |r| <= i < |s| ==> IsSpace(s[i])
  {
    if s == [] || !IsSpace(s[|s| - 1]) then s else TrimEnd(s[..|s| - 1])
  }

  /** `s.trim()`. */
  function Trim(s: string): (r: string)
    ensures |r| <= |s|
    ensures r == [] || (!IsSpace(r[0]) && !IsSpace(r[|r| - 1]))
  {
    TrimEnd(TrimStart(s))
  }

  /** Where the trimmed entry starts and ends within the entry. */
  lemma TrimBounds(s: string)
    ensures |s| - |TrimStart(s)| + |Trim(s)| <= |s|
    ensures Trim(s) == s[|s| - |TrimStart(s)|..|s| - |TrimStart(s)| + |Trim(s)|]
    ensures forall i :: |s| - |TrimStart(s)| + |Trim(s)| <= i < |s| ==> IsSpace(s[i])
  {
    var t := TrimStart(s);
    var a := |s| - |t|;
    assert t == s[a..];
    forall i | a + |Trim(s)| <= i < |s| ensures IsSpace(s[i]) {
      assert s[i] == t[i - a];
    }
  }

  /** The trimmed entry is a slice of the entry with only white space cut away on either side. */
  lemma TrimIsSlice(s: string)
    ensures exists a, b ::
      (0 <= a <= b <= |s| && Trim(s) == s[a..b]
       && (forall i :: 0 <= i < a ==> IsSpace(s[i]))
       && (forall i :: b <= i < |s| ==> IsSpace(s[i])))
  {
    TrimBounds(s);
    var a := |s| - |TrimStart(s)|;
    var b := a + |Trim(s)|;
    assert 0 <= a <= b <= |s| && Trim(s) == s[a..b];
  }

  /** The trimmed entry is empty exactly when the entry is all white space. */
  lemma TrimEmpty(s: string)
    ensures Trim(s) == [] <==> forall i :: 0 <= i < |s| ==> IsSpace(s[i])
  {
    var t := TrimStart(s);
    if t != [] {
      assert t[0] == s[|s| - |t|] && !IsSpace(t[0]);
    }
  }

  /**
   * `list.filter((_, i) => i !== index)` on the suffix that starts at
   * position `offset` of the whole list.
   */
  function DropIndexFrom(s: seq<string>, index: int, offset: int): seq<string>
  {
    if s == [] then [] else (if offset == index then [] else [s[0]]) + DropIndexFrom(s[1..], index, offset + 1)
  }


  lemma {:induction false} DropIndexFromSlices(s: seq<string>, index: int, offset: int)
    ensures offset <= index < offset + |s| ==>
      DropIndexFrom(s, index, offset) == s[..index - offset] + s[index - offset + 1..]
    ensures !(offset <= index < offset + |s|) ==> DropIndexFrom(s, index, offset) == s
  {
    if s != [] {
      DropIndexFromSlices(s[1..], index, offset + 1);
      if offset == index {
        assert s[..0] + s[1..] == s[1..];
      } else if offset < index < offset + |s| {
        assert [s[0]] + (s[1..][..index - offset - 1] + s[1..][index - offset..])
            == s[..index - offset] + s[index - offset + 1..];
      } else {
        assert [s[0]] + s[1..] == s;
      }
    }
  }

  /**
   * `list.filter((_, i) => i !== index)`: an index within the list drops
   * exactly that entry and keeps the rest in order; any other index leaves
   * the list as it is.
   */
  function RemoveAt(s: seq<string>, index: int): (r: seq<string>)
    ensures 0 <= index < |s| ==> r == s[..index] + s[index + 1..]
    ensures 0 <= index < |s| ==> |r| == |s| - 1
    ensures !(0 <= index < |s|) ==> r == s
  {
    DropIndexFromSlices(s, index, 0);
    DropIndexFrom(s, index, 0)
  }

  /** The placeholder journal the component loads on mount. */
  function MockReflections(): (r: Reflections)
    ensures HasAllCategories(r)
  {
    var r := map[
      Highlights := [
        "Leni scored her first goal in soccer! ⚽",
        "Family movie night with homemade popcorn 🍿",
        "Finn learned to ride his bike without training wheels! 🚲",
        "Ayda played her piano piece perfectly at practice 🎹"],
      Achievements := [
        "All kids completed their weekly jobs",
        "Donated $15 to the local food bank",
        "Finished the family puzzle together",
        "Everyone helped with Sunday dinner prep"],
      Challenges := [
        "Getting everyone ready for school on time",
        "Balancing screen time limits",
        "Organizing the toy room cleanup"],
      Gratitude := [
        "Sunny weather for outdoor play",
        "Grandma's surprise visit",
        "Healthy family - no one got sick!",
        "Neighbors helping with the garden"],
      NextWeekGoals := [
        "Try a new family recipe together",
        "Visit the local library",
        "Organize a playdate for Finn",
        "Start planning Ayda's birthday party"]];
    FiveAreAll(r);
    r
  }

  /** The component's `reflections`, `newEntry` and `activeCategory` state. */
  class Journal {
    var reflections: Reflections
    var newEntry: string
    var activeCategory: Category

    predicate Valid()
      reads this
    {
      HasAllCategories(reflections)
    }

    /** Five empty lists, an empty entry, the highlights tab. */
    constructor ()
      ensures Valid()
      ensures forall c: Category :: reflections[c] == []
      ensures newEntry == "" && activeCategory == Highlights
    {
      var empty := map[Highlights := [], Achievements := [], Challenges := [],
                       Gratitude := [], NextWeekGoals := []];
      FiveAreAll(empty);
      reflections := empty;
      newEntry := "";
      activeCategory := Highlights;
    }

    /** The mount effect's `setReflections(mockReflections)`. */
    method LoadMock()
      requires Valid()
      modifies this
      ensures Valid() && reflections == MockReflections()
      ensures newEntry == old(newEntry) && activeCategory == old(activeCategory)
    {
      reflections := MockReflections();
    }

    /** The input's `setNewEntry`. */
    method EditEntry(text: string)
      requires Valid()
      modifies this
      ensures Valid() && newEntry == text
      ensures reflections == old(reflections) && activeCategory == old(activeCategory)
    {
      newEntry := text;
    }

    /** A tab's `setActiveCategory`. */
    method SelectCategory(category: Category)
      requires Valid()
      modifies this
      ensures Valid() && activeCategory == category
      ensures reflections == old(reflections) && newEntry == old(newEntry)
    {
      activeCategory := category;
    }

    /**
     * `addReflection`: a non-blank entry is trimmed, appended to the active
     * category and cleared; a blank one changes nothing.
     */
    method AddReflection()
      requires Valid()
      modifies this
      ensures Valid() && activeCategory == old(activeCategory)
      ensures reflections.Keys == old(reflections).Keys
      ensures Trim(old(newEntry)) != [] ==>
        && reflections == old(reflections)[activeCategory := old(reflections)[activeCategory] + [Trim(old(newEntry))]]
        && newEntry == ""
      ensures Trim(old(newEntry)) == [] ==>
        reflections == old(reflections) && newEntry == old(newEntry)
    {
      var entry := Trim(newEntry);
      if entry != [] {
        Listed(reflections, activeCategory);
        reflections := reflections[activeCategory := reflections[activeCategory] + [entry]];
        newEntry := "";
      }
    }

    /** `removeReflection(category, index)`: drops the entry at `index`, if there is one. */
    method RemoveReflection(category: Category, index: int)
      requires Valid()
      modifies this
      ensures Valid() && reflections.Keys == old(reflections).Keys
      ensures reflections == old(reflections)[category := RemoveAt(old(reflections)[category], index)]
      ensures 0 <= index < |old(reflections)[category]| ==>
        reflections[category] == old(reflections)[category][..index] + old(reflections)[category][index + 1..]
      ensures !(0 <= index < |old(reflections)[category]|) ==> reflections == old(reflections)
      ensures newEntry == old(newEntry) && activeCategory == old(activeCategory)
    {
      Listed(reflections, category);
      reflections := reflections[category := RemoveAt(reflections[category], index)];
    }

    /** The summary's counts, one per category in tab order. */
    function SummaryCounts(): (counts: seq<nat>)
      reads this
      requires Valid()
      ensures |counts| == |Categories|
      ensures forall i :: 0 <= i < |Categories| ==> counts[i] == |reflections[Categories[i]]|
    {
      var r := reflections;
      seq(|Categories|, i requires 0 <= i < |Categories| => assert Categories[i] in r; |r[Categories[i]]|)
    }
  }


  /** Trimming strips the padding around an entry. */
  lemma TrimStartExample()
    ensures TrimStart("  Picnic ") == "Picnic "
  {
    assert IsSpace(' ') && !IsSpace('P');
    var s0 := "  Picnic ";
    var s1 := " Picnic ";
    var s2 := "Picnic ";
    assert s0[1..] == s1 && s1[1..] == s2;
    assert TrimStart(s2) == s2;
    assert TrimStart(s1) == s2;
  }

  lemma TrimEndExample()
    ensures TrimEnd("Picnic ") == "Picnic"
  {
    assert IsSpace(' ') && !IsSpace('c');
    var s2 := "Picnic ";
    assert s2[..|s2| - 1] == "Picnic";
    assert TrimEnd("Picnic") == "Picnic";
  }

  lemma TrimExample()
    ensures Trim("  Picnic ") == "Picnic"
  {
    TrimStartExample();
    TrimEndExample();
  }

  /** Adding "  Picnic " to a fresh journal's highlights stores "Picnic" and clears the input. */
  method AddExample()
  {
    var j := new Journal();
    j.EditEntry("  Picnic ");
    TrimExample();
    j.AddReflection();
    assert j.reflections[Highlights] == ["Picnic"] && j.newEntry == "";
    j.RemoveReflection(Highlights, 3);
    assert j.reflections[Highlights] == ["Picnic"];
    j.RemoveReflection(Highlights, 0);
    assert j.reflections[Highlights] == [];
  }
}
