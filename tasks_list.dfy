/**
 * The family task list: completion toggling, the completed / pending split
 * and the icon and statistic lookups. Due dates are not part of this model.
 */
module TasksList {

  datatype Task = Task(id: string, title: string, completed: bool, priority: string,
                       assignee: string, category: string)

  /** One element of the `map` in `toggleTaskComplete`. */
  function ToggleOne(t: Task, id: string): Task
  {
    if t.id == id then t.(completed := !t.completed) else t
  }

  /**
   * `toggleTaskComplete(id)` as a value: every task with that id has its
   * flag flipped, and nothing else about the list changes.
   */
  function Toggled(tasks: seq<Task>, id: string): (r: seq<Task>)
    ensures |r| == |tasks|
    ensures forall i :: 0 <= i < |tasks| ==>
      r[i].(completed := tasks[i].completed) == tasks[i]
      && (r[i].completed <==> (tasks[i].completed != (tasks[i].id == id)))
  {
    if tasks == [] then [] else [ToggleOne(tasks[0], id)] + Toggled(tasks[1..], id)
  }

  /** Toggling the same id twice restores the list. */
  lemma ToggleTwice(tasks: seq<Task>, id: string)
    ensures Toggled(Toggled(tasks, id), id) == tasks
  {
    var r := Toggled(Toggled(tasks, id), id);
    forall i | 0 <= i < |tasks| ensures r[i] == tasks[i] {
    }
  }

  /** Toggling an id no task carries leaves the list as it was. */
  lemma ToggleAbsent(tasks: seq<Task>, id: string)
    requires forall t :: t in tasks ==> t.id != id
    ensures Toggled(tasks, id) == tasks
  {
    var r := Toggled(tasks, id);
    forall i | 0 <= i < |tasks| ensures r[i] == tasks[i] {
      assert tasks[i] in tasks;
    }
  }

  /** `tasks.filter(task => task.completed)`. */
  function CompletedTasks(tasks: seq<Task>): (r: seq<Task>)
    ensures |r| <= |tasks|
  {
    if tasks == [] then []
    else (if tasks[0].completed then [tasks[0]] else []) + CompletedTasks(tasks[1..])
  }

  /** `tasks.filter(task => !task.completed)`. */
  function PendingTasks(tasks: seq<Task>): (r: seq<Task>)
    ensures |r| <= |tasks|
  {
    if tasks == [] then []
    else (if tasks[0].completed then [] else [tasks[0]]) + PendingTasks(tasks[1..])
  }

  /** The two lists split the tasks: every occurrence lands in exactly one of them. */
  lemma {:induction false} Partition(tasks: seq<Task>)
    ensures |CompletedTasks(tasks)| + |PendingTasks(tasks)| == |tasks|
    ensures multiset(CompletedTasks(tasks)) + multiset(PendingTasks(tasks)) == multiset(tasks)
  {
    if tasks != [] {
      Partition(tasks[1..]);
      assert tasks == [tasks[0]] + tasks[1..];
    }
  }

  /** A task is listed as completed, or as pending, exactly when it is in the list with that flag. */
  lemma {:induction false} FilterMembership(tasks: seq<Task>, t: Task)
    ensures t in CompletedTasks(tasks) <==> t in tasks && t.completed
    ensures t in PendingTasks(tasks) <==> t in tasks && !t.completed
  {
    if tasks != [] {
      FilterMembership(tasks[1..], t);
      assert t in tasks <==> t == tasks[0] || t in tasks[1..];
    }
  }

  /** Both filters keep the original order: they distribute over concatenation. */
  lemma {:induction false} CompletedKeepsOrder(a: seq<Task>, b: seq<Task>)
    ensures CompletedTasks(a + b) == CompletedTasks(a) + CompletedTasks(b)
  {
    if a == [] {
      assert a + b == b;
    } else {
      var ab := a + b;
      assert ab[0] == a[0] && ab[1..] == a[1..] + b;
      CompletedKeepsOrder(a[1..], b);
      var head := if a[0].completed then [a[0]] else [];
      assert CompletedTasks(ab) == head + CompletedTasks(a[1..] + b);
      assert CompletedTasks(a) == head + CompletedTasks(a[1..]);
    }
  }

  lemma {:induction false} PendingKeepsOrder(a: seq<Task>, b: seq<Task>)
    ensures PendingTasks(a + b) == PendingTasks(a) + PendingTasks(b)
  {
    if a == [] {
      assert a + b == b;
    } else {
      var ab := a + b;
      assert ab[0] == a[0] && ab[1..] == a[1..] + b;
      PendingKeepsOrder(a[1..], b);
      var head := if a[0].completed then [] else [a[0]];
      assert PendingTasks(ab) == head + PendingTasks(a[1..] + b);
      assert PendingTasks(a) == head + PendingTasks(a[1..]);
    }
  }

  /** The "High Priority" statistic: tasks with priority `high` not yet completed. */
  function HighPriorityOpen(tasks: seq<Task>): (count: nat)
    ensures count <= |PendingTasks(tasks)|
  {
    if tasks == [] then 0
    else (if tasks[0].priority == "high" && !tasks[0].completed then 1 else 0) + HighPriorityOpen(tasks[1..])
  }

  /** How many of the given tasks have priority `high`. */
  function HighCount(tasks: seq<Task>): nat
  {
    if tasks == [] then 0 else (if tasks[0].priority == "high" then 1 else 0) + HighCount(tasks[1..])
  }

  /** The statistic is the number of `high` tasks among the pending ones. */
  lemma {:induction false} HighPriorityAmongPending(tasks: seq<Task>)
    ensures HighPriorityOpen(tasks) == HighCount(PendingTasks(tasks))
  {
    if tasks != [] {
      HighPriorityAmongPending(tasks[1..]);
      var head := if tasks[0].completed then [] else [tasks[0]];
      assert PendingTasks(tasks) == head + PendingTasks(tasks[1..]);
      HighCountAppend(head, PendingTasks(tasks[1..]));
    }
  }

  lemma {:induction false} HighCountAppend(a: seq<Task>, b: seq<Task>)
    ensures HighCount(a + b) == HighCount(a) + HighCount(b)
  {
    if a == [] {
      assert a + b == b;
    } else {
      HighCountAppend(a[1..], b);
      assert (a + b)[0] == a[0];
      assert (a + b)[1..] == a[1..] + b;
    }
  }

  const PriorityIcons: map<string, string> := map["high" := "🔴", "medium" := "🟡", "low" := "🟢"]
  const PriorityFallback: string := "⚪"

  /** `getPriorityIcon`: the table's icon, or the white circle for any other priority. */
  function PriorityIcon(priority: string): (icon: string)
    ensures priority in PriorityIcons ==> icon == PriorityIcons[priority]
    ensures icon == PriorityFallback <==> priority !in PriorityIcons
  {
    if priority in PriorityIcons then PriorityIcons[priority] else PriorityFallback
  }

  const CategoryIcons: map<string, string> :=
    map["household" := "🏠", "health" := "🏥", "school" := "📚",
        "family" := "👨‍👩‍👧‍👦", "practice" := "🎵", "learning" := "🧠"]
  const CategoryFallback: string := "📋"

  /** `getCategoryIcon`: the table's icon, or the clipboard for any other category. */
  function CategoryIcon(category: string): (icon: string)
    ensures category in CategoryIcons ==> icon == CategoryIcons[category]
    ensures icon == CategoryFallback <==> category !in CategoryIcons
  {
    if category in CategoryIcons then CategoryIcons[category] else CategoryFallback
  }

  /** The placeholder tasks the list loads (due dates omitted). */
  function MockTasks(): (tasks: seq<Task>)
    ensures |tasks| == 7
    ensures forall i, j :: 0 <= i < j < |tasks| ==> tasks[i].id != tasks[j].id
  {
    [ Task("1", "Buy groceries for the week", false, "high", "Parents", "household"),
      Task("2", "Book dentist appointments for kids", false, "medium", "Parents", "health"),
      Task("3", "Leni - Finish science project", false, "high", "Leni", "school"),
      Task("4", "Plan weekend family activity", true, "low", "Family", "family"),
      Task("5", "Ayda - Practice piano pieces", false, "medium", "Ayda", "practice"),
      Task("6", "Organize kids' toy room", false, "low", "Family", "household"),
      Task("7", "Finn - Learn to tie shoelaces", false, "low", "Finn", "learning") ]
  }

  /** The component's `tasks` state. */
  class TaskBoard {
    var tasks: seq<Task>

    constructor ()
      ensures tasks == []
    {
      tasks := [];
    }

    /** The loader's `setTasks`. */
    method LoadTasks(loaded: seq<Task>)
      modifies this
      ensures tasks == loaded
    {
      tasks := loaded;
    }

    /** `toggleTaskComplete(taskId)`. */
    method ToggleTaskComplete(taskId: string)
      modifies this
      ensures tasks == Toggled(old(tasks), taskId)
      ensures |CompletedTasks(tasks)| + |PendingTasks(tasks)| == |tasks| == |old(tasks)|
    {
      tasks := Toggled(tasks, taskId);
      Partition(tasks);
    }
  }

  /** The placeholders show one completed task, six pending and two open high-priority ones. */
  lemma MockTaskFigures()
    ensures |CompletedTasks(MockTasks())| == 1
    ensures |PendingTasks(MockTasks())| == 6
    ensures HighPriorityOpen(MockTasks()) == 2
  {
    var ts := MockTasks();
    assert ts[6..][1..] == ts[7..];
    assert |CompletedTasks(ts[6..])| == 0 && |PendingTasks(ts[6..])| == 1 && HighPriorityOpen(ts[6..]) == 0;
    assert ts[5..][1..] == ts[6..];
    assert |CompletedTasks(ts[5..])| == 0 && |PendingTasks(ts[5..])| == 2 && HighPriorityOpen(ts[5..]) == 0;
    assert ts[4..][1..] == ts[5..];
    assert |CompletedTasks(ts[4..])| == 0 && |PendingTasks(ts[4..])| == 3 && HighPriorityOpen(ts[4..]) == 0;
    assert ts[3..][1..] == ts[4..];
    assert |CompletedTasks(ts[3..])| == 1 && |PendingTasks(ts[3..])| == 3 && HighPriorityOpen(ts[3..]) == 0;
    assert ts[2..][1..] == ts[3..];
    assert |CompletedTasks(ts[2..])| == 1 && |PendingTasks(ts[2..])| == 4 && HighPriorityOpen(ts[2..]) == 1;
    assert ts[1..][1..] == ts[2..];
    assert |CompletedTasks(ts[1..])| == 1 && |PendingTasks(ts[1..])| == 5 && HighPriorityOpen(ts[1..]) == 1;
    assert ts[0..][1..] == ts[1..];
    assert |CompletedTasks(ts[0..])| == 1 && |PendingTasks(ts[0..])| == 6 && HighPriorityOpen(ts[0..]) == 2;
    assert ts[0..] == ts;
  }
}
