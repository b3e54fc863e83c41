# Family dashboard: pocket money, charity matching and session state

A Dafny model of the family household dashboard's logic. The dashboard is a single-page
React application. Its core is the pocket-money engine, which does three things:

- It splits each child's weekly allowance over three jobs.
- It credits the completed jobs by count.
- It keeps a per-child charity/savings/spending allocation ledger, with an over-allocation
  warning.

Around the core are:

- the charity calculator, which sums the children's weekly contributions, doubles them for
  the parents' 1:1 match, and reports progress towards a target;
- the application's session state: the fixed roster, the job-completion map and the
  charity-contribution map;
- three small state machines: the photo slideshow index, the task list with its
  completion toggle, and the weekly reflection journal.

Each source file is one module:

| module | file | form |
|---|---|---|
| `PocketMoneyTracker` | `pocket_money_tracker.dfy` | functions for the split, count and reads; a method with a loop for `calculateEarnings`; a class `AllocationLedger` for the `allocations` state |
| `CharityTracker` | `charity_tracker.dfy` | functions (all derived figures); a small class for the edit form's state |
| `App` | `app.dfy` | class `Session` with the two maps and their upsert handlers |
| `PhotoSlideshow` | `photo_slideshow.dfy` | class `Slideshow` and the step functions it is specified by |
| `TasksList` | `tasks_list.dfy` | class `TaskBoard`, pure filters and lookups |
| `WeeklyReflection` | `weekly_reflection.dfy` | class `Journal` over a map of five lists |

There are three shared modules:

- `JsValues`: `Option`, `Math.floor`, JavaScript's signed `%`, and `Math.max(0, _)`.
- `JsObject`: a JavaScript object as an insertion-ordered list of entries. That is the order
  `Object.values` uses for non-numeric keys such as child names. `Put` is the spread update
  `{...prev, [k]: v}`.
- `Family`: the roster and charity datatypes and constants.

Behaviour worth knowing, as the code has it:

- **Zero allocations.** A stored allocation of 0 reads back as 1 (`|| 1`,
  PocketMoneyTracker.js:42 and :48), exactly like an absent one. `ReadAfterAllocate` proves
  that a written 0 and a missing entry read the same.
- **Three-way split.** The split is hard-coded for three jobs (PocketMoneyTracker.js:7-11),
  whatever the length of the child's job list.
- **Negative allowances.** `calculateJobValue` uses JavaScript's `%`, whose result has the
  sign of the dividend. For a negative allowance that is not a multiple of 3, the three
  payouts add up to the allowance minus 3 (`SplitSumsToAllowance`). The roster's allowances
  are all non-negative.
- **Zero charity target.** The progress percentage divides by the charity target, and the
  source does not guard against 0. The model requires `target > 0` and uses exact `real`
  arithmetic.

## Model

| member | source | states |
|---|---|---|
| `JsValues.FloorDiv` | src/components/PocketMoneyTracker.js:8 | `Math.floor(a / b)`: the q with b·q ≤ a < b·q + b |
| `JsValues.JsRem` | src/components/PocketMoneyTracker.js:9 | JavaScript's `%`: a = b·trunc(a / b) + r with \|r\| < b and r carrying the sign of a |
| `JsValues.ClampNonNegative` | src/components/PocketMoneyTracker.js:36 | `Math.max(0, a)`: at least a, and either a or 0 |
| `PocketMoneyTracker.JobValues` | src/components/PocketMoneyTracker.js:7-11 | exactly three payouts; the first two are the floored third; for a non-negative allowance they sum to it, each lies in [0, allowance], and the last exceeds the others by at most 2 |
| `PocketMoneyTracker.SplitSumsToAllowance` | src/components/PocketMoneyTracker.js:7-11 | the payouts sum to the allowance iff it is non-negative or a multiple of 3; otherwise they sum to allowance − 3 |
| `PocketMoneyTracker.FindChild` | src/components/PocketMoneyTracker.js:14 | the result is the first child in roster order with that name; no result iff no child has the name |
| `PocketMoneyTracker.CountDone` | src/components/PocketMoneyTracker.js:14-16 | the count of ticked job indices below n is at most n |
| `PocketMoneyTracker.CountDoneIsCardinality` | src/components/PocketMoneyTracker.js:13-17 | the count equals the number of indices i < jobs.length whose flag is true; other keys do not count |
| `PocketMoneyTracker.CompletedCount` | src/components/PocketMoneyTracker.js:13-17 | 0 for an unknown child; otherwise the ticked-index count, bounded by the child's job count |
| `PocketMoneyTracker.Earnings` | src/components/PocketMoneyTracker.js:19-29 | the sum of the first k payouts: 0 with no job done; for allowance ≥ 0 within [0, allowance], and the whole allowance with all 3 done |
| `PocketMoneyTracker.CalculateEarnings` | src/components/PocketMoneyTracker.js:19-29 | the loop returns the sum of the first k payouts, where k is the completed count |
| `PocketMoneyTracker.EarningsWithinAllowance` | src/components/PocketMoneyTracker.js:19-29 | for allowance ≥ 0, earnings are non-negative, grow with k, stay ≤ the allowance, and equal it when all 3 jobs are done |
| `PocketMoneyTracker.EarningsDependOnlyOnCount` | src/components/PocketMoneyTracker.js:19-29 | crediting is positional: completion states with equal counts earn the same |
| `PocketMoneyTracker.LeniEarnings` | src/components/PocketMoneyTracker.js:7-29 | 10 splits as [3,3,4]; ticking only the third job earns 3, not 4; all three earn 10 |
| `PocketMoneyTracker.RosterCountAtMostThree` | src/App.js:17-21 | within the fixed roster no completed count exceeds 3, so the payouts are always defined |
| `PocketMoneyTracker.Allocate` | src/components/PocketMoneyTracker.js:31-39 | stores max(0, amount) at (child, category); keeps the child's other categories and every other child; preserves non-negativity |
| `PocketMoneyTracker.OrOne` | src/components/PocketMoneyTracker.js:42-48 | `x \|\| 1`: never 0; a present non-zero amount is kept; an absent or 0 amount becomes 1 |
| `PocketMoneyTracker.GetAllocation` | src/components/PocketMoneyTracker.js:41-43 | a read is never 0; it is either 1 or the stored value; it is ≥ 1 over a non-negative ledger |
| `PocketMoneyTracker.GetTotalAllocated` | src/components/PocketMoneyTracker.js:45-49 | equals the sum of the three category reads; is 3 for a child with no entry; is ≥ 3 over a non-negative ledger |
| `PocketMoneyTracker.ReadAfterAllocate` | src/components/PocketMoneyTracker.js:31-43 | a write reads back as itself when positive and as 1 otherwise; a written 0 reads like a missing entry |
| `PocketMoneyTracker.ReadOtherAfterAllocate` | src/components/PocketMoneyTracker.js:31-43 | a write changes no other (child, category) reading |
| `PocketMoneyTracker.TotalAfterAllocate` | src/components/PocketMoneyTracker.js:31-49 | after a write, the child's total moves by exactly the change in the one reading |
| `PocketMoneyTracker.Remaining` | src/components/PocketMoneyTracker.js:60 | remaining plus the total allocated is the amount earned; with no entry for the child it is earned − 3; over a non-negative ledger it is at most earned − 3 |
| `PocketMoneyTracker.OverAllocated` | src/components/PocketMoneyTracker.js:131-133 | the warning shows iff earned < total allocated; over a non-negative ledger it always shows below 3 earned; with no entry for the child it shows iff earned < 3 |
| `PocketMoneyTracker.OverAllocationFacts` | src/components/PocketMoneyTracker.js:131-133 | 10 earned with nothing allocated leaves 7; over a non-negative ledger, earnings below 3 always show the warning; with an empty ledger, the warning shows iff earnings are below 3 |
| `PocketMoneyTracker.AllocationLedger.constructor` | src/components/PocketMoneyTracker.js:5 | the ledger starts empty and valid |
| `PocketMoneyTracker.AllocationLedger.HandleAllocationChange` | src/components/PocketMoneyTracker.js:31-39 | the new ledger is `Allocate` of the old one; the non-negative invariant is kept; the written category reads back as the positive amount or 1 |
| `PocketMoneyTracker.RenderChild` | src/components/PocketMoneyTracker.js:56-124 | the card's payouts, earnings and count are those above; the charity, savings and spending boxes each show that category's `GetAllocation` reading, and the three sum to the total allocated; remaining is earned − allocated; the warning shows iff earned < allocated |
| `JsObject.Get` | src/components/CharityTracker.js:111 | `obj[k]`: undefined iff k is not a key; otherwise a value stored under k |
| `JsObject.Put` | src/App.js:48-53 | after `{...prev, [k]: v}`, k holds v; other keys are unchanged; the key set grows by k; a new key is appended; an existing key keeps the length |
| `JsObject.PutKeepsPosition` | src/App.js:48-53 | overwriting a present key replaces its first entry in place (`e[i := (k, v)]`, i the first index with key k), so every entry keeps its position |
| `JsObject.PutKeepsDistinct` | src/App.js:48-53 | an upsert never duplicates a key |
| `JsObject.Without` | src/components/CharityTracker.js:13 | deleting a key removes only that key and keeps keys distinct (used to reason about the sum) |
| `CharityTracker.OrZero` | src/components/CharityTracker.js:111 | `allocations[name] \|\| 0`: a missing contribution is 0, a present one is its value |
| `CharityTracker.TotalAllocated` | src/components/CharityTracker.js:13 | the reduce over all values is non-negative when every value is |
| `CharityTracker.TotalAfterPut` | src/components/CharityTracker.js:13 | after a contribution is written, the total moves by the new value minus the old one (a missing old value counts as 0) |
| `CharityTracker.TotalWithout` | src/components/CharityTracker.js:13 | the total is one child's value (or 0) plus the total of the others |
| `CharityTracker.Card` | src/components/CharityTracker.js:111-125 | the child amount is the stored value, or 0 if missing; the parent match equals it; the card total is twice it |
| `CharityTracker.CardsAddUpToWeeklyTotal` | src/components/CharityTracker.js:111-146 | when every contribution key is one of the distinct roster names, the card totals add up to the weekly total |
| `CharityTracker.OutsideKeyCountsButHasNoCard` | src/components/CharityTracker.js:13 | the sum runs over every key: a contribution under a non-roster name counts in the total but appears on no card |
| `CharityTracker.Summary` | src/components/CharityTracker.js:133-146 | Parents' Match equals Children's Total, and Weekly Total is their sum |
| `CharityTracker.ProgressPercentage` | src/components/CharityTracker.js:15 | for target > 0 the percentage is at most 100 and non-negative for a non-negative amount; it is exactly 100 iff raised + matched ≥ target; below the target it is exactly (raised + matched) / target × 100 (stated cross-multiplied) |
| `CharityTracker.Render` | src/components/CharityTracker.js:13-165 | the bar's percentage is `ProgressPercentage` of raised, This Week and target; This Week is 2 × the children's total; the progress text and Total Impact both equal raised + This Week; the goal block shows iff raised + 2 × total ≥ target; there is one card per roster child |
| `CharityTracker.ScenarioFiveAndThree` | src/components/CharityTracker.js:13-15 | contributions 5 and 3, raised 0, target 100 give totals 8/8/16, progress 16, goal not reached |
| `CharityTracker.CharityForm.constructor` | src/components/CharityTracker.js:5-11 | not in edit mode; the draft copies the charity's name, description, target and image |
| `CharityTracker.CharityForm.SaveCharity` | src/components/CharityTracker.js:17-20 | save only leaves edit mode; the draft is kept and is not applied to the charity |
| `CharityTracker.CharityForm.CompleteGoal` | src/components/CharityTracker.js:22-25 | completing only produces the congratulation text, which names the charity; nothing is modified |
| `App.MarkJob` | src/App.js:41-46 | the job's key holds the new flag; every other key is unchanged |
| `App.MarkJobIdempotent` | src/App.js:41-46 | the same job event twice equals once; of two events on one job the last wins |
| `App.CharityAllocationIdempotent` | src/App.js:48-53 | the same contribution event twice equals once; the last write for a child wins |
| `App.MarkJobCount` | src/App.js:41-46 | a job event changes only the written child's count, and only by trading the old flag for the new one when the index is within range |
| `App.Session.constructor` | src/App.js:16-32 | the roster and charity are the configured ones; both maps start empty |
| `App.Session.HandleJobComplete` | src/App.js:41-46 | upserts the completion flag; the contribution map is untouched |
| `App.Session.HandleCharityAllocation` | src/App.js:48-53 | stores the amount as given, without clamping; other children's entries and the completion map are untouched |
| `App.Session.ChildEarnings` | src/App.js:115-121 | in a session, a roster child's earnings are `Earnings` of the session's completion map and lie in [0, weekly amount] |
| `App.Session.CharityView` | src/App.js:123-130 | the tracker over the session's maps: This Week is twice the sum; the goal shows iff raised + This Week ≥ target |
| `App.NothingDone` | src/App.js:31 | with the empty completion map, no job index of any child counts as done |
| `App.FreshSessionFigures` | src/App.js:31-32 | a fresh session has no completed jobs for any name, 0 percent progress and no goal reached |
| `Family.Roster` | src/App.js:16-29 | three children with distinct names, each with three jobs and a non-negative allowance |
| `Family.InitialCharity` | src/App.js:16-29 | nothing raised yet, below a positive target |
| `Family.Names` | src/App.js:17-21 | the names, one per child, in roster order |
| `Family.RosterShape` | src/App.js:16-29 | Leni, Ayda and Finn with allowances 10, 7 and 4, each with 3 jobs; the charity has target 100 and raised 0 |
| `PhotoSlideshow.Next` | src/components/PhotoSlideshow.js:101-105 | the step stays in [0, n), moves up by one, and wraps from n − 1 to 0 |
| `PhotoSlideshow.Previous` | src/components/PhotoSlideshow.js:107-111 | the step back stays in [0, n) |
| `PhotoSlideshow.PreviousUndoesNext` | src/components/PhotoSlideshow.js:101-111 | for an in-range index, a step back undoes a step forward |
| `PhotoSlideshow.FullCycle` | src/components/PhotoSlideshow.js:101-105 | n forward steps return to the starting index |
| `PhotoSlideshow.MockPhotos` | src/components/PhotoSlideshow.js:10-71 | ten placeholder photos |
| `PhotoSlideshow.Slideshow.constructor` | src/components/PhotoSlideshow.js:5-6 | no photos; the index starts at 0 |
| `PhotoSlideshow.Slideshow.LoadPhotos` | src/components/PhotoSlideshow.js:79-82 | the photos are replaced and the index is left where it is |
| `PhotoSlideshow.Slideshow.GoToNext` | src/components/PhotoSlideshow.js:101-105 | the index becomes `Next` of the old one and stays valid |
| `PhotoSlideshow.Slideshow.GoToPrevious` | src/components/PhotoSlideshow.js:107-111 | the index becomes `Previous` of the old one and stays valid |
| `PhotoSlideshow.Slideshow.GoToPhoto` | src/components/PhotoSlideshow.js:113-115 | the index is set to the thumbnail's index unchanged |
| `PhotoSlideshow.Slideshow.Tick` | src/components/PhotoSlideshow.js:90-99 | the timer tick (only with photos) takes the same step as next |
| `PhotoSlideshow.Slideshow.CurrentPhoto` | src/components/PhotoSlideshow.js:136 | the photo on show is one of the photos |
| `PhotoSlideshow.Slideshow.Counter` | src/components/PhotoSlideshow.js:142-144 | shows index + 1 of n, with 1 ≤ index + 1 ≤ n |
| `TasksList.Toggled` | src/components/TasksList.js:90-96 | same length; each task keeps every field but `completed`, which flips exactly when its id matches |
| `TasksList.ToggleTwice` | src/components/TasksList.js:90-96 | toggling the same id twice restores the list |
| `TasksList.ToggleAbsent` | src/components/TasksList.js:90-96 | toggling an id no task has leaves the list unchanged |
| `TasksList.CompletedTasks` | src/components/TasksList.js:151 | the completed list is no longer than the task list |
| `TasksList.PendingTasks` | src/components/TasksList.js:152 | the pending list is no longer than the task list |
| `TasksList.FilterMembership` | src/components/TasksList.js:151-152 | a task is in the completed list iff it is in the list with `completed` true; likewise pending with false |
| `TasksList.Partition` | src/components/TasksList.js:151-152 | the two lengths sum to the total, and the two multisets add up to the list's |
| `TasksList.CompletedKeepsOrder` | src/components/TasksList.js:151 | the completed filter distributes over concatenation, so it keeps relative order |
| `TasksList.PendingKeepsOrder` | src/components/TasksList.js:152 | the pending filter distributes over concatenation, so it keeps relative order |
| `TasksList.HighPriorityOpen` | src/components/TasksList.js:268 | the high-priority figure never exceeds the pending count |
| `TasksList.HighPriorityAmongPending` | src/components/TasksList.js:268 | the figure is exactly the number of `high` tasks among the pending ones |
| `TasksList.PriorityIcon` | src/components/TasksList.js:98-105 | the table icon for a known priority; the fallback iff the priority is not in the table |
| `TasksList.CategoryIcon` | src/components/TasksList.js:107-117 | the table icon for a known category; the fallback iff the category is not in the table |
| `TasksList.TaskBoard.constructor` | src/components/TasksList.js:5 | the list starts empty |
| `TasksList.TaskBoard.LoadTasks` | src/components/TasksList.js:81-84 | the loaded list replaces the tasks |
| `TasksList.TaskBoard.ToggleTaskComplete` | src/components/TasksList.js:90-96 | the new list is `Toggled` of the old one; its length is unchanged, and the two partition sizes still add up to it |
| `TasksList.MockTasks` | src/components/TasksList.js:9-73 | seven placeholder tasks with distinct ids |
| `TasksList.MockTaskFigures` | src/components/TasksList.js:9-73 | the placeholders give 1 completed, 6 pending and 2 open high-priority tasks |
| `WeeklyReflection.TrimStart` | src/components/WeeklyReflection.js:54 | a suffix of the input that does not start with white space; only white space was removed |
| `WeeklyReflection.TrimEnd` | src/components/WeeklyReflection.js:54 | a prefix of the input that does not end with white space; only white space was removed |
| `WeeklyReflection.Trim` | src/components/WeeklyReflection.js:54 | no longer than the input; begins and ends with non-white-space when non-empty |
| `WeeklyReflection.TrimIsSlice` | src/components/WeeklyReflection.js:54 | the trimmed entry is a slice of the entry, with only white space cut on either side |
| `WeeklyReflection.TrimEmpty` | src/components/WeeklyReflection.js:54 | the trimmed entry is empty iff the entry is all white space |
| `WeeklyReflection.TrimExample` | src/components/WeeklyReflection.js:57 | "  Picnic " trims to "Picnic" |
| `WeeklyReflection.RemoveAt` | src/components/WeeklyReflection.js:66 | an in-range index removes exactly that element, keeping the others in order, and the length drops by 1; any other index leaves the list unchanged |
| `WeeklyReflection.MockReflections` | src/components/WeeklyReflection.js:16-46 | the placeholder journal has a list for every category |
| `WeeklyReflection.Journal.constructor` | src/components/WeeklyReflection.js:5-13 | five empty lists, an empty entry, the highlights tab |
| `WeeklyReflection.Journal.LoadMock` | src/components/WeeklyReflection.js:48-51 | the placeholders replace the lists; the entry and the tab are kept |
| `WeeklyReflection.Journal.EditEntry` | src/components/WeeklyReflection.js:152 | only the entry being typed changes |
| `WeeklyReflection.Journal.SelectCategory` | src/components/WeeklyReflection.js:112 | only the active category changes |
| `WeeklyReflection.Journal.AddReflection` | src/components/WeeklyReflection.js:53-61 | a non-blank entry is appended, trimmed, to the active list and cleared, and other lists are unchanged; a blank entry changes nothing; the key set never changes |
| `WeeklyReflection.Journal.RemoveReflection` | src/components/WeeklyReflection.js:63-68 | the named list loses exactly the indexed element, or is unchanged when the index is out of range; other lists, the entry and the tab are unchanged |
| `WeeklyReflection.Journal.SummaryCounts` | src/components/WeeklyReflection.js:166-172 | one count per category in tab order, each the length of that category's list |

## Left out

- Keys naming members inherited from `Object.prototype` (such as `constructor`): JavaScript's `obj[k]` finds them, so a priority or category named like that would get no fallback icon (TasksList.js:104, :116). `Get`, `PriorityIcon` and `CategoryIcon` assume keys never name such members.
- `PocketMoneyTracker.CalculateEarnings`: requires at most three completed jobs. With more jobs, the source's `jobValues[i]` is `undefined` and the total becomes NaN; NaN is not modelled. Every roster child has exactly three jobs (`RosterCountAtMostThree`).
- `CharityTracker.ProgressPercentage`: requires a positive target. The source divides by the target unguarded, which gives Infinity or NaN for 0. The model computes in exact `real` arithmetic, not IEEE doubles.
- Rounding of the displayed percentage (`Math.round`, CharityTracker.js:91): floating-point display only.
- Numeric coercion: an allocation input that `parseInt` turns into NaN, and fractional or non-numeric amounts. Allowances and amounts are integers here, and charity contributions are integer values.
- Job keys are the pair (child name, job index). The source concatenates them into the string `name-index`, which two names containing `-` could make collide.
- The charity edit form's field editing, cancel and edit toggles (`setNewCharity`, `setEditMode(true)`), and the `alert` itself: these are UI mechanics and I/O.
- Due dates in the task list (`formatDueDate`, `getDueDateClass`, the overdue filter) and the completion-percentage statistic: they depend on the wall clock and floating point. The percentage is NaN for an empty list.
- The allocation ledger is `PocketMoneyTracker`'s own component state (PocketMoneyTracker.js:5), and the money tab mounts that component only while the tab is open (App.js:115-121). So the ledger starts empty again on every return to the tab. `AllocationLedger` models one mount; remounting is not modelled.
- The loading flags and the `setTimeout`/`setInterval` scheduling (the timer's effect is modelled as `Tick`), `useEffect`, rendering, CSS classes, and the photo dates, which come from the clock and are a parameter of `MockPhotos`.
- The icon and title tables of the reflection categories: constant display strings.
- The photo service (src/services/googlePhotos.js), the weekly themes (src/utils/themes.js) and the calendar (src/components/CalendarEvents.js) are not part of this model. They depend on the network, the clock and locale formatting.
