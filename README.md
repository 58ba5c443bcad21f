# AppWeek06 list screen, modelled in Dafny

The app is one Android screen holding three in-memory ordered lists: students, shopping-cart
lines and tasks. A mode selector picks which list the shared list view shows, and the screen's
actions go to the active list:

- add: the input is trimmed and empty text is refused. Students with a name already present
  are refused. Cart lines need a positive price, and a name already in the cart merges into
  that line's quantity. Tasks are always appended as not completed.
- tap: a task's completion state is toggled. In the other two modes a tap only shows something.
- remove-at-position and clear: these act on the active list only.
- the info line: the student count; the cart's item count and value; the task list's pending,
  completed and high-priority pending counts.

The model has these modules:

- `DataModels` (`data_models.dfy`): the records `Student`, `CartItem` (the quantity defaults
  to 1) and `Task`, the enums `AppMode` and `TaskPriority`, `getTotalPrice`, and the two
  single-field updates the screen performs (merge a quantity, toggle a task).
- `Text` (`text.dfy`): Kotlin's `String.trim()` with the JVM's whitespace set.
- `Lists` (`lists.dfy`): `Option` for Kotlin's nullable parse results, and `removeAt`.
- `Aggregates` (`aggregates.dfy`): the `sumOf` and `count` folds behind the info line. Lemmas
  give how each list operation moves them.
- `Screen` (`main_activity.dfy`): one value-level function per add and per toggle, with the
  properties the screen relies on. The class `MainActivity` holds the three lists as `seq`
  fields and `currentMode`, and has one method per action. Each method's `modifies` clause
  names only the fields it may change. Each method's `ensures` ties the new state to those
  functions and to the old state. The invariant `Valid()` holds: student names are distinct,
  cart names are distinct, and every cart price is positive. The constructor establishes it,
  and every action method (mode switch, add, click, toggle, remove, clear) keeps it.
  `AddInitialData` is only a step of the constructor, run on its empty lists, so its own
  contract states the appended records and the constructor proves `Valid()` after it.

Modelling choices:

- Prices are whole cents (`int`). The price field's parse result `toDoubleOrNull` is an
  `Option<int>` input. The quantity field's `toIntOrNull` is an `Option<int>` input, and
  `?: 1` is `GetOr(1)`.
- The text-field contents and the selected priority are parameters of `AddItem`.
- The toast messages and dialogs become returned values: `AddOutcome` and `ClickOutcome`.
- Records are values. Merging a quantity or toggling a task replaces that one element of the
  list. No record is ever shared between lists or positions, so nothing else can observe the
  difference.
- `Task` and `TaskPriority` are not declared in the two source files. They are inferred from
  how `MainActivity.kt` uses them: `Task(title, description, isCompleted, priority)`, a
  mutable `isCompleted`, and priorities `LOW`, `MEDIUM`, `HIGH` in that order.
- `AppMode` in `DataModels.kt` declares only `STUDENT_LIST` and `SHOPPING_CART`, but
  `MainActivity.kt` switches to `TASK_MANAGER`. The model adds that third mode. Its display
  name, "Task Manager", is an assumption.
- Points where the model keeps to what the code does:
  - Removing or tapping at a position outside the active list is not handled by the screen.
    The list view only hands out valid positions, and `removeAt` or an index on a bad
    position throws an exception nobody catches. So `RemoveItem` and `HandleItemClick`
    require a valid position. They do not model a recoverable index error.
  - A cart quantity is never validated. A parsed zero or negative quantity is stored or
    merged as it is.
  - The task description is trimmed as well as the title (`MainActivity.kt:203`).

A client method, `CartMergeScenario`, builds the screen with its sample data and adds "Apple"
again at 5.00 × 2. The contracts alone then give one Apple line of 5 units at 2.00, and an
info line of 7 items worth 12.00.

## Model

| member | source | states |
|---|---|---|
| `DataModels.TotalPrice` | AppWeek06/app/src/main/java/com/appweek06/DataModels.kt:20 | a line's total is positive exactly when its quantity is (for a positive price), is at least one unit price for a positive quantity, and is the unit price for quantity 1 |
| `DataModels.WithAddedQuantity` | AppWeek06/app/src/main/java/com/appweek06/MainActivity.kt:194 | `quantity += q` keeps name and price, raises the quantity by exactly q and the line total by q unit prices |
| `DataModels.DisplayNamesDistinct` | AppWeek06/app/src/main/java/com/appweek06/DataModels.kt:28-31 | the two declared modes are labelled "Student List" and "Shopping Cart"; two modes have the same display name exactly when they are the same mode |
| `DataModels.Toggled` | AppWeek06/app/src/main/java/com/appweek06/MainActivity.kt:284 | toggling flips `isCompleted` and keeps title, description and priority |
| `DataModels.ToggledTwice` | AppWeek06/app/src/main/java/com/appweek06/MainActivity.kt:284 | toggling a task twice gives back the same task |
| `Text.IsWhitespace` | AppWeek06/app/src/main/java/com/appweek06/MainActivity.kt:157 | the characters `trim()` removes: space, tab, line feed and carriage return are among them; no ASCII digit or letter is |
| `Text.Trim` | AppWeek06/app/src/main/java/com/appweek06/MainActivity.kt:157 | the result is the slice of the input after its leading whitespace; everything cut at either end is whitespace and the slice neither starts nor ends with whitespace |
| `Text.TrimEmptyIff` | AppWeek06/app/src/main/java/com/appweek06/MainActivity.kt:157-161 | the trimmed input is empty exactly when every character is whitespace (the case `addItem` refuses) |
| `Text.TrimUnchanged` | AppWeek06/app/src/main/java/com/appweek06/MainActivity.kt:157 | text with no whitespace at either end is left as it is |
| `Text.TrimIdempotent` | AppWeek06/app/src/main/java/com/appweek06/MainActivity.kt:157 | trimming an already trimmed text changes nothing |
| `Lists.RemoveAt` | AppWeek06/app/src/main/java/com/appweek06/MainActivity.kt:228-241 | `removeAt(p)` shortens the list by one, keeps the elements before p and shifts those after p down by one |
| `Lists.RemoveAtContents` | AppWeek06/app/src/main/java/com/appweek06/MainActivity.kt:228-241 | `removeAt(p)` removes exactly one occurrence, that of the element at p, from the list's contents |
| `Aggregates.TotalItems` | AppWeek06/app/src/main/java/com/appweek06/MainActivity.kt:299 | the cart's item count (sum of quantities) is non-negative when no quantity is negative |
| `Aggregates.TotalValue` | AppWeek06/app/src/main/java/com/appweek06/MainActivity.kt:300 | the cart's value (sum of line totals) is non-negative when prices are positive and quantities non-negative |
| `Aggregates.CompletedCount` | AppWeek06/app/src/main/java/com/appweek06/MainActivity.kt:305 | the completed count never exceeds the number of tasks; it is zero when no task is done and the list size when all are |
| `Aggregates.PendingCount` | AppWeek06/app/src/main/java/com/appweek06/MainActivity.kt:306 | size minus completed is at most the list size; it is the whole list when no task is done and zero when all are |
| `Aggregates.HighPriorityPending` | AppWeek06/app/src/main/java/com/appweek06/MainActivity.kt:307 | high-priority pending tasks never outnumber the pending tasks |
| `Aggregates.PendingCountIsPendingTasks` | AppWeek06/app/src/main/java/com/appweek06/MainActivity.kt:305-306 | the pending figure (size minus completed) equals the number of tasks not completed, so pending plus completed is the list size |
| `Aggregates.CartTotalsConcat` | AppWeek06/app/src/main/java/com/appweek06/MainActivity.kt:299-300 | both cart totals are additive over concatenation of lists |
| `Aggregates.CartTotalsAppend` | AppWeek06/app/src/main/java/com/appweek06/MainActivity.kt:196 | appending a line raises the item count by its quantity and the value by its total |
| `Aggregates.CartTotalsUpdate` | AppWeek06/app/src/main/java/com/appweek06/MainActivity.kt:194 | replacing one line moves each total by the difference between the new and the old line |
| `Aggregates.CartTotalsMerge` | AppWeek06/app/src/main/java/com/appweek06/MainActivity.kt:192-194 | merging q units into a line raises the item count by q and the value by q times that line's price |
| `Aggregates.CartTotalsRemove` | AppWeek06/app/src/main/java/com/appweek06/MainActivity.kt:233-235 | removing a line lowers the item count by its quantity and the value by its total |
| `Aggregates.TaskCountsConcat` | AppWeek06/app/src/main/java/com/appweek06/MainActivity.kt:305-307 | the completed and high-priority pending counts are additive over concatenation |
| `Aggregates.TaskCountsAppendNew` | AppWeek06/app/src/main/java/com/appweek06/MainActivity.kt:205-206 | appending a not completed task keeps the completed count, adds one pending task, and adds one high-priority pending task exactly when its priority is high |
| `Aggregates.TaskCountsUpdate` | AppWeek06/app/src/main/java/com/appweek06/MainActivity.kt:284 | replacing one task moves each count by the difference the single task makes |
| `Aggregates.TaskCountsToggle` | AppWeek06/app/src/main/java/com/appweek06/MainActivity.kt:283-286 | a toggle moves exactly one task between completed and pending, in the direction of its old state |
| `Aggregates.TaskCountsRemove` | AppWeek06/app/src/main/java/com/appweek06/MainActivity.kt:237-239 | removing a task takes it out of exactly the counts it was in |
| `Screen.FindByName` | AppWeek06/app/src/main/java/com/appweek06/MainActivity.kt:192 | `find` gives nothing exactly when no line has the name, and otherwise the first line with that exact name |
| `Screen.HasStudentNamed` | AppWeek06/app/src/main/java/com/appweek06/MainActivity.kt:175 | some student has exactly this name iff the student record with this name is in the list |
| `Screen.StudentAdd` | AppWeek06/app/src/main/java/com/appweek06/MainActivity.kt:174-179 | a name equal to an existing one is refused with the list unchanged; otherwise exactly one student with that name is appended; afterwards the name is present and distinct names stay distinct |
| `Screen.StudentAddTwiceRefused` | AppWeek06/app/src/main/java/com/appweek06/MainActivity.kt:175-179 | adding the same student again is refused and changes nothing |
| `Screen.CartAdd` | AppWeek06/app/src/main/java/com/appweek06/MainActivity.kt:183-197 | a missing or non-positive price is refused with the cart unchanged; an existing name keeps the length and adds the quantity (default 1) to the first such line only, keeping its name and price; a new name appends one line; distinct names and positive prices are kept |
| `Screen.CartAddTotals` | AppWeek06/app/src/main/java/com/appweek06/MainActivity.kt:192-199 | an accepted cart add raises the item count by the quantity and the value by quantity times the price of the line it lands in; a refused one moves neither |
| `Screen.CartAddTwiceMerges` | AppWeek06/app/src/main/java/com/appweek06/MainActivity.kt:192-196 | adding a new name twice with valid prices leaves one line holding both quantities at the first price |
| `Screen.TaskAdd` | AppWeek06/app/src/main/java/com/appweek06/MainActivity.kt:202-206 | one task is appended with the title, the trimmed description, the priority and not completed; the rest is kept; pending grows by one, completed stays, high-priority pending grows exactly for a high priority |
| `Screen.ToggleAt` | AppWeek06/app/src/main/java/com/appweek06/MainActivity.kt:283-284 | only the task at p changes, and only its completion state, which flips; the completed count moves by one |
| `Screen.ToggleAtTwice` | AppWeek06/app/src/main/java/com/appweek06/MainActivity.kt:283-284 | toggling the same position twice restores the task list |
| `Screen.RemoveKeepsStudentsDistinct` | AppWeek06/app/src/main/java/com/appweek06/MainActivity.kt:230 | removing a student keeps the names distinct |
| `Screen.RemoveKeepsCartValid` | AppWeek06/app/src/main/java/com/appweek06/MainActivity.kt:233 | removing a cart line keeps the names distinct and the prices positive |
| `Screen.InitialDataValid` | AppWeek06/app/src/main/java/com/appweek06/MainActivity.kt:311-313 | the sample students and cart lines have distinct names and positive prices |
| `Screen.InitialSummaries` | AppWeek06/app/src/main/java/com/appweek06/MainActivity.kt:311-320 | the sample data shows 3 students, 5 items worth 8.00, 2 pending and 1 completed tasks, 1 high-priority pending |
| `Screen.MainActivity.constructor` | AppWeek06/app/src/main/java/com/appweek06/MainActivity.kt:47-64 | start-up gives the student mode and the three sample lists, with the invariant holding |
| `Screen.MainActivity.AddInitialData` | AppWeek06/app/src/main/java/com/appweek06/MainActivity.kt:311-320 | the sample records are appended to each list, in order |
| `Screen.MainActivity.SetMode` | AppWeek06/app/src/main/java/com/appweek06/MainActivity.kt:124-125 | only the mode changes, to the one given; no list is written |
| `Screen.MainActivity.AddItem` | AppWeek06/app/src/main/java/com/appweek06/MainActivity.kt:156-172 | empty trimmed input is refused with no list changed; otherwise the trimmed text goes to the active list's add (as `StudentAdd`, `CartAdd` or `TaskAdd`) and the other two lists and the mode are unchanged |
| `Screen.MainActivity.AddStudent` | AppWeek06/app/src/main/java/com/appweek06/MainActivity.kt:174-181 | the new student list and the outcome are those of `StudentAdd`; only the student list may change |
| `Screen.MainActivity.AddCartItem` | AppWeek06/app/src/main/java/com/appweek06/MainActivity.kt:183-200 | the new cart and the outcome are those of `CartAdd`; only the cart may change |
| `Screen.MainActivity.AddTask` | AppWeek06/app/src/main/java/com/appweek06/MainActivity.kt:202-209 | the new task list is that of `TaskAdd`; only the task list may change |
| `Screen.MainActivity.HandleItemClick` | AppWeek06/app/src/main/java/com/appweek06/MainActivity.kt:211-217 | in the task mode the tapped task is toggled and its new state reported; in the student and cart modes no list changes and the student's name or the line with its total is reported |
| `Screen.MainActivity.ToggleTaskCompletion` | AppWeek06/app/src/main/java/com/appweek06/MainActivity.kt:283-288 | the task list becomes `ToggleAt` of the old one and the reported state is the new one |
| `Screen.MainActivity.RemoveItem` | AppWeek06/app/src/main/java/com/appweek06/MainActivity.kt:228-243 | the active list loses exactly its element at the position, in order; the other lists are unchanged; the invariant is kept |
| `Screen.MainActivity.ClearAll` | AppWeek06/app/src/main/java/com/appweek06/MainActivity.kt:245-258 | the active list becomes empty and the other lists are unchanged |
| `Screen.MainActivity.Info` | AppWeek06/app/src/main/java/com/appweek06/MainActivity.kt:290-309 | the info line's numbers for the active list: the student count; the cart totals (non-negative for valid prices and non-negative quantities); pending and completed adding up to the list size, pending being the tasks not completed, and high-priority equal to the count of high-priority tasks not completed, at most pending |

## Left out

- The views: view lookup, hints, button labels, visibility of the cart and task controls,
  list adapters and their change notifications, and clearing the input fields after an add
  (`clearAdditionalFields`). None of these holds list state.
- The confirmation dialog before a delete (`handleItemLongClick`): `RemoveItem` is the
  confirmed action. A cancel changes nothing.
- Toast texts, the detail dialog's text, `toString` and the `%.2f` formatting. The model
  returns the numbers and records they would show.
- Student and cart ids (`UUID.randomUUID()`) and added dates (`Date()`): they are random or
  clock-dependent, and nothing in the screen's logic reads them.
- Floating point: prices are whole cents. Parsing text into a price or a quantity is outside
  the model; the parsed `Option` values are inputs. So the model does not capture that
  `toDoubleOrNull` accepts "NaN", which passes the `price <= 0` check.
- DataModels.WithAddedQuantity: does not model Kotlin's 32-bit `Int` wrap-around on
  `existing.quantity += quantity`. Integers here are unbounded.
- Aggregates.TotalItems: does not model the 32-bit `Int` wrap-around of
  `sumOf { it.quantity }` (MainActivity.kt:299). Integers here are unbounded.
- Screen.TaskAdd: the priority is given as a `TaskPriority`. The spinner-position lookup
  `TaskPriority.values()[position]` and the priorities' display names are not modelled. Their
  definitions are not part of the two source files.
- Object identity: tasks and cart lines are mutable objects in the source. The model treats
  them as values replaced in place in the list, which is equivalent here because no record is
  held in two places.
