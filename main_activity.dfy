/** The list screen: three ordered lists, the mode that picks the active one, and the actions
    (add, tap, remove, clear) that the screen routes to the active list. */
module Screen {
  import opened DataModels
  import opened Text
  import opened Lists
  import opened Aggregates

  /** What an add action reports; the screen shows the failures as short messages. */
  datatype AddOutcome = Added | Merged | EmptyInput | DuplicateStudent | InvalidPrice

  /** What tapping a row does: name the student, show a cart line's details, or report the
      task's new completion state. */
  datatype ClickOutcome =
    | SelectedStudent(name: string)
    | ItemDetails(item: CartItem, total: int)
    | TaskToggled(nowCompleted: bool)

  /** The numbers of the info line, per mode. */
  datatype Summary =
    | StudentSummary(total: nat)
    | CartSummary(totalItems: int, totalValue: int)
    | TaskSummary(pending: nat, completed: nat, highPriority: nat)

  /** `studentList.any { it.name == name }`: case-sensitive exact match, which for a record
      holding only its name is membership of that record. */
  predicate HasStudentNamed(students: seq<Student>, name: string)
    ensures HasStudentNamed(students, name) <==> Student(name) in students
  {
    exists i :: 0 <= i < |students| && students[i].name == name
  }

  predicate StudentNamesDistinct(students: seq<Student>) {
    forall i, j :: 0 <= i < j < |students| ==> students[i].name != students[j].name
  }

  predicate CartNamesDistinct(items: seq<CartItem>) {
    forall i, j :: 0 <= i < j < |items| ==> items[i].name != items[j].name
  }

  predicate PricesPositive(items: seq<CartItem>) {
    forall i :: 0 <= i < |items| ==> items[i].price > 0
  }

  /** `cartItemList.find { it.name == name }`, as a position: the first line with that name,
      or none when no line has it. */
  function FindByName(items: seq<CartItem>, name: string): (r: Option<nat>)
    ensures r.None? <==> forall j :: 0 <= j < |items| ==> items[j].name != name
    ensures r.Some? ==> r.value < |items| && items[r.value].name == name
    ensures r.Some? ==> forall j :: 0 <= j < r.value ==> items[j].name != name
  {
    if items == [] then None
    else if items[0].name == name then Some(0)
    else match FindByName(items[1..], name)
      case None => None
      case Some(k) => Some(k + 1)
  }

  /** addStudent on the list: a new name is appended once, a name already present is
      refused and the list stays as it was; distinct names stay distinct. */
  function StudentAdd(students: seq<Student>, name: string): (r: (seq<Student>, AddOutcome))
    ensures r.1 == DuplicateStudent <==> HasStudentNamed(students, name)
    ensures r.1 == Added || r.1 == DuplicateStudent
    ensures |r.0| == |students| + (if r.1 == Added then 1 else 0)
    ensures r.0[..|students|] == students
    ensures r.1 == Added ==> r.0[|students|] == Student(name)
    ensures HasStudentNamed(r.0, name)
    ensures StudentNamesDistinct(students) ==> StudentNamesDistinct(r.0)
  {
    if HasStudentNamed(students, name) then (students, DuplicateStudent)
    else
      var added := students + [Student(name)];
      assert added[|students|].name == name;
      (added, Added)
  }

  /** addCartItem on the list. A missing or non-positive price is refused and nothing changes.
      Otherwise the quantity is the parsed one or 1, never checked further. A name already in
      the cart adds that quantity to the first line with the name, keeping its price; a new
      name is appended as a new line. */
  function CartAdd(items: seq<CartItem>, name: string, price: Option<int>, quantity: Option<int>)
    : (r: (seq<CartItem>, AddOutcome))
    ensures r.1 == InvalidPrice <==> price.None? || price.value <= 0
    ensures r.1 == Merged <==> r.1 != InvalidPrice && exists j :: 0 <= j < |items| && items[j].name == name
    ensures r.1 in {Added, Merged, InvalidPrice}
    ensures r.1 == InvalidPrice ==> r.0 == items
    ensures r.1 == Merged ==>
      var k := FindByName(items, name).value;
      && |r.0| == |items|
      && r.0[k].name == name && r.0[k].price == items[k].price
      && r.0[k].quantity == items[k].quantity + quantity.GetOr(1)
      && forall j :: 0 <= j < |items| && j != k ==> r.0[j] == items[j]
    ensures r.1 == Added ==> r.0 == items + [CartItem(name, quantity.GetOr(1), price.value)]
    ensures CartNamesDistinct(items) ==> CartNamesDistinct(r.0)
    ensures PricesPositive(items) ==> PricesPositive(r.0)
  {
    var q := quantity.GetOr(1);
    if price.None? || price.value <= 0 then (items, InvalidPrice)
    else match FindByName(items, name)
      case Some(k) => (items[k := WithAddedQuantity(items[k], q)], Merged)
      case None => (items + [CartItem(name, q, price.value)], Added)
  }

  /** How a cart add moves the totals: by the added quantity (and that many unit prices of
      the line it lands in) unless the price was refused. */
  lemma CartAddTotals(items: seq<CartItem>, name: string, price: Option<int>, quantity: Option<int>)
    ensures var r := CartAdd(items, name, price, quantity);
      && TotalItems(r.0) == TotalItems(items) + (if r.1 == InvalidPrice then 0 else quantity.GetOr(1))
      && (r.1 == InvalidPrice ==> TotalValue(r.0) == TotalValue(items))
      && (r.1 == Added ==> TotalValue(r.0) == TotalValue(items) + quantity.GetOr(1) * price.value)
      && (r.1 == Merged ==>
            TotalValue(r.0) == TotalValue(items) + quantity.GetOr(1) * items[FindByName(items, name).value].price)
  {
    var r := CartAdd(items, name, price, quantity);
    var q := quantity.GetOr(1);
    if r.1 == Merged {
      var k := FindByName(items, name).value;
      assert r.0 == items[k := WithAddedQuantity(items[k], q)];
      CartTotalsMerge(items, k, q);
    } else if r.1 == Added {
      CartTotalsAppend(items, CartItem(name, q, price.value));
    }
  }

  /** Adding the same name twice with valid prices leaves one line, holding both quantities
      at the price given first. */
  lemma CartAddTwiceMerges(items: seq<CartItem>, name: string, p1: int, q1: Option<int>, p2: int, q2: Option<int>)
    requires forall j :: 0 <= j < |items| ==> items[j].name != name
    requires p1 > 0 && p2 > 0
    ensures var once := CartAdd(items, name, Some(p1), q1);
      var twice := CartAdd(once.0, name, Some(p2), q2);
      && once.1 == Added && twice.1 == Merged
      && twice.0 == items + [CartItem(name, q1.GetOr(1) + q2.GetOr(1), p1)]
  {
    var once := CartAdd(items, name, Some(p1), q1);
    var line := CartItem(name, q1.GetOr(1), p1);
    assert once.0 == items + [line];
    assert once.0[|items|].name == name;
    var twice := CartAdd(once.0, name, Some(p2), q2);
    assert FindByName(once.0, name) == Some(|items|);
    assert twice.0 == once.0[|items| := WithAddedQuantity(line, q2.GetOr(1))];
  }

  /** Adding a student twice is adding once: the second add is refused. */
  lemma StudentAddTwiceRefused(students: seq<Student>, name: string)
    ensures var once := StudentAdd(students, name);
      StudentAdd(once.0, name) == (once.0, DuplicateStudent)
  {
  }

  /** addTask on the list: one new task at the end, with the trimmed description, not
      completed; it adds one pending task and leaves the completed count alone. */
  function TaskAdd(tasks: seq<Task>, title: string, description: string, priority: TaskPriority)
    : (r: seq<Task>)
    ensures |r| == |tasks| + 1 && r[..|tasks|] == tasks
    ensures r[|tasks|] == Task(title, Trim(description), false, priority)
    ensures CompletedCount(r) == CompletedCount(tasks)
    ensures PendingCount(r) == PendingCount(tasks) + 1
    ensures HighPriorityPending(r) == HighPriorityPending(tasks) + (if priority == High then 1 else 0)
  {
    var task := Task(title, Trim(description), false, priority);
    TaskCountsAppendNew(tasks, task);
    tasks + [task]
  }

  /** toggleTaskCompletion on the list: the task at p flips its completion state, nothing
      else changes, and one task moves between the completed and pending counts. */
  function ToggleAt(tasks: seq<Task>, p: int): (r: seq<Task>)
    requires 0 <= p < |tasks|
    ensures |r| == |tasks|
    ensures r[p].isCompleted != tasks[p].isCompleted
    ensures r[p].title == tasks[p].title && r[p].description == tasks[p].description
    ensures r[p].priority == tasks[p].priority
    ensures forall j :: 0 <= j < |tasks| && j != p ==> r[j] == tasks[j]
    ensures CompletedCount(r) + PendingCount(r) == CompletedCount(tasks) + PendingCount(tasks)
    ensures CompletedCount(r) == CompletedCount(tasks) + (if tasks[p].isCompleted then -1 else 1)
  {
    TaskCountsToggle(tasks, p);
    tasks[p := Toggled(tasks[p])]
  }

  /** Tapping the same task twice restores the list. */
  lemma ToggleAtTwice(tasks: seq<Task>, p: int)
    requires 0 <= p < |tasks|
    ensures ToggleAt(ToggleAt(tasks, p), p) == tasks
  {
    ToggledTwice(tasks[p]);
  }

  /** Removing a row keeps names distinct and prices positive. */
  lemma RemoveKeepsStudentsDistinct(students: seq<Student>, p: int)
    requires 0 <= p < |students| && StudentNamesDistinct(students)
    ensures StudentNamesDistinct(RemoveAt(students, p))
  {
    var r := RemoveAt(students, p);
    forall i, j | 0 <= i < j < |r|
      ensures r[i].name != r[j].name
    {
      var i', j' := if i < p then i else i + 1, if j < p then j else j + 1;
      assert r[i] == students[i'] && r[j] == students[j'];
    }
  }

  lemma RemoveKeepsCartValid(items: seq<CartItem>, p: int)
    requires 0 <= p < |items| && CartNamesDistinct(items) && PricesPositive(items)
    ensures CartNamesDistinct(RemoveAt(items, p)) && PricesPositive(RemoveAt(items, p))
  {
    var r := RemoveAt(items, p);
    forall i, j | 0 <= i < j < |r|
      ensures r[i].name != r[j].name
    {
      var i', j' := if i < p then i else i + 1, if j < p then j else j + 1;
      assert r[i] == items[i'] && r[j] == items[j'];
    }
  }

  /** The sample data the screen starts with. */
  const InitialStudents: seq<Student> := [Student("KIM"), Student("LEE"), Student("PARK")]
  const InitialCart: seq<CartItem> := [CartItem("Apple", 3, 200), CartItem("Banana", 2, 100)]
  const InitialTasks: seq<Task> := [
    Task("Complete Assignment", "Mobile Programming", false, High),
    Task("Shopping", "Visit Mart", false, Medium),
    Task("Tour", "Museum", true, Low)
  ]

  /** The info line for the sample data: 3 students; 5 items worth 8.00; 2 tasks pending,
      1 completed, 1 high-priority pending. */
  lemma InitialSummaries()
    ensures |InitialStudents| == 3
    ensures TotalItems(InitialCart) == 5 && TotalValue(InitialCart) == 800
    ensures PendingCount(InitialTasks) == 2 && CompletedCount(InitialTasks) == 1
    ensures HighPriorityPending(InitialTasks) == 1
  {
    assert InitialCart[1..][1..] == [];
    assert InitialTasks[1..][1..][1..] == [];
  }

  /** The sample data already satisfies the screen's invariant. */
  lemma InitialDataValid()
    ensures StudentNamesDistinct(InitialStudents)
    ensures CartNamesDistinct(InitialCart) && PricesPositive(InitialCart)
  {
    assert InitialStudents[0].name[0] == 'K' && InitialStudents[1].name[0] == 'L';
    assert InitialStudents[2].name[0] == 'P';
    assert InitialCart[0].name[0] == 'A' && InitialCart[1].name[0] == 'B';
  }

  /** The screen's state: the three lists and the mode that picks the active one. */
  class MainActivity {
    var studentList: seq<Student>
    var cartItemList: seq<CartItem>
    var taskList: seq<Task>
    var currentMode: AppMode

    /** Student names are unique (duplicates are refused), cart names are unique (repeats
        are merged) and every cart line has a positive price (others are refused). */
    ghost predicate Valid()
      reads this
    {
      StudentNamesDistinct(studentList) && CartNamesDistinct(cartItemList) && PricesPositive(cartItemList)
    }

    /** The length of the list the current mode shows. */
    function ActiveSize(): nat
      reads this
    {
      match currentMode
      case StudentList => |studentList|
      case ShoppingCart => |cartItemList|
      case TaskManager => |taskList|
    }

    /** Every list but the active one is as it was. */
    twostate predicate InactiveListsUnchanged()
      reads this
    {
      && (currentMode != StudentList ==> studentList == old(studentList))
      && (currentMode != ShoppingCart ==> cartItemList == old(cartItemList))
      && (currentMode != TaskManager ==> taskList == old(taskList))
    }

    /** onCreate without the views: empty lists, the student mode, then the sample data. */
    constructor ()
      ensures Valid()
      ensures currentMode == StudentList
      ensures studentList == InitialStudents && cartItemList == InitialCart && taskList == InitialTasks
    {
      studentList, cartItemList, taskList := [], [], [];
      currentMode := StudentList;
      new;
      SetMode(StudentList);
      AddInitialData();
      assert studentList == InitialStudents && cartItemList == InitialCart;
      InitialDataValid();
    }

    /** addInitialData: appends the sample records to each list. */
    method AddInitialData()
      modifies this`studentList, this`cartItemList, this`taskList
      ensures studentList == old(studentList) + InitialStudents
      ensures cartItemList == old(cartItemList) + InitialCart
      ensures taskList == old(taskList) + InitialTasks
    {
      studentList := studentList + InitialStudents;
      cartItemList := cartItemList + InitialCart;
      taskList := taskList + InitialTasks;
    }

    /** setMode: only the selector changes; no list is touched. */
    method SetMode(mode: AppMode)
      modifies this`currentMode
      ensures currentMode == mode
    {
      currentMode := mode;
    }

    /** addItem: trims the input; an empty result is refused with nothing changed. Otherwise
        the trimmed text goes to the add of the active list, and only that list changes. */
    method AddItem(input: string, price: Option<int>, quantity: Option<int>, description: string,
                   priority: TaskPriority)
      returns (outcome: AddOutcome)
      requires Valid()
      modifies this`studentList, this`cartItemList, this`taskList
      ensures Valid()
      ensures InactiveListsUnchanged()
      ensures Trim(input) == [] ==>
        && outcome == EmptyInput
        && studentList == old(studentList) && cartItemList == old(cartItemList) && taskList == old(taskList)
      ensures Trim(input) != [] && currentMode == StudentList ==>
        (studentList, outcome) == StudentAdd(old(studentList), Trim(input))
      ensures Trim(input) != [] && currentMode == ShoppingCart ==>
        (cartItemList, outcome) == CartAdd(old(cartItemList), Trim(input), price, quantity)
      ensures Trim(input) != [] && currentMode == TaskManager ==>
        taskList == TaskAdd(old(taskList), Trim(input), description, priority) && outcome == Added
    {
      var name := Trim(input);
      if name == [] {
        outcome := EmptyInput;
        return;
      }
      match currentMode
      case StudentList =>
        outcome := AddStudent(name);
      case ShoppingCart =>
        outcome := AddCartItem(name, price, quantity);
      case TaskManager =>
        AddTask(name, description, priority);
        outcome := Added;
    }

    /** addStudent: appends unless a student already has exactly this name. */
    method AddStudent(name: string) returns (outcome: AddOutcome)
      requires Valid()
      modifies this`studentList
      ensures Valid()
      ensures (studentList, outcome) == StudentAdd(old(studentList), name)
    {
      if HasStudentNamed(studentList, name) {
        outcome := DuplicateStudent;
        return;
      }
      studentList := studentList + [Student(name)];
      outcome := Added;
    }

    /** addCartItem: refuses a missing or non-positive price, merges into the line with the
        same name, or appends a new line. */
    method AddCartItem(name: string, price: Option<int>, quantity: Option<int>) returns (outcome: AddOutcome)
      requires Valid()
      modifies this`cartItemList
      ensures Valid()
      ensures (cartItemList, outcome) == CartAdd(old(cartItemList), name, price, quantity)
    {
      var q := quantity.GetOr(1);
      if price.None? || price.value <= 0 {
        outcome := InvalidPrice;
        return;
      }
      var existing := FindByName(cartItemList, name);
      if existing.Some? {
        var k := existing.value;
        cartItemList := cartItemList[k := WithAddedQuantity(cartItemList[k], q)];
        outcome := Merged;
      } else {
        cartItemList := cartItemList + [CartItem(name, q, price.value)];
        outcome := Added;
      }
    }

    /** addTask: always appends a new, not completed task. */
    method AddTask(title: string, description: string, priority: TaskPriority)
      modifies this`taskList
      ensures taskList == TaskAdd(old(taskList), title, description, priority)
    {
      taskList := taskList + [Task(title, Trim(description), false, priority)];
    }

    /** handleItemClick: in the task mode the tapped task is toggled; in the other two modes
        the tap only shows something and no list changes. */
    method HandleItemClick(position: int) returns (outcome: ClickOutcome)
      requires Valid()
      requires 0 <= position < ActiveSize()
      modifies this`taskList
      ensures Valid()
      ensures currentMode != TaskManager ==> taskList == old(taskList)
      ensures currentMode == StudentList ==> outcome == SelectedStudent(studentList[position].name)
      ensures currentMode == ShoppingCart ==>
        outcome == ItemDetails(cartItemList[position], TotalPrice(cartItemList[position]))
      ensures currentMode == TaskManager ==>
        taskList == ToggleAt(old(taskList), position) && outcome == TaskToggled(taskList[position].isCompleted)
    {
      match currentMode
      case StudentList =>
        outcome := SelectedStudent(studentList[position].name);
      case ShoppingCart =>
        var item := cartItemList[position];
        outcome := ItemDetails(item, TotalPrice(item));
      case TaskManager =>
        var nowCompleted := ToggleTaskCompletion(position);
        outcome := TaskToggled(nowCompleted);
    }

    /** toggleTaskCompletion: flips the task's completion state and reports the new one. */
    method ToggleTaskCompletion(position: int) returns (nowCompleted: bool)
      requires 0 <= position < |taskList|
      modifies this`taskList
      ensures taskList == ToggleAt(old(taskList), position)
      ensures nowCompleted == taskList[position].isCompleted
    {
      taskList := taskList[position := Toggled(taskList[position])];
      nowCompleted := taskList[position].isCompleted;
    }

    /** removeItem: removes the row at the position from the active list only. */
    method RemoveItem(position: int)
      requires Valid()
      requires 0 <= position < ActiveSize()
      modifies this`studentList, this`cartItemList, this`taskList
      ensures Valid()
      ensures InactiveListsUnchanged()
      ensures currentMode == StudentList ==> studentList == RemoveAt(old(studentList), position)
      ensures currentMode == ShoppingCart ==> cartItemList == RemoveAt(old(cartItemList), position)
      ensures currentMode == TaskManager ==> taskList == RemoveAt(old(taskList), position)
    {
      match currentMode
      case StudentList =>
        RemoveKeepsStudentsDistinct(studentList, position);
        studentList := RemoveAt(studentList, position);
      case ShoppingCart =>
        RemoveKeepsCartValid(cartItemList, position);
        cartItemList := RemoveAt(cartItemList, position);
      case TaskManager =>
        taskList := RemoveAt(taskList, position);
    }

    /** clearAll: empties the active list only. */
    method ClearAll()
      requires Valid()
      modifies this`studentList, this`cartItemList, this`taskList
      ensures Valid()
      ensures InactiveListsUnchanged()
      ensures ActiveSize() == 0
    {
      match currentMode
      case StudentList =>
        studentList := [];
      case ShoppingCart =>
        cartItemList := [];
      case TaskManager =>
        taskList := [];
    }

    /** updateInfoDisplay: the numbers the info line shows for the active list. For tasks,
        pending and completed make up the whole list and high-priority pending tasks are
        among the pending ones. */
    function Info(): (r: Summary)
      reads this
      ensures currentMode == StudentList ==> r == StudentSummary(|studentList|)
      ensures currentMode == ShoppingCart ==> r == CartSummary(TotalItems(cartItemList), TotalValue(cartItemList))
      ensures currentMode == TaskManager ==>
        && r.TaskSummary?
        && r.completed == CompletedCount(taskList)
        && r.pending == |PendingTasks(taskList)|
        && r.pending + r.completed == |taskList|
        && r.highPriority == HighPriorityPending(taskList)
        && r.highPriority <= r.pending
      ensures currentMode == ShoppingCart && PricesPositive(cartItemList)
              && (forall i :: 0 <= i < |cartItemList| ==> cartItemList[i].quantity >= 0) ==>
        r.totalItems >= 0 && r.totalValue >= 0
    {
      match currentMode
      case StudentList => StudentSummary(|studentList|)
      case ShoppingCart => CartSummary(TotalItems(cartItemList), TotalValue(cartItemList))
      case TaskManager =>
        PendingCountIsPendingTasks(taskList);
        TaskSummary(PendingCount(taskList), CompletedCount(taskList), HighPriorityPending(taskList))
    }
  }

  /** The sample cart, then "Apple" added again at 5.00 x 2 in the cart mode: the line merges
      to 5 units at its first price, and the info line shows 7 items worth 12.00. */
  method CartMergeScenario() {
    var screen := new MainActivity();
    screen.SetMode(ShoppingCart);
    TrimUnchanged("Apple");
    var outcome := screen.AddItem("Apple", Some(500), Some(2), "", Low);
    assert outcome == Merged;
    assert screen.cartItemList == [CartItem("Apple", 5, 200), CartItem("Banana", 2, 100)];
    var banana := [CartItem("Banana", 2, 100)];
    assert screen.cartItemList[1..] == banana && banana[1..] == [];
    assert TotalItems(banana) == 2 && TotalValue(banana) == 200;
    assert screen.Info() == CartSummary(7, 1200);
  }
}
