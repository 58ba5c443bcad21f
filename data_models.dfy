/** The records and enums of the list screen: students, cart items, tasks and the mode selector. */
module DataModels {

  /** A student; only the name matters to the screen's logic (the random id and the
      creation date are not modelled). Immutable once built. */
  datatype Student = Student(name: string)

  /** A cart line. `price` is in cents. Built without an explicit quantity, a line holds
      one unit; `quantity` is the only field the screen ever changes. */
  datatype CartItem = CartItem(name: string, quantity: int := 1, price: int)

  /** getTotalPrice: the value of the whole line, quantity times unit price. */
  function TotalPrice(item: CartItem): (r: int)
    ensures item.price > 0 ==> (r > 0 <==> item.quantity > 0)
    ensures item.price > 0 && item.quantity > 0 ==> r >= item.price
    ensures item.quantity == 1 ==> r == item.price
  {
    assert item.quantity * item.price == (item.quantity - 1) * item.price + item.price;
    item.quantity * item.price
  }

  /** The line after `existing.quantity += q`: name and price stay, the total grows by q units. */
  function WithAddedQuantity(item: CartItem, q: int): (r: CartItem)
    ensures r.name == item.name && r.price == item.price
    ensures r.quantity - item.quantity == q
    ensures TotalPrice(r) == TotalPrice(item) + q * item.price
  {
    var r := item.(quantity := item.quantity + q);
    assert r.quantity * r.price == item.quantity * item.price + q * item.price;
    r
  }

  /** The mode selector. Only the first two constants are declared with the enum; the
      screen also switches to a task mode, added here. */
  datatype AppMode = StudentList | ShoppingCart | TaskManager

  function DisplayName(mode: AppMode): string {
    match mode
    case StudentList => "Student List"
    case ShoppingCart => "Shopping Cart"
    case TaskManager => "Task Manager"
  }

  /** The two declared modes keep their fixed labels, and every mode is labelled by its own
      name. */
  lemma DisplayNamesDistinct(a: AppMode, b: AppMode)
    ensures DisplayName(StudentList) == "Student List" && DisplayName(ShoppingCart) == "Shopping Cart"
    ensures DisplayName(a) == DisplayName(b) <==> a == b
  {
  }

  /** Task priorities in declaration order (the order the priority picker lists them). */
  datatype TaskPriority = Low | Medium | High

  /** A task; `isCompleted` is the only field the screen changes. */
  datatype Task = Task(title: string, description: string, isCompleted: bool, priority: TaskPriority)

  /** The task after `task.isCompleted = !task.isCompleted`. */
  function Toggled(task: Task): (r: Task)
    ensures r.isCompleted != task.isCompleted
    ensures r.title == task.title && r.description == task.description && r.priority == task.priority
  {
    task.(isCompleted := !task.isCompleted)
  }

  /** Toggling is an involution. */
  lemma ToggledTwice(task: Task)
    ensures Toggled(Toggled(task)) == task
  {
  }
}
