/** The summary numbers the screen shows: `sumOf` and `count` folds over the cart and the
    task list, and how each list operation moves them. */
module Aggregates {
  import opened DataModels
  import opened Lists

  /** `cartItemList.sumOf { it.quantity }`. */
  function TotalItems(items: seq<CartItem>): (r: int)
    ensures (forall i :: 0 <= i < |items| ==> items[i].quantity >= 0) ==> r >= 0
  {
    if items == [] then 0 else items[0].quantity + TotalItems(items[1..])
  }

  /** `cartItemList.sumOf { it.getTotalPrice() }`, in cents. */
  function TotalValue(items: seq<CartItem>): (r: int)
    ensures (forall i :: 0 <= i < |items| ==> items[i].quantity >= 0 && items[i].price > 0) ==> r >= 0
  {
    if items == [] then 0 else TotalPrice(items[0]) + TotalValue(items[1..])
  }

  /** `taskList.count { it.isCompleted }`. */
  function CompletedCount(tasks: seq<Task>): (r: nat)
    ensures r <= |tasks|
    ensures (forall i :: 0 <= i < |tasks| ==> !tasks[i].isCompleted) ==> r == 0
    ensures (forall i :: 0 <= i < |tasks| ==> tasks[i].isCompleted) ==> r == |tasks|
  {
    if tasks == [] then 0
    else (if tasks[0].isCompleted then 1 else 0) + CompletedCount(tasks[1..])
  }

  /** `taskList.size - completed`, as the screen computes the pending figure: all tasks when
      none is done, none when all are. */
  function PendingCount(tasks: seq<Task>): (r: nat)
    ensures r <= |tasks|
    ensures (forall i :: 0 <= i < |tasks| ==> !tasks[i].isCompleted) ==> r == |tasks|
    ensures (forall i :: 0 <= i < |tasks| ==> tasks[i].isCompleted) ==> r == 0
  {
    |tasks| - CompletedCount(tasks)
  }

  /** `taskList.count { it.priority == HIGH && !it.isCompleted }`: never more than the
      pending tasks. */
  function HighPriorityPending(tasks: seq<Task>): (r: nat)
    ensures r <= PendingCount(tasks)
  {
    if tasks == [] then 0
    else
      var here := if tasks[0].priority == High && !tasks[0].isCompleted then 1 else 0;
      here + HighPriorityPending(tasks[1..])
  }

  /** The tasks not yet done, in list order: an independent reading of "pending". */
  function PendingTasks(tasks: seq<Task>): (r: seq<Task>)
    ensures forall i :: 0 <= i < |r| ==> !r[i].isCompleted
  {
    if tasks == [] then []
    else (if tasks[0].isCompleted then [] else [tasks[0]]) + PendingTasks(tasks[1..])
  }

  /** The pending figure (size minus completed) counts exactly the tasks not yet done, so
      pending plus completed is the size of the list. */
  lemma {:induction false} PendingCountIsPendingTasks(tasks: seq<Task>)
    ensures PendingCount(tasks) == |PendingTasks(tasks)|
    ensures PendingCount(tasks) + CompletedCount(tasks) == |tasks|
  {
    if tasks != [] {
      PendingCountIsPendingTasks(tasks[1..]);
    }
  }

  /** Cart totals are additive over concatenation. */
  lemma {:induction false} CartTotalsConcat(a: seq<CartItem>, b: seq<CartItem>)
    ensures TotalItems(a + b) == TotalItems(a) + TotalItems(b)
    ensures TotalValue(a + b) == TotalValue(a) + TotalValue(b)
  {
    if a != [] {
      assert (a + b)[1..] == a[1..] + b;
      CartTotalsConcat(a[1..], b);
    } else {
      assert a + b == b;
    }
  }

  /** Appending a line adds its quantity and its total to the cart totals. */
  lemma CartTotalsAppend(items: seq<CartItem>, x: CartItem)
    ensures TotalItems(items + [x]) == TotalItems(items) + x.quantity
    ensures TotalValue(items + [x]) == TotalValue(items) + TotalPrice(x)
  {
    CartTotalsConcat(items, [x]);
  }

  /** Replacing line i moves each cart total by the difference between the new and the old line. */
  lemma {:induction false} CartTotalsUpdate(items: seq<CartItem>, i: int, x: CartItem)
    requires 0 <= i < |items|
    ensures TotalItems(items[i := x]) == TotalItems(items) - items[i].quantity + x.quantity
    ensures TotalValue(items[i := x]) == TotalValue(items) - TotalPrice(items[i]) + TotalPrice(x)
  {
    if i > 0 {
      assert items[i := x][1..] == items[1..][i - 1 := x];
      CartTotalsUpdate(items[1..], i - 1, x);
    }
  }

  /** Merging q more units into line i adds q to the item count and q unit prices to the value. */
  lemma CartTotalsMerge(items: seq<CartItem>, i: int, q: int)
    requires 0 <= i < |items|
    ensures TotalItems(items[i := WithAddedQuantity(items[i], q)]) == TotalItems(items) + q
    ensures TotalValue(items[i := WithAddedQuantity(items[i], q)]) == TotalValue(items) + q * items[i].price
  {
    CartTotalsUpdate(items, i, WithAddedQuantity(items[i], q));
  }

  /** Removing line p takes its quantity and its total out of the cart totals. */
  lemma {:induction false} CartTotalsRemove(items: seq<CartItem>, p: int)
    requires 0 <= p < |items|
    ensures TotalItems(RemoveAt(items, p)) == TotalItems(items) - items[p].quantity
    ensures TotalValue(RemoveAt(items, p)) == TotalValue(items) - TotalPrice(items[p])
  {
    var r := RemoveAt(items, p);
    if p == 0 {
      assert r == items[1..];
    } else {
      assert r[1..] == RemoveAt(items[1..], p - 1);
      CartTotalsRemove(items[1..], p - 1);
    }
  }

  /** Task counts are additive over concatenation. */
  lemma {:induction false} TaskCountsConcat(a: seq<Task>, b: seq<Task>)
    ensures CompletedCount(a + b) == CompletedCount(a) + CompletedCount(b)
    ensures HighPriorityPending(a + b) == HighPriorityPending(a) + HighPriorityPending(b)
  {
    if a != [] {
      assert (a + b)[1..] == a[1..] + b;
      TaskCountsConcat(a[1..], b);
    } else {
      assert a + b == b;
    }
  }

  /** A task added as not completed leaves the completed count alone, adds one pending task,
      and one high-priority pending task when its priority is high. */
  lemma TaskCountsAppendNew(tasks: seq<Task>, t: Task)
    requires !t.isCompleted
    ensures CompletedCount(tasks + [t]) == CompletedCount(tasks)
    ensures PendingCount(tasks + [t]) == PendingCount(tasks) + 1
    ensures HighPriorityPending(tasks + [t]) == HighPriorityPending(tasks) + (if t.priority == High then 1 else 0)
  {
    TaskCountsConcat(tasks, [t]);
  }

  /** Replacing task i moves each count by the difference the single task makes. */
  lemma {:induction false} TaskCountsUpdate(tasks: seq<Task>, i: int, t: Task)
    requires 0 <= i < |tasks|
    ensures CompletedCount(tasks[i := t]) ==
      CompletedCount(tasks) - (if tasks[i].isCompleted then 1 else 0) + (if t.isCompleted then 1 else 0)
    ensures HighPriorityPending(tasks[i := t]) ==
      HighPriorityPending(tasks)
      - (if tasks[i].priority == High && !tasks[i].isCompleted then 1 else 0)
      + (if t.priority == High && !t.isCompleted then 1 else 0)
  {
    if i > 0 {
      assert tasks[i := t][1..] == tasks[1..][i - 1 := t];
      TaskCountsUpdate(tasks[1..], i - 1, t);
    }
  }

  /** Toggling task p moves exactly one task between completed and pending. */
  lemma TaskCountsToggle(tasks: seq<Task>, p: int)
    requires 0 <= p < |tasks|
    ensures tasks[p].isCompleted ==>
      CompletedCount(tasks[p := Toggled(tasks[p])]) == CompletedCount(tasks) - 1 &&
      PendingCount(tasks[p := Toggled(tasks[p])]) == PendingCount(tasks) + 1
    ensures !tasks[p].isCompleted ==>
      CompletedCount(tasks[p := Toggled(tasks[p])]) == CompletedCount(tasks) + 1 &&
      PendingCount(tasks[p := Toggled(tasks[p])]) == PendingCount(tasks) - 1
  {
    TaskCountsUpdate(tasks, p, Toggled(tasks[p]));
  }

  /** Removing task p takes it out of whichever counts it was in. */
  lemma {:induction false} TaskCountsRemove(tasks: seq<Task>, p: int)
    requires 0 <= p < |tasks|
    ensures CompletedCount(RemoveAt(tasks, p)) == CompletedCount(tasks) - (if tasks[p].isCompleted then 1 else 0)
    ensures PendingCount(RemoveAt(tasks, p)) == PendingCount(tasks) - (if tasks[p].isCompleted then 0 else 1)
    ensures HighPriorityPending(RemoveAt(tasks, p)) ==
      HighPriorityPending(tasks) - (if tasks[p].priority == High && !tasks[p].isCompleted then 1 else 0)
  {
    var r := RemoveAt(tasks, p);
    if p == 0 {
      assert r == tasks[1..];
    } else {
      assert r[1..] == RemoveAt(tasks[1..], p - 1);
      TaskCountsRemove(tasks[1..], p - 1);
    }
  }
}
