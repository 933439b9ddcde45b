/**
 * The to-do list: `todoState.items`, a list of `{id, text, completed}` records that the page
 * appends to, filters by id and flips in place, and the label chosen from it.
 * Ids come from `Date.now()` in the page, so two items may share one; they are inputs here.
 */
module Todo {
  import opened Wrappers

  datatype TodoItem = TodoItem(id: int, text: string, completed: bool)

  /** The label shown when no task is open. */
  const PLACEHOLDER: string := "Plans for today?"

  /** `items.filter(item => item.id !== id)`. */
  function Without(items: seq<TodoItem>, id: int): seq<TodoItem> {
    if items == [] then []
    else (if items[0].id == id then [] else [items[0]]) + Without(items[1..], id)
  }

  /** The index `items.find(item => item.id === id)` stops at: the first item with that id, if any. */
  function FirstIndexOf(items: seq<TodoItem>, id: int): (r: Option<nat>)
    ensures r.Some? ==> r.value < |items| && items[r.value].id == id
    ensures r.Some? ==> forall j :: 0 <= j < r.value ==> items[j].id != id
    ensures r.None? ==> forall j :: 0 <= j < |items| ==> items[j].id != id
  {
    if items == [] then None
    else if items[0].id == id then Some(0)
    else match FirstIndexOf(items[1..], id)
      case None => None
      case Some(k) => Some(k + 1)
  }

  function Flip(item: TodoItem): TodoItem {
    item.(completed := !item.completed)
  }

  /** `toggleTodoItem`: the item `find` returns is flipped; without a match nothing changes. */
  function Toggled(items: seq<TodoItem>, id: int): seq<TodoItem> {
    match FirstIndexOf(items, id)
    case None => items
    case Some(k) => items[k := Flip(items[k])]
  }

  predicate HasIncomplete(items: seq<TodoItem>) {
    exists j :: 0 <= j < |items| && !items[j].completed
  }

  /**
   * `updateTaskDisplay`: the text of the first item not completed, or the placeholder when
   * every item is completed.
   */
  function TaskLabel(items: seq<TodoItem>): (r: string)
    ensures !HasIncomplete(items) ==> r == PLACEHOLDER
    ensures forall k ::
      (0 <= k < |items| && !items[k].completed && forall j :: 0 <= j < k ==> items[j].completed)
      ==> r == items[k].text
  {
    if items == [] then PLACEHOLDER
    else if !items[0].completed then items[0].text
    else TaskLabel(items[1..])
  }

  /** Deleting keeps exactly the items whose id differs. */
  lemma {:induction false} WithoutMembers(items: seq<TodoItem>, id: int)
    ensures forall x :: x in Without(items, id) <==> x in items && x.id != id
  {
    if items != [] {
      WithoutMembers(items[1..], id);
      assert items == [items[0]] + items[1..];
    }
  }

  /** Deleting works piecewise, so the items kept stay in their order. */
  lemma {:induction false} WithoutAppend(a: seq<TodoItem>, b: seq<TodoItem>, id: int)
    ensures Without(a + b, id) == Without(a, id) + Without(b, id)
  {
    if a == [] {
      assert a + b == b;
    } else {
      assert (a + b)[1..] == a[1..] + b;
      WithoutAppend(a[1..], b, id);
    }
  }

  /** Deleting keeps every copy of every item whose id differs and no item with the id. */
  lemma {:induction false} WithoutCounts(items: seq<TodoItem>, id: int, x: TodoItem)
    ensures multiset(Without(items, id))[x] == if x.id == id then 0 else multiset(items)[x]
  {
    if items != [] {
      WithoutCounts(items[1..], id, x);
      assert items == [items[0]] + items[1..];
    }
  }

  /** Deleting an id nobody has changes nothing. */
  lemma {:induction false} WithoutAbsent(items: seq<TodoItem>, id: int)
    requires forall j :: 0 <= j < |items| ==> items[j].id != id
    ensures Without(items, id) == items
  {
    if items != [] {
      WithoutAbsent(items[1..], id);
      assert items == [items[0]] + items[1..];
    }
  }

  /** Toggling flips the first item with the id and leaves every other item, the order and the length as they were. */
  lemma ToggledEffect(items: seq<TodoItem>, id: int)
    ensures |Toggled(items, id)| == |items|
    ensures forall j :: 0 <= j < |items| ==>
      Toggled(items, id)[j] == if Some(j) == FirstIndexOf(items, id) then Flip(items[j]) else items[j]
    ensures (forall j :: 0 <= j < |items| ==> items[j].id != id) ==> Toggled(items, id) == items
  {
  }

  /** Two lists with the same ids in the same places find the same first match. */
  lemma {:induction false} FirstIndexSameIds(a: seq<TodoItem>, b: seq<TodoItem>, id: int)
    requires |a| == |b| && forall j :: 0 <= j < |a| ==> a[j].id == b[j].id
    ensures FirstIndexOf(a, id) == FirstIndexOf(b, id)
  {
    if a != [] && a[0].id != id {
      FirstIndexSameIds(a[1..], b[1..], id);
    }
  }

  /** Toggling the same id twice gives the list back. */
  lemma ToggleTwice(items: seq<TodoItem>, id: int)
    ensures Toggled(Toggled(items, id), id) == items
  {
    FirstIndexSameIds(Toggled(items, id), items, id);
  }

  /**
   * Adding a task leaves the label alone while some task is open, and otherwise makes the
   * new task the label.
   */
  lemma {:induction false} TaskLabelAfterAdd(items: seq<TodoItem>, item: TodoItem)
    requires !item.completed
    ensures TaskLabel(items + [item]) == if HasIncomplete(items) then TaskLabel(items) else item.text
  {
    if items == [] {
      assert items + [item] == [item];
    } else {
      assert (items + [item])[1..] == items[1..] + [item];
      TaskLabelAfterAdd(items[1..], item);
      if items[0].completed {
        assert HasIncomplete(items) <==> HasIncomplete(items[1..]) by {
          if HasIncomplete(items) {
            var j :| 0 <= j < |items| && !items[j].completed;
            assert items[1..][j - 1] == items[j];
          }
          if HasIncomplete(items[1..]) {
            var j :| 0 <= j < |items[1..]| && !items[1..][j].completed;
            assert items[j + 1] == items[1..][j];
          }
        }
      }
    }
  }

  /** `todoState.items`, changed in place by the page's handlers. */
  class TodoList {
    var items: seq<TodoItem>

    constructor ()
      ensures items == []
    {
      items := [];
    }

    /** `addTodoItem`, with the id that `Date.now()` would give passed in. */
    method AddItem(id: int, text: string)
      modifies this
      ensures items == old(items) + [TodoItem(id, text, false)]
    {
      items := items + [TodoItem(id, text, false)];
    }

    /** `deleteTodoItem`. */
    method DeleteItem(id: int)
      modifies this
      ensures items == Without(old(items), id)
    {
      items := Without(items, id);
    }

    /** `toggleTodoItem`. */
    method ToggleItem(id: int)
      modifies this
      ensures items == Toggled(old(items), id)
    {
      var found := FirstIndexOf(items, id);
      if found.Some? {
        var k := found.value;
        items := items[k := Flip(items[k])];
      }
    }
  }
}
