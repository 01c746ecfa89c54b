/** Concrete runs of the tools on literal names and items: the case-folding
    example, the reordering that keeps add-then-remove from restoring a list
    exactly, and the add/list/remove/list scenario on the initial state. */
module Scenarios {
  import opened Text
  import opened Seqs
  import opened Render
  import opened Tools

  /** The three list names are already lower case. */
  lemma ListNamesLowerCase()
    ensures Lower(GroceriesList) == GroceriesList
    ensures Lower(TodoList) == TodoList
    ensures Lower(StudyList) == StudyList
  {
  }

  /** The literal items used below, lowercased. */
  lemma LiteralsLowered()
    ensures Lower("a") == "a"
    ensures Lower("Milk") == "milk" && Lower("milk") == "milk"
    ensures Lower("GROCERIES_LIST") == GroceriesList
    ensures Lower("call dentist") == "call dentist"
  {
  }

  /** Removing the first "a" from ["a", "b"] and appending "a" gives ["b", "a"]. */
  lemma MovedA()
    ensures RemoveFirst(["a", "b"], "a") + ["a"] == ["b", "a"]
  {
  }

  /** The counter-example to exact restoration: with "a" first in the
      to-do list, adding and removing "a" moves it to the end. */
  lemma AddThenRemoveReorders()
    ensures var st := map[TodoList := ["a", "b"]];
            RemoveItem(AddItem(st, TodoList, "a").state, TodoList, "a").state
              == map[TodoList := ["b", "a"]]
  {
    var st := map[TodoList := ["a", "b"]];
    ListNamesLowerCase();
    LiteralsLowered();
    AddThenRemoveMoves(st, TodoList, "a");
    MovedA();
  }

  /** `add_item("GROCERIES_LIST", "Milk")` is `add_item("groceries_list", "milk")`,
      and what it stores is "milk". */
  lemma AddMixedCase(st: State)
    requires GroceriesList in st
    ensures AddItem(st, "GROCERIES_LIST", "Milk") == AddItem(st, GroceriesList, "milk")
    ensures AddItem(st, "GROCERIES_LIST", "Milk").state[GroceriesList] == st[GroceriesList] + ["milk"]
  {
    ListNamesLowerCase();
    LiteralsLowered();
  }

  /** From the initial state: add "call dentist" to the to-do list and see it
      listed as the only line. */
  lemma DentistListed()
    ensures var added := AddItem(InitialState, TodoList, "call dentist");
            ListItems(added.state, TodoList) == Ok("The items in the todo_list are - call dentist")
  {
    ListNamesLowerCase();
    LiteralsLowered();
    assert InitialState[TodoList] == [];
    ListAfterAdd(InitialState, TodoList, "call dentist");
    DentistLine();
  }

  lemma DentistLine()
    ensures "The items in the " + TodoList + " are " + Bullet("call dentist")
              == "The items in the todo_list are - call dentist"
  {
  }

  /** Then remove it, and see an empty items section. */
  lemma DentistRemoved()
    ensures var added := AddItem(InitialState, TodoList, "call dentist");
            var removed := RemoveItem(added.state, TodoList, "call dentist");
            && removed.outcome.Ok?
            && ListItems(removed.state, TodoList) == Ok("The items in the todo_list are ")
  {
    ListNamesLowerCase();
    LiteralsLowered();
    AddThenRemove(InitialState, TodoList, "call dentist");
    AddThenRemoveExact(InitialState, TodoList, "call dentist");
    assert ItemsText([]) == "";
  }
}
