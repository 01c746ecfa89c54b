/** The shared session state as the agents see it: one object whose list
    dictionary the tools update in place. Each mutating tool is a method
    whose new state and answer are exactly those of the corresponding
    function in `Tools`; `list_items` only reads, so it is `Tools.ListItems`
    applied to `state`. */
module ListStore {
  import opened Text
  import opened Seqs
  import opened Tools
  import Scenarios

  class Session {
    /** `session_state`: list name to the items of that list. */
    var state: State

    /** The team starts with the three lists, all empty. */
    constructor ()
      ensures state == InitialState
      ensures state.Keys == {GroceriesList, TodoList, StudyList}
      ensures forall name :: name in state ==> state[name] == []
    {
      state := InitialState;
    }

    /** `add_item`: `session_state[list_name].append(item_name)` after
        lowercasing both; an unknown list raises before anything changes. */
    method AddItem(listName: string, itemName: string) returns (r: Outcome)
      modifies this
      ensures Step(state, r) == Tools.AddItem(old(state), listName, itemName)
      ensures state.Keys == old(state).Keys
    {
      var item := Lower(itemName);
      var name := Lower(listName);
      if name !in state {
        return UnknownList(name);
      }
      state := state[name := state[name] + [item]];
      r := Ok(AddedMessage(item, name));
    }

    /** `remove_item`: `session_state[list_name].remove(item_name)` after
        lowercasing both; an unknown list or an absent item raises before
        anything changes. */
    method RemoveItem(listName: string, itemName: string) returns (r: Outcome)
      modifies this
      ensures Step(state, r) == Tools.RemoveItem(old(state), listName, itemName)
      ensures state.Keys == old(state).Keys
    {
      var item := Lower(itemName);
      var name := Lower(listName);
      if name !in state {
        return UnknownList(name);
      }
      var items := state[name];
      if item !in items {
        return ItemNotFound(item);
      }
      var i := IndexOf(items, item);
      state := state[name := items[..i] + items[i + 1..]];
      r := Ok(RemovedMessage(item, name));
    }

    /** `clear_list`: `session_state[list_name].clear()` after lowercasing;
        an unknown list raises before anything changes. */
    method ClearList(listName: string) returns (r: Outcome)
      modifies this
      ensures Step(state, r) == Tools.ClearList(old(state), listName)
      ensures state.Keys == old(state).Keys
    {
      var name := Lower(listName);
      if name !in state {
        return UnknownList(name);
      }
      state := state[name := []];
      r := Ok(ClearedMessage(name));
    }
  }

  /** A client that sees only the contracts above: the add/list/remove/list
      round of the to-do list on a fresh session. */
  method DentistRound() returns (listed: Outcome, emptied: Outcome)
    ensures listed == Ok("The items in the todo_list are - call dentist")
    ensures emptied == Ok("The items in the todo_list are ")
  {
    var session := new Session();
    var added := session.AddItem(TodoList, "call dentist");
    listed := ListItems(session.state, TodoList);
    Scenarios.DentistListed();
    var removed := session.RemoveItem(TodoList, "call dentist");
    Scenarios.DentistRemoved();
    emptied := ListItems(session.state, TodoList);
  }
}
