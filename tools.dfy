/** The four list tools of the shared-list store, as functions from the
    session state before a call to the state after it and the tool's
    answer. A Python exception (`KeyError` for an unknown list, `ValueError`
    from `list.remove`) becomes an error outcome; Python raises before it
    mutates anything, so an error step always keeps the state. */
module Tools {
  import opened Text
  import opened Seqs
  import opened Render

  /** The session state: list name to the ordered items of that list. */
  type State = map<string, seq<string>>

  const GroceriesList: string := "groceries_list"
  const TodoList: string := "todo_list"
  const StudyList: string := "study_list"

  /** The session state the team starts with: the three lists, all empty. */
  const InitialState: State := map[GroceriesList := [], TodoList := [], StudyList := []]

  /** What a tool call gives back: its confirmation text, or the error it raises. */
  datatype Outcome =
    | Ok(message: string)
    | UnknownList(listName: string)   // KeyError on session_state[list_name]
    | ItemNotFound(itemName: string)  // ValueError from list.remove

  /** The state after a call together with the call's outcome. */
  datatype Step = Step(state: State, outcome: Outcome)

  function AddedMessage(item: string, name: string): string
  {
    "The item " + item + " added to " + name
  }

  function RemovedMessage(item: string, name: string): string
  {
    "The item " + item + " removed from the " + name
  }

  function ListedMessage(name: string, items: seq<string>): string
  {
    "The items in the " + name + " are " + ItemsText(items)
  }

  function ClearedMessage(name: string): string
  {
    "list: " + name + " cleared of all items"
  }

  /** `after` has the keys of `before`, and every list but `name` is as it was. */
  predicate OthersUnchanged(before: State, after: State, name: string)
  {
    after.Keys == before.Keys && forall k :: k in before && k != name ==> after[k] == before[k]
  }

  /** `add_item`: the lowercased item goes to the end of the lowercased list. */
  function AddItem(st: State, listName: string, itemName: string): (r: Step)
    ensures r.state.Keys == st.Keys
    ensures r.outcome.Ok? <==> Lower(listName) in st
    ensures Lower(listName) !in st ==> r == Step(st, UnknownList(Lower(listName)))
    ensures Lower(listName) in st ==>
      && r.outcome.message == AddedMessage(Lower(itemName), Lower(listName))
      && r.state[Lower(listName)] == st[Lower(listName)] + [Lower(itemName)]
      && |r.state[Lower(listName)]| == |st[Lower(listName)]| + 1
      && OthersUnchanged(st, r.state, Lower(listName))
  {
    var item := Lower(itemName);
    var name := Lower(listName);
    if name in st then Step(st[name := st[name] + [item]], Ok(AddedMessage(item, name)))
    else Step(st, UnknownList(name))
  }

  /** `remove_item`: the first occurrence of the lowercased item leaves the
      lowercased list; an unknown list and an absent item are errors. */
  function RemoveItem(st: State, listName: string, itemName: string): (r: Step)
    ensures r.state.Keys == st.Keys
    ensures r.outcome.Ok? <==> Lower(listName) in st && Lower(itemName) in st[Lower(listName)]
    ensures Lower(listName) !in st ==> r == Step(st, UnknownList(Lower(listName)))
    ensures Lower(listName) in st && Lower(itemName) !in st[Lower(listName)] ==>
      r == Step(st, ItemNotFound(Lower(itemName)))
    ensures r.outcome.Ok? ==>
      var items, item := st[Lower(listName)], Lower(itemName);
      && r.outcome.message == RemovedMessage(item, Lower(listName))
      && r.state[Lower(listName)] == items[..IndexOf(items, item)] + items[IndexOf(items, item) + 1..]
      && multiset(r.state[Lower(listName)]) == multiset(items) - multiset{item}
      && OthersUnchanged(st, r.state, Lower(listName))
  {
    var item := Lower(itemName);
    var name := Lower(listName);
    if name !in st then Step(st, UnknownList(name))
    else if item !in st[name] then Step(st, ItemNotFound(item))
    else
      RemoveFirstMultiset(st[name], item);
      Step(st[name := RemoveFirst(st[name], item)], Ok(RemovedMessage(item, name)))
  }

  /** `list_items`: reads the lowercased list and renders it; it has no state
      to give back, so it cannot change the state. */
  function ListItems(st: State, listName: string): (r: Outcome)
    ensures r.Ok? <==> Lower(listName) in st
    ensures Lower(listName) !in st ==> r == UnknownList(Lower(listName))
    ensures Lower(listName) in st ==> r.message == ListedMessage(Lower(listName), st[Lower(listName)])
  {
    var name := Lower(listName);
    if name in st then Ok(ListedMessage(name, st[name])) else UnknownList(name)
  }

  /** `clear_list`: the lowercased list becomes empty; nothing else changes. */
  function ClearList(st: State, listName: string): (r: Step)
    ensures r.state.Keys == st.Keys
    ensures r.outcome.Ok? <==> Lower(listName) in st
    ensures Lower(listName) !in st ==> r == Step(st, UnknownList(Lower(listName)))
    ensures Lower(listName) in st ==>
      && r.outcome.message == ClearedMessage(Lower(listName))
      && r.state[Lower(listName)] == []
      && OthersUnchanged(st, r.state, Lower(listName))
  {
    var name := Lower(listName);
    if name in st then Step(st[name := []], Ok(ClearedMessage(name)))
    else Step(st, UnknownList(name))
  }

  /** One tool call as the agent framework issues it. */
  datatype Call =
    | Add(listName: string, itemName: string)
    | Remove(listName: string, itemName: string)
    | List(listName: string)
    | Clear(listName: string)

  /** Dispatches a call to its tool. */
  function Apply(st: State, call: Call): Step
  {
    match call
    case Add(l, i) => AddItem(st, l, i)
    case Remove(l, i) => RemoveItem(st, l, i)
    case List(l) => Step(st, ListItems(st, l))
    case Clear(l) => ClearList(st, l)
  }

  /** The state after a sequence of calls, errors included. */
  function Run(st: State, calls: seq<Call>): State
  {
    if calls == [] then st else Run(Apply(st, calls[0]).state, calls[1..])
  }

  /** No tool adds or deletes a list: any run of calls keeps the key set, so
      from the initial state only the three named lists ever exist. */
  lemma {:induction false} RunKeepsKeys(st: State, calls: seq<Call>)
    ensures Run(st, calls).Keys == st.Keys
    ensures st == InitialState ==> Run(st, calls).Keys == {GroceriesList, TodoList, StudyList}
  {
    if calls != [] {
      RunKeepsKeys(Apply(st, calls[0]).state, calls[1..]);
    }
  }

  /** Every stored item is lower case. */
  predicate ItemsLowerCase(st: State)
  {
    forall name, item :: name in st && item in st[name] ==> IsLowerCase(item)
  }

  lemma AddKeepsItemsLowerCase(st: State, listName: string, itemName: string)
    requires ItemsLowerCase(st)
    ensures ItemsLowerCase(AddItem(st, listName, itemName).state)
  {
    LowerProjects(itemName);
    if Lower(listName) in st {
      AddItemUpdate(st, listName, itemName);
    }
  }

  /** `remove_item` stores nothing new: every item left was already in
      that list, so lower case is kept. */
  lemma RemoveKeepsItemsLowerCase(st: State, listName: string, itemName: string)
    requires ItemsLowerCase(st)
    ensures forall k, y :: k in st && y in RemoveItem(st, listName, itemName).state[k] ==> y in st[k]
    ensures ItemsLowerCase(RemoveItem(st, listName, itemName).state)
  {
    var name, item := Lower(listName), Lower(itemName);
    if name in st && item in st[name] {
      RemoveItemUpdate(st, listName, itemName);
      RemoveFirstMultiset(st[name], item);
      forall y | y in RemoveFirst(st[name], item) ensures y in st[name] {
        assert y in multiset(RemoveFirst(st[name], item));
      }
    }
  }

  /** Each tool stores only lowercased items, so a state whose items are all
      lower case stays so after any call. */
  lemma ApplyKeepsItemsLowerCase(st: State, call: Call)
    requires ItemsLowerCase(st)
    ensures ItemsLowerCase(Apply(st, call).state)
  {
    match call
    case Add(l, i) => AddKeepsItemsLowerCase(st, l, i);
    case Remove(l, i) => RemoveKeepsItemsLowerCase(st, l, i);
    case List(_) =>
    case Clear(_) =>
  }

  /** Any run of calls from a state with lower-case items, the initial state
      among them, stores only lower-case items. */
  lemma {:induction false} RunKeepsItemsLowerCase(st: State, calls: seq<Call>)
    requires ItemsLowerCase(st)
    ensures ItemsLowerCase(Run(st, calls))
  {
    if calls != [] {
      ApplyKeepsItemsLowerCase(st, calls[0]);
      RunKeepsItemsLowerCase(Apply(st, calls[0]).state, calls[1..]);
    }
  }

  /** The state `add_item` leaves on a known list, as one map update. */
  lemma AddItemUpdate(st: State, listName: string, itemName: string)
    requires Lower(listName) in st
    ensures AddItem(st, listName, itemName).state
              == st[Lower(listName) := st[Lower(listName)] + [Lower(itemName)]]
  {
  }

  /** The state `remove_item` leaves when it succeeds, as one map update. */
  lemma RemoveItemUpdate(st: State, listName: string, itemName: string)
    requires Lower(listName) in st && Lower(itemName) in st[Lower(listName)]
    ensures RemoveItem(st, listName, itemName).state
              == st[Lower(listName) := RemoveFirst(st[Lower(listName)], Lower(itemName))]
  {
  }

  /** The item that was just added is in the list. */
  lemma AddedItemPresent(st: State, listName: string, itemName: string)
    requires Lower(listName) in st
    ensures Lower(itemName) in AddItem(st, listName, itemName).state[Lower(listName)]
  {
    AddItemUpdate(st, listName, itemName);
    var s := st[Lower(listName)];
    assert (s + [Lower(itemName)])[|s|] == Lower(itemName);
  }

  /** Adding and removing the same item succeeds and gives back the list's
      multiset of items; every other list is as it was. */
  lemma AddThenRemove(st: State, listName: string, itemName: string)
    requires Lower(listName) in st
    ensures var removed := RemoveItem(AddItem(st, listName, itemName).state, listName, itemName);
            && removed.outcome == Ok(RemovedMessage(Lower(itemName), Lower(listName)))
            && multiset(removed.state[Lower(listName)]) == multiset(st[Lower(listName)])
            && OthersUnchanged(st, removed.state, Lower(listName))
  {
    AddItemUpdate(st, listName, itemName);
    AppendThenRemoveFirst(st[Lower(listName)], Lower(itemName));
  }

  /** The exact list comes back when the item was not in it before. */
  lemma AddThenRemoveExact(st: State, listName: string, itemName: string)
    requires Lower(listName) in st && Lower(itemName) !in st[Lower(listName)]
    ensures RemoveItem(AddItem(st, listName, itemName).state, listName, itemName).state == st
  {
    var name, item := Lower(listName), Lower(itemName);
    var added := AddItem(st, listName, itemName);
    AddItemUpdate(st, listName, itemName);
    AddedItemPresent(st, listName, itemName);
    RemoveItemUpdate(added.state, listName, itemName);
    UpdateTwice(st, name, st[name] + [item], RemoveFirst(st[name] + [item], item));
    AppendThenRemoveFirstAbsent(st[name], item);
  }

  /** Overwriting a key twice, and overwriting it with its own value. */
  lemma UpdateTwice(st: State, name: string, first: seq<string>, second: seq<string>)
    requires name in st
    ensures st[name := first][name := second] == st[name := second]
    ensures second == st[name] ==> st[name := second] == st
  {
  }

  /** When the item was already there, removal takes the older copy, so
      the list comes back with that copy moved to the end. */
  lemma AddThenRemoveMoves(st: State, listName: string, itemName: string)
    requires Lower(listName) in st && Lower(itemName) in st[Lower(listName)]
    ensures RemoveItem(AddItem(st, listName, itemName).state, listName, itemName).state[Lower(listName)]
              == RemoveFirst(st[Lower(listName)], Lower(itemName)) + [Lower(itemName)]
  {
    var added := AddItem(st, listName, itemName);
    AddItemUpdate(st, listName, itemName);
    AppendThenRemoveFirstPresent(st[Lower(listName)], Lower(itemName));
    RemoveItemUpdate(added.state, listName, itemName);
  }

  /** After adding and removing an item that was not in the list, a second
      removal fails with item-not-found and keeps the state. */
  lemma AddRemoveRemoveFails(st: State, listName: string, itemName: string)
    requires Lower(listName) in st && Lower(itemName) !in st[Lower(listName)]
    ensures var removed := RemoveItem(AddItem(st, listName, itemName).state, listName, itemName);
            RemoveItem(removed.state, listName, itemName) == Step(st, ItemNotFound(Lower(itemName)))
  {
    AddThenRemoveExact(st, listName, itemName);
  }

  /** Clearing twice is clearing once, and neither call fails on a known list. */
  lemma ClearIdempotent(st: State, listName: string)
    ensures var once := ClearList(st, listName);
            var twice := ClearList(once.state, listName);
            && twice.state == once.state && twice.outcome == once.outcome
            && (Lower(listName) in st ==> twice.outcome.Ok? && twice.state[Lower(listName)] == [])
  {
    var name := Lower(listName);
    var once := ClearList(st, listName);
    if name in st {
      assert once.state == st[name := []];
    }
  }

  /** Every tool folds the case of its names first: calling it with the
      lowercased names is the same call. */
  lemma CaseInsensitive(st: State, listName: string, itemName: string)
    ensures AddItem(st, listName, itemName) == AddItem(st, Lower(listName), Lower(itemName))
    ensures RemoveItem(st, listName, itemName) == RemoveItem(st, Lower(listName), Lower(itemName))
    ensures ListItems(st, listName) == ListItems(st, Lower(listName))
    ensures ClearList(st, listName) == ClearList(st, Lower(listName))
  {
    LowerIdempotent(listName);
    LowerIdempotent(itemName);
  }

  /** After an add, the listing is the old listing with the new bullet as its
      last line. */
  lemma ListAfterAdd(st: State, listName: string, itemName: string)
    requires Lower(listName) in st
    ensures var name, items := Lower(listName), st[Lower(listName)];
            ListItems(AddItem(st, listName, itemName).state, listName)
              == Ok("The items in the " + name + " are " +
                    if items == [] then Bullet(Lower(itemName))
                    else ItemsText(items) + [Newline] + Bullet(Lower(itemName)))
  {
    ItemsTextSnoc(st[Lower(listName)], Lower(itemName));
  }

  /** After an add, the bullet of the item is one line more of the items
      section than before, when the new item holds no line separator. */
  lemma AddShowsItemOnceMore(st: State, listName: string, itemName: string)
    requires Lower(listName) in st
    requires Newline !in itemName
    ensures var name, bullet := Lower(listName), Bullet(Lower(itemName));
            var after := AddItem(st, listName, itemName).state;
            multiset(SplitLines(ItemsText(after[name])))[bullet]
              == multiset(SplitLines(ItemsText(st[name])))[bullet] + 1
  {
    var name, item := Lower(listName), Lower(itemName);
    var items := st[name];
    LowerKeepsNonLetter(itemName, Newline);
    assert Newline !in Bullet(item);
    ItemsTextSnoc(items, item);
    if items == [] {
      SplitLinesOfLine(Bullet(item));
      assert Bullet(item) != "";
    } else {
      SplitLinesSnoc(ItemsText(items), Bullet(item));
    }
  }

  /** After clearing, the listing has an empty items section. */
  lemma ListAfterClear(st: State, listName: string)
    requires Lower(listName) in st
    ensures ListItems(ClearList(st, listName).state, listName)
              == Ok("The items in the " + Lower(listName) + " are ")
  {
    assert ItemsText([]) == "";
  }
}
