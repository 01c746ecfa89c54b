# Shared-list store of the personal list manager

The personal list manager is a team of agents. Between them they keep three named lists in a shared
session state: `groceries_list`, `todo_list` and `study_list`. The code the repository owns is
four tools that read and change that state:

- `add_item` appends an item;
- `remove_item` removes the first copy of an item;
- `list_items` renders a list as text;
- `clear_list` empties a list.

Each tool lowercases its list name and item name before it uses them. An unknown list name raises
`KeyError`, and removing an absent item raises `ValueError`. In both cases nothing is changed.

This project models that store in Dafny:

- `Text`: case folding (`str.lower`, on ASCII).
- `Seqs`: `list.remove` as "first index of" plus "cut that index out".
- `Render`: `"\n".join` of the `"- item"` lines, with a line splitter as its inverse.
- `Tools`: the four tools as functions from the state before a call to a `Step` (the state after
  it and the tool's outcome). Outcomes are `Ok(message)`, `UnknownList(name)` and
  `ItemNotFound(item)`. This module also holds the lemmas that relate several calls.
- `Scenarios`: concrete runs on literal names, such as the mixed-case example and the to-do
  scenario.
- `ListStore`: the class `Session`. Its `state` field is the session dictionary. `AddItem`,
  `RemoveItem` and `ClearList` update that field in place, and each one's contract equates the new
  state and result with the matching function in `Tools`. `list_items` only reads, so it is
  `Tools.ListItems` applied to `session.state`.

One might expect add-then-remove to restore the list. The code does not do that in general:
`append` adds at the end, but `remove` takes the first copy. The model follows the code:

- the multiset of items is always restored (`Tools.AddThenRemove`);
- the exact list is restored only when the item was absent before (`Tools.AddThenRemoveExact`);
- otherwise the older copy moves to the end (`Tools.AddThenRemoveMoves`, with the concrete case in
  `Scenarios.AddThenRemoveReorders`).

## Model

| member | source | states |
|---|---|---|
| `Text.LowerProjects` | to_do_system.py:26-27 | a lowercased name has no upper-case letter, and a name equals its lowercasing exactly when it is already lower case |
| `Text.LowerIdempotent` | to_do_system.py:26-27 | lowercasing an already lowercased name changes nothing |
| `Text.LowerKeepsNonLetter` | to_do_system.py:26 | lowercasing neither adds nor removes a non-letter character such as the line separator |
| `Seqs.IndexOf` | to_do_system.py:36 | the index `list.remove` acts on holds the item, and no earlier index does |
| `Seqs.RemoveFirst` | to_do_system.py:36 | `list.remove` leaves the list with exactly the first occurrence cut out: `s[..i] + s[i+1..]` |
| `Seqs.RemoveFirstMultiset` | to_do_system.py:36 | removal shortens the list by one and takes exactly one copy of the item out of its multiset |
| `Seqs.IndexOfAppend` | to_do_system.py:28-36 | appending an item keeps the first index of a copy already present, and otherwise the first index is the new last slot |
| `Seqs.AppendThenRemoveFirst` | to_do_system.py:28-36 | append then remove restores the multiset; the exact list when the item was absent; otherwise the first copy moves to the end |
| `Seqs.AppendThenRemoveFirstPresent` | to_do_system.py:28-36 | with the item already present, append then remove equals remove then append |
| `Seqs.AppendThenRemoveFirstAbsent` | to_do_system.py:28-36 | with the item absent, append then remove gives back the list itself |
| `Seqs.AppendThenRemoveFirstLeavesNone` | to_do_system.py:28-36 | with the item absent, no copy remains after append then remove |
| `Render.SplitLines` | to_do_system.py:43 | splitting on the separator yields at least one piece, as Python's `split` does |
| `Render.JoinLinesSnoc` | to_do_system.py:43 | joining one more line to a non-empty list of lines adds exactly one separator and that line at the end |
| `Render.SplitLinesOfLine` | to_do_system.py:43 | a line without a separator splits into itself |
| `Render.SplitLinesCons` | to_do_system.py:43 | splitting a line without a separator, a separator and a tail gives the line followed by the tail's pieces |
| `Render.SplitLinesSnoc` | to_do_system.py:43 | splitting a text, a separator and a last line without separators gives the text's pieces followed by that line |
| `Render.SplitJoin` | to_do_system.py:43 | splitting the joined text gives back the lines, for a non-empty list of lines without separators |
| `Render.JoinSplit` | to_do_system.py:43 | joining the pieces of any split text gives back the text |
| `Render.JoinLinesPrepend` | to_do_system.py:43 | a character put in front of the first line comes first in the joined text |
| `Render.BulletsNoNewlines` | to_do_system.py:43 | rendering `"- item"` adds no separator to an item without one |
| `Render.ItemsTextSnoc` | to_do_system.py:43 | rendering one more item gives the old text, a separator unless the list was empty, and the new bullet |
| `Render.ItemsTextLines` | to_do_system.py:43 | for items without a line separator, the items section read back line by line is exactly the `"- item"` bullets in order; an empty list gives one empty line |
| `Tools.AddItem` | to_do_system.py:24-29 | a known list gets the lowercased item at its end and grows by one, the other lists and the key set stay the same, and the message is "The item X added to L"; an unknown list is `UnknownList` and the state stays the same |
| `Tools.RemoveItem` | to_do_system.py:32-37 | success exactly when the list is known and holds the item; the list loses its first copy of the item, one copy leaves its multiset, the other lists stay the same, and the message is "The item X removed from the L"; otherwise `UnknownList` or `ItemNotFound`, and the state stays the same |
| `Tools.ListItems` | to_do_system.py:40-44 | success exactly when the list is known, with "The items in the L are " followed by the rendered items; otherwise `UnknownList`; it returns no state, so it cannot change one |
| `Tools.ClearList` | to_do_system.py:47-51 | a known list becomes empty, the other lists stay the same, and the message is "list: L cleared of all items"; an unknown list is `UnknownList` and the state stays the same |
| `Tools.RunKeepsKeys` | to_do_system.py:24-51 | no sequence of tool calls adds or deletes a list, so from the initial state exactly the three list names exist |
| `Tools.AddKeepsItemsLowerCase` | to_do_system.py:26-28 | `add_item` stores only lower-case items |
| `Tools.RemoveKeepsItemsLowerCase` | to_do_system.py:34-36 | every item a list holds after `remove_item` was already in that list before, so stored items stay lower case |
| `Tools.ApplyKeepsItemsLowerCase` | to_do_system.py:24-51 | after any single call, every stored item is still lower case |
| `Tools.RunKeepsItemsLowerCase` | to_do_system.py:24-51 | after any sequence of calls, every stored item is still lower case |
| `Tools.AddedItemPresent` | to_do_system.py:28 | the item just added is in the list |
| `Tools.AddThenRemove` | to_do_system.py:24-37 | add then remove of the same item succeeds, restores the list's multiset and keeps every other list |
| `Tools.AddThenRemoveExact` | to_do_system.py:24-37 | with the item absent before, add then remove restores the whole state exactly |
| `Tools.AddThenRemoveMoves` | to_do_system.py:24-37 | with the item present before, add then remove moves its first copy to the end of the list |
| `Tools.AddRemoveRemoveFails` | to_do_system.py:24-37 | with the item absent before, a second remove fails with `ItemNotFound` and keeps the original state |
| `Tools.ClearIdempotent` | to_do_system.py:47-51 | clearing twice gives the same state and outcome as clearing once; on a known list both succeed and the list is empty |
| `Tools.CaseInsensitive` | to_do_system.py:24-51 | each tool called with any casing of the names gives the same result as with the lowercased names |
| `Tools.ListAfterAdd` | to_do_system.py:24-44 | after an add, the listing is the old listing plus the new `"- item"` line at the end |
| `Tools.AddShowsItemOnceMore` | to_do_system.py:24-44 | after an add, the item's `"- item"` line appears exactly once more among the lines of the items section |
| `Tools.ListAfterClear` | to_do_system.py:40-51 | after a clear, the listing is "The items in the L are " with an empty items section |
| `Scenarios.ListNamesLowerCase` | to_do_system.py:114 | the three initial list names are already lower case |
| `Scenarios.AddThenRemoveReorders` | to_do_system.py:28-36 | adding and removing "a" on `["a", "b"]` leaves `["b", "a"]`, not the original list |
| `Scenarios.AddMixedCase` | to_do_system.py:26-28 | `add_item("GROCERIES_LIST", "Milk")` is the same call as `add_item("groceries_list", "milk")` and stores "milk" |
| `Scenarios.DentistListed` | to_do_system.py:24-44 | from the initial state, adding "call dentist" to the to-do list makes the listing "The items in the todo_list are - call dentist" |
| `Scenarios.DentistRemoved` | to_do_system.py:24-44 | then removing it succeeds, and the listing has an empty items section |
| `ListStore.Session.constructor` | to_do_system.py:114 | a new session holds exactly the three lists, all empty |
| `ListStore.Session.AddItem` | to_do_system.py:24-29 | the in-place append leaves the state and answer given by `Tools.AddItem`, with the same key set |
| `ListStore.Session.RemoveItem` | to_do_system.py:32-37 | the in-place removal of the first copy leaves the state and answer given by `Tools.RemoveItem`, with the same key set |
| `ListStore.Session.ClearList` | to_do_system.py:47-51 | the in-place clear leaves the state and answer given by `Tools.ClearList`, with the same key set |
| `ListStore.DentistRound` | to_do_system.py:24-44 | a caller that sees only the session's contracts gets the two listings of the to-do scenario |

## Left out

- The agent, team and tool-registration declarations (to_do_system.py:55-118) are configuration for
  an external framework. They are not modelled. `Tools.Call` and `Tools.Apply` only stand in for
  "any tool call the framework may issue".
- The language-model client and the environment reading (to_do_system.py:6-19) are network and
  credential I/O.
- The database that persists the session state (to_do_system.py:12-13) is external I/O. The model
  starts from the initial state, or from any given state.
- The interactive command-line loop (to_do_system.py:121) is UI and I/O.
- Which tool is called, and with what arguments, is decided by the external model. The lemmas about
  runs quantify over every sequence of calls instead.
- Text.Lower: folds only 'A'..'Z'. Python's `str.lower` also folds other Unicode letters and can
  change a string's length; only the ASCII part is modelled.
- Tools.ListItems: the message is a Dafny string with no encoding. The framework's markdown
  rendering is not modelled.
- Tools.AddShowsItemOnceMore: requires that the new item holds no line separator. Such an item
  renders as several lines of the listing, so its bullet is not one line of it. Items already stored
  may hold separators.
- ListStore.Session: the dictionary of Python lists is a map of immutable sequences that the
  methods reassign. Two keys sharing one list object (aliasing) cannot be expressed. The initial
  state has no aliasing, and the tools never create it.
- Exceptions: a raised `KeyError` or `ValueError` is an error outcome. Its message text and its
  propagation through the framework are not modelled. `UnknownList(name)` carries the lowercased key,
  as Python's `KeyError` does. `ItemNotFound(item)` carries the lowercased item, which Python's
  `ValueError` ("list.remove(x): x not in list") does not name.
