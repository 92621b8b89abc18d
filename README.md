# Collection manager of a todo-list page, in Dafny

The todo-list page keeps its todos in a generic collection manager, the
`Manager` class of `scripts/classes/manager.js`. A manager holds an ordered
sequence of items (the private `#items`). It builds each item from raw data
with a caller-supplied item class. It offers create, find-by-field, update
(deep merge, then rebuild), remove, and a render hook that gets a copy of
the items. Every write replaces the whole sequence by a `toSpliced` copy.
Nothing is written in place.

This project models that class:

- `wrappers.dfy` holds `Option`, `Result` and `Outcome`. A JavaScript
  `throw` becomes a `Failure`/`Fail` result.
- `values.dfy` holds the JavaScript values that the manager compares: `===`
  (where `NaN` equals nothing), property lookup (a missing property is
  `undefined`), and `?? null`.
- `collection.dfy` is the item sequence as a value. It has the first-match
  search behind `find`/`findIndex`, the removal done by `toSpliced(i, 1)`,
  and the batch build behind `createItems`. Its lemmas cover batch
  composition, lookups after append, remove and replace, and id uniqueness.
- `manager.dfy` has the class `Manager<Data>` with the field
  `items: seq<Item>`. Each write method reassigns that field and states the
  new sequence in terms of the old one.
- `example.dfy` is a client session: two starting items, a create, an
  update, a remove, and lookups. It is written against the contracts alone.

Three things come from outside the class, so they are parameters:

- `itemClass` is the `const itemClass: Data -> Result<Item, Error>`. It may
  fail, and whatever error it returns propagates unchanged.
- `deepmerge` is the `deepmerge` parameter of `UpdateItem`.
- `nanoid` is the `freshId` parameter of `Create`.

`rfdc` cloning needs no model for primitive values: Dafny sequences and
datatypes are values, so a copy of a primitive equals the original and
cannot alias manager state. A cloned object is a new reference; see
"## Left out".

The manager never checks that `_id` values are unique. The lemmas that need
uniqueness take `UniqueIds` as a precondition.

Two details of the code that the model keeps:

- `findItemIdByField` returns `null` when no item matches. It also returns
  `null` when the first matching item's `_id` is `undefined` or `null`,
  because of `?? null` (scripts/classes/manager.js:56; `FindItemIdByField`,
  `Coalesce`).
- The constructor throws a plain `Error` with a message
  (scripts/classes/manager.js:13, :18). The model keeps only which check
  failed (`StartingDataNotArray`, `ItemClassNotFunction`).

## Model

| member | source | states |
|---|---|---|
| `CollectionManager.Manager.Create` | scripts/classes/manager.js:10-28 | A non-array `startingData` fails first. Then a non-function `itemClass` fails. Only after both checks are items built. An omitted `startingData` builds nothing. If any entry's construction fails, construction fails with that error. Otherwise the new manager carries the fresh id and the item class, and its items are exactly the batch built from `startingData`. |
| `CollectionManager.Manager.CreateItem` | scripts/classes/manager.js:31-37 | If the item class accepts `data`, the items become the old items followed by the new item, and the new item's `_id` is returned. If it rejects `data`, its error is returned and the items are unchanged. |
| `CollectionManager.Manager.CreateItems` | scripts/classes/manager.js:39-43 | The items become the old items followed by everything the batch built: all entries in order, or the entries before the first rejected one. There is no rollback. The returned outcome is the first rejection's error, or success. |
| `CollectionManager.Manager.FindItemIdByField` | scripts/classes/manager.js:52-58 | If no item's `field` strictly equals `value`, the result is `null`. Otherwise the result is the first matching item's `_id`, with `undefined`/`null` mapped to `null`. |
| `CollectionManager.Manager.UpdateItem` | scripts/classes/manager.js:61-93 | If no item has `_id === id`, the result is `NotFound(id)` and the items are unchanged. If the item class rejects the merged record, its error is returned and the items are unchanged. Otherwise exactly the first matching position is replaced by the rebuilt item, and the length and every other position stay the same. |
| `CollectionManager.Manager.RemoveItem` | scripts/classes/manager.js:96-118 | If no item has `_id === id`, the result is `NotFound(id)` and the items are unchanged. Otherwise the first matching item is returned and the items become the old sequence without that position. |
| `CollectionManager.Manager.Render` | scripts/classes/manager.js:121-127 | Definition of `render(fn)`: a pass-through that applies `fn` to the current items and returns its result. It reads the manager and changes nothing. |
| `CollectionManager.CreateThenFind` | scripts/classes/manager.js:31-37 | After an append of an item whose `_id` is new, not nullish and not `NaN`, looking up that `_id` returns it. For an object-valued `_id` the source returns a clone instead (see "## Left out"). |
| `CollectionManager.RemoveThenFind` | scripts/classes/manager.js:96-118 | After a removal from a collection with unique ids, looking up the removed `_id` returns `null`, and the remaining ids stay unique. |
| `Values.StrictEquals` | scripts/classes/manager.js:55 | Definition of `===`: equal values, except that `NaN` equals nothing. Objects are equal only as the same reference. |
| `Values.IdOf` | scripts/classes/manager.js:36 | Definition of `item._id`: `Get` of the identifying property `_id`, so an item without one has the id `undefined`. |
| `Values.Get` | scripts/classes/manager.js:55 | Definition of `item[field]`: the property's value, or `undefined` when the item has no such property. |
| `Values.Coalesce` | scripts/classes/manager.js:56 | Definition of `v ?? null`: `undefined` and `null` become `null`; every other value is kept. |
| `Collection.Matches` | scripts/classes/manager.js:54-56 | Definition of the lookup test `item[field] === value`: `StrictEquals` of `Get(item, field)` and `value`. With `field` set to `_id` it is also the `_id === id` test of `updateItem` and `removeItem` (manager.js:65-67, :99-101). |
| `Collection.CreateAll` | scripts/classes/manager.js:40-42 | Definition of the `for…of` loop over `createItem`: the items built in order, and the error of the first rejected entry, if any. Its properties are the `CreateAll…` lemmas below. |
| `Collection.FindIndex` | scripts/classes/manager.js:65-67 | `findIndex`: a result is a matching position with no match before it. The result is none exactly when no position matches. |
| `Collection.Without` | scripts/classes/manager.js:114 | `toSpliced(i, 1)`: the length drops by one. Positions before `i` are kept, later ones shift down by one, and the removed item is the only element lost (as a multiset). |
| `Collection.CreateAllStopsAtFirstFailure` | scripts/classes/manager.js:39-43 | The built items are the item class's results for a prefix of the entries. On success that prefix is all of them. On failure the next entry is the rejected one, with its error. |
| `Collection.CreateAllAccepted` | scripts/classes/manager.js:27 | If the item class accepts every entry, the batch succeeds, has the input's length, and position `i` holds the item built from entry `i`. |
| `Collection.CreateAllCons` | scripts/classes/manager.js:40-42 | One loop step: the first entry is built, then the rest, unless the first entry is rejected. |
| `Collection.CreateAllSnoc` | scripts/classes/manager.js:40-42 | One more loop turn after a prefix that went through: entry `i` is appended, or its rejection becomes the batch's error. |
| `Collection.CreateAllStopsAt` | scripts/classes/manager.js:40-42 | Once a prefix of the entries has failed, the later entries are never built: the whole batch equals that prefix's batch. |
| `Collection.CreateAllConcat` | scripts/classes/manager.js:39-43 | Building `a + b` equals building `a` and then, only if that succeeded, building `b` after it. |
| `Collection.AppendFindsNewId` | scripts/classes/manager.js:35 | Appending an item with a new, non-`NaN` `_id` makes a lookup by that `_id` find the last position, and appending keeps the ids unique. |
| `Collection.RemovedIdNotFound` | scripts/classes/manager.js:99-114 | With unique ids, the removed `_id` is no longer found, and the rest keep unique ids. |
| `Collection.RemoveUndoesAppend` | scripts/classes/manager.js:35 | Appending an item with a new, non-`NaN` `_id` and then removing that `_id` gives back the original sequence. |
| `Collection.ReplaceKeepsPosition` | scripts/classes/manager.js:87-92 | Replacing position `idx` with an item of the same non-`NaN` `_id` keeps the ids unique, and a later lookup of that `_id` lands on `idx` again. |

## Left out

- `consoleRender`, the default `render` callback, and every `console.log` are console I/O. `Render` always takes an explicit `fn`.
- Default arguments are not modelled. These are `createItems(data = [])`, `findItemIdByField(field = "", value = "")`, `updateItem(id, updates = {})` and the options object `= {}`. Callers pass their arguments. The omitted `startingData` default is modelled, as `StartingData.Omitted`.
- `createItems` called directly with a non-array iterable, such as a string iterated by characters, is not modelled. Its argument is a sequence.
- Error messages, which embed the received value, are not modelled. Only the error kind is kept.
- Each error is modelled as a returned value. A JavaScript exception unwinds the stack; here the caller receives the error instead.
- JavaScript numbers are modelled as integers plus `NaN`. Fractions, infinities and `+0 === -0` are not modelled, and neither are the primitive types `Symbol` and `BigInt`. Objects are compared as references only; property lookup through the prototype chain is not modelled.
- `Object.defineProperty` non-writability of the manager's `_id` and `itemClass` is `const` in Dafny. The id itself comes from the `freshId` parameter.
- The merge policy of `deepmerge` is not modelled. It is a parameter, so no lemma says that fields absent from the patch keep their values or that `_id` survives an update. `ReplaceKeepsPosition` states what holds when the rebuilt item keeps its `_id`.
- Uniqueness of `_id` is up to the item class, whose source is not part of this model. It is a precondition of the lemmas that need it, not an invariant of the class.
- `FindItemIdByField` returns the stored `_id` itself. The source returns an `rfdc` clone of it. For a primitive id the two are the same value. For an id that is a non-function object (a `Ref`) the clone is a new object, which is not `===` to the stored id, and the model does not capture that. A function-valued id (also a `Ref`) comes back from `rfdc` unchanged, so there the model agrees with the source.
- `Render` passes `fn` the items themselves. The source passes an `rfdc` deep clone. Isolation from `fn` comes from value semantics here. Non-function objects nested in item fields would be new references in the clone, and the model does not capture that. The clone also copies only enumerable properties, so `fn` does not see a non-enumerable property of an item (a non-enumerable `_id`, say); the model, whose items are plain property maps, does not capture that either. `fn` is also a pure Dafny function. A JavaScript `fn` can have effects, can throw, and can call back into the manager, so "changes nothing" holds of `Render` itself, not of what a real callback may do.
- `itemClass` is a fixed function of its input: the same raw data always builds the same item or the same error. It also has no effects. A real item class that draws `_id` from `nanoid` builds a different item on each call. A JavaScript item class could also call back into the manager from `new this.itemClass(...)` (manager.js:87); `toSpliced(idx, 1, …)` at :92 would then apply the old `idx` to the re-read `#items`. The model captures neither.
