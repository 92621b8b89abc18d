/**
 * The generic collection manager: an object holding an ordered sequence of
 * items built by a caller-supplied item class, with create, find, update,
 * remove and render operations. Every write replaces the whole sequence
 * (`toSpliced`), so the field `items` is a `seq` that each write reassigns.
 */
module CollectionManager {
  import opened Wrappers
  import opened Values
  import opened Collection

  /** The `startingData` option: left out (defaults to `[]`), an array, or any other value. */
  datatype StartingData<Data> = Omitted | Array(entries: seq<Data>) | NotArray

  /** The `itemClass` option: a function (the `typeof` check), or any other value (including none). */
  datatype ItemClass<!Data> = Function(construct: Data -> Result<Item, Error>) | NotFunction

  class Manager<Data> {
    /** The manager's own identifier, drawn from the id generator when it is built. */
    const id: string
    /** `new this.itemClass(data)`: builds an item, or throws. */
    const itemClass: Data -> Result<Item, Error>
    /** The private `#items`. */
    var items: seq<Item>

    /** An empty manager; `Create` validates the options before it gets here. */
    constructor Empty(id: string, itemClass: Data -> Result<Item, Error>)
      ensures this.id == id && this.itemClass == itemClass && items == []
    {
      this.id := id;
      this.itemClass := itemClass;
      items := [];
    }

    /**
     * `new Manager({ startingData, itemClass })`. The array check comes
     * first, then the function check, and only then are items built; an
     * entry the item class rejects makes the whole construction throw.
     * `freshId` stands for the value the id generator returns.
     */
    static method Create(startingData: StartingData<Data>, itemClass: ItemClass<Data>, freshId: string)
      returns (r: Result<Manager<Data>, Error>)
      ensures startingData.NotArray? ==> r == Failure(StartingDataNotArray)
      ensures !startingData.NotArray? && itemClass.NotFunction? ==> r == Failure(ItemClassNotFunction)
      ensures !startingData.NotArray? && itemClass.Function? ==>
        var entries := if startingData.Array? then startingData.entries else [];
        var batch := CreateAll(itemClass.construct, entries);
        if batch.failure.Some? then r == Failure(batch.failure.value)
        else (r.Success? && fresh(r.value) && r.value.id == freshId
              && r.value.itemClass == itemClass.construct && r.value.items == batch.built)
    {
      if startingData.NotArray? {
        return Failure(StartingDataNotArray);
      }
      if itemClass.NotFunction? {
        return Failure(ItemClassNotFunction);
      }
      var entries := if startingData.Array? then startingData.entries else [];
      var m := new Manager.Empty(freshId, itemClass.construct);
      var outcome := m.CreateItems(entries);
      if outcome.Fail? {
        return Failure(outcome.error);
      }
      return Success(m);
    }

    /**
     * `createItem(data)`: appends the new item at the end and returns its
     * `_id`; if the item class throws, nothing changes.
     */
    method CreateItem(data: Data) returns (r: Result<Value, Error>)
      modifies this
      ensures match itemClass(data)
        case Success(item) => items == old(items) + [item] && r == Success(IdOf(item))
        case Failure(e) => items == old(items) && r == Failure(e)
    {
      match itemClass(data)
      case Failure(e) =>
        return Failure(e);
      case Success(item) =>
        items := items + [item];
        return Success(IdOf(item));
    }

    /**
     * `createItems(data)`: `createItem` on each entry in order. An entry
     * the item class rejects stops the loop and the error propagates, but
     * the items built before it stay: there is no rollback.
     */
    method CreateItems(ds: seq<Data>) returns (r: Outcome<Error>)
      modifies this
      ensures items == old(items) + CreateAll(itemClass, ds).built
      ensures r == if CreateAll(itemClass, ds).failure.Some? then Fail(CreateAll(itemClass, ds).failure.value) else Pass
    {
      var i := 0;
      while i < |ds|
        invariant 0 <= i <= |ds|
        invariant CreateAll(itemClass, ds[..i]).failure.None?
        invariant items == old(items) + CreateAll(itemClass, ds[..i]).built
      {
        CreateAllSnoc(itemClass, ds, i);
        var created := CreateItem(ds[i]);
        if created.Failure? {
          CreateAllStopsAt(itemClass, ds, i + 1);
          return Fail(created.error);
        }
        i := i + 1;
      }
      assert ds[..i] == ds;
      return Pass;
    }

    /**
     * `findItemIdByField(field, value)`: the `_id` of the first item whose
     * `field` is strictly equal to `value`, as `?? null` leaves it; `null`
     * when no item matches.
     */
    function FindItemIdByField(field: string, value: Value): (r: Value)
      reads this
      ensures (forall i :: 0 <= i < |items| ==> !Matches(items[i], field, value)) ==> r == Null
      ensures forall i :: 0 <= i < |items| && Matches(items[i], field, value) &&
                 (forall j :: 0 <= j < i ==> !Matches(items[j], field, value))
                 ==> r == Coalesce(IdOf(items[i]))
    {
      match FindIndex(items, field, value)
      case None => Null
      case Some(i) => Coalesce(IdOf(items[i]))
    }

    /**
     * `updateItem(id, updates)`: finds the first item with that `_id`,
     * merges `updates` into it, rebuilds it with the item class and puts it
     * back at the same position. An unknown id, or a merged record the item
     * class rejects, throws and changes nothing. `deepmerge` stands for the
     * merge library.
     */
    method UpdateItem(id: Value, updates: Data, deepmerge: (Item, Data) -> Data) returns (r: Outcome<Error>)
      modifies this
      ensures match FindIndex(old(items), IdField, id)
        case None => r == Fail(NotFound(id)) && items == old(items)
        case Some(idx) =>
          match itemClass(deepmerge(old(items)[idx], updates))
          case Failure(e) => r == Fail(e) && items == old(items)
          case Success(item) => r == Pass && items == old(items)[idx := item]
    {
      var found := FindIndex(items, IdField, id);
      if found.None? {
        return Fail(NotFound(id));
      }
      var idx := found.value;
      match itemClass(deepmerge(items[idx], updates))
      case Failure(e) =>
        return Fail(e);
      case Success(item) =>
        items := items[..idx] + [item] + items[idx + 1..];
        return Pass;
    }

    /**
     * `removeItem(id)`: takes the first item with that `_id` out of the
     * sequence and returns it; an unknown id throws and changes nothing.
     */
    method RemoveItem(id: Value) returns (r: Result<Item, Error>)
      modifies this
      ensures match FindIndex(old(items), IdField, id)
        case None => r == Failure(NotFound(id)) && items == old(items)
        case Some(idx) => r == Success(old(items)[idx]) && items == Without(old(items), idx)
    {
      var found := FindIndex(items, IdField, id);
      if found.None? {
        return Failure(NotFound(id));
      }
      var idx := found.value;
      var removed := items[idx];
      items := Without(items, idx);
      return Success(removed);
    }

    /**
     * `render(fn)`: `fn` receives a copy of the items and its result is
     * returned. A sequence is a value, so the copy is the sequence itself
     * and nothing `fn` does can reach the manager's state.
     */
    function Render<R>(fn: seq<Item> -> R): (r: R)
      reads this
    {
      fn(items)
    }
  }

  /** After `createItem` appends an item with a fresh, non-nullish, non-`NaN` `_id`, looking that `_id` up returns it. */
  lemma CreateThenFind<Data>(m: Manager<Data>, before: seq<Item>, item: Item)
    requires m.items == before + [item]
    requires forall j :: 0 <= j < |before| ==> IdOf(before[j]) != IdOf(item)
    requires !(IdOf(item).Undefined? || IdOf(item).Null? || IdOf(item).NaN?)
    ensures m.FindItemIdByField(IdField, IdOf(item)) == IdOf(item)
  {
    AppendFindsNewId(before, item);
  }

  /** After `removeItem` takes an item out of a collection with unique ids, looking that `_id` up returns `null`. */
  lemma RemoveThenFind<Data>(m: Manager<Data>, before: seq<Item>, id: Value)
    requires UniqueIds(before)
    requires FindIndex(before, IdField, id).Some?
    requires m.items == Without(before, FindIndex(before, IdField, id).value)
    ensures m.FindItemIdByField(IdField, id) == Null
    ensures UniqueIds(m.items)
  {
    RemovedIdNotFound(before, id);
  }
}

