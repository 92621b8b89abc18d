/**
 * A client session, on an item class that takes
 * `_id` from the raw record and a shallow merge in which the patch wins:
 * two starting items, a create, an update, a remove, then two lookups.
 */
module ManagerExample {
  import opened Wrappers
  import opened Values
  import opened Collection
  import opened CollectionManager

  type Record = map<string, Value>

  function Build(d: Record): Result<Item, Error>
  {
    if IdField in d then Success(Item(d)) else Failure(ItemClassError("no _id"))
  }

  const A: Record := map[IdField := Str("a"), "title" := Str("A")]
  const B: Record := map[IdField := Str("b"), "title" := Str("B")]
  const C: Record := map[IdField := Str("c"), "title" := Str("C")]
  const A2: Record := A["title" := Str("A2")]

  /** Construction with two starting records, then a create. */
  method Start() returns (m: Manager<Record>)
    ensures fresh(m) && m.itemClass == Build && m.items == [Item(A), Item(B), Item(C)]
  {
    CreateAllCons(Build, [A, B]);
    CreateAllCons(Build, [B]);
    var created := Manager.Create(Array([A, B]), Function(Build), "list");
    assert created.Success?;
    m := created.value;
    var idC := m.CreateItem(C);
    assert idC == Success(Str("c"));
  }

  /** Renaming A keeps it at the front with the same `_id`. */
  method RenameA(m: Manager<Record>)
    requires m.itemClass == Build && m.items == [Item(A), Item(B), Item(C)]
    modifies m
    ensures m.items == [Item(A2), Item(B), Item(C)]
  {
    var merge := (item: Item, patch: Record) => item.fields + patch;
    assert Matches(m.items[0], IdField, Str("a"));
    assert merge(m.items[0], map["title" := Str("A2")]) == A2;
    var updated := m.UpdateItem(Str("a"), map["title" := Str("A2")], merge);
    assert updated == Pass;
  }

  /** Removing B returns it and leaves A2 then C. */
  method RemoveB(m: Manager<Record>)
    requires m.items == [Item(A2), Item(B), Item(C)]
    modifies m
    ensures m.items == [Item(A2), Item(C)]
  {
    assert !Matches(m.items[0], IdField, Str("b")) && Matches(m.items[1], IdField, Str("b"));
    var removed := m.RemoveItem(Str("b"));
    assert removed == Success(Item(B));
  }

  method Walkthrough()
  {
    var m := Start();
    RenameA(m);
    RemoveB(m);
    assert m.FindItemIdByField("title", Str("A2")) == Str("a");
    assert Get(m.items[0], "title") != Str("B") && Get(m.items[1], "title") != Str("B");
    assert m.FindItemIdByField("title", Str("B")) == Null;
  }
}
