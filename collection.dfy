/**
 * The manager's ordered sequence of items as a value: the first-match
 * search behind `find` and `findIndex`, removal of one position, the
 * batch construction behind `createItems`, and the facts about them that
 * the manager's operations rely on.
 */
module Collection {
  import opened Wrappers
  import opened Values

  /** `item[field] === value`, the test applied by every lookup. */
  predicate Matches(item: Item, field: string, value: Value)
  {
    StrictEquals(Get(item, field), value)
  }

  /**
   * `items.findIndex(item => item[field] === value)`, with `-1` as `None`:
   * the first position whose item matches, and no match before it.
   */
  function FindIndex(items: seq<Item>, field: string, value: Value): (r: Option<nat>)
    ensures r.Some? ==> r.value < |items| && Matches(items[r.value], field, value)
    ensures r.Some? ==> forall j :: 0 <= j < r.value ==> !Matches(items[j], field, value)
    ensures r.None? <==> forall j :: 0 <= j < |items| ==> !Matches(items[j], field, value)
    decreases |items|
  {
    if items == [] then None
    else if Matches(items[0], field, value) then Some(0)
    else match FindIndex(items[1..], field, value)
      case None => None
      case Some(i) => Some(i + 1)
  }

  /** `items.toSpliced(i, 1)`: the sequence with position `i` taken out. */
  function Without(items: seq<Item>, i: nat): (r: seq<Item>)
    requires i < |items|
    ensures |r| == |items| - 1
    ensures forall j :: 0 <= j < i ==> r[j] == items[j]
    ensures forall j :: i <= j < |r| ==> r[j] == items[j + 1]
    ensures multiset(r) + multiset{items[i]} == multiset(items)
  {
    assert items == items[..i] + [items[i]] + items[i + 1..];
    items[..i] + items[i + 1..]
  }

  /** No two items share an `_id` value. The manager assumes this; it never checks it. */
  predicate UniqueIds(items: seq<Item>)
  {
    forall i, j :: 0 <= i < j < |items| ==> IdOf(items[i]) != IdOf(items[j])
  }

  /** What a run of `createItem` calls leaves behind: the items it built, and the error that stopped it. */
  datatype Batch = Batch(built: seq<Item>, failure: Option<Error>)

  /** The errors the manager raises itself; the item class may raise any of them too. */
  datatype Error =
    | StartingDataNotArray
    | ItemClassNotFunction
    | NotFound(id: Value)
    | ItemClassError(reason: string)

  /**
   * Building the items for `ds` in order, stopping at the first entry the
   * item class rejects. Nothing built before that entry is discarded.
   */
  function CreateAll<Data>(build: Data -> Result<Item, Error>, ds: seq<Data>): (b: Batch)
    decreases |ds|
  {
    if ds == [] then Batch([], None)
    else match build(ds[0])
      case Failure(e) => Batch([], Some(e))
      case Success(item) =>
        var rest := CreateAll(build, ds[1..]);
        Batch([item] + rest.built, rest.failure)
  }

  /**
   * What `CreateAll` leaves: the item class's results for a prefix of the
   * entries, accepted one by one; on a failure, the entry right after that
   * prefix is the one it rejected, with the error it raised.
   */
  lemma {:induction false} CreateAllStopsAtFirstFailure<Data>(build: Data -> Result<Item, Error>, ds: seq<Data>)
    ensures var b := CreateAll(build, ds);
      && |b.built| <= |ds|
      && (forall i :: 0 <= i < |b.built| ==> build(ds[i]) == Success(b.built[i]))
      && (b.failure.None? ==> |b.built| == |ds|)
      && (b.failure.Some? ==> |b.built| < |ds| && build(ds[|b.built|]) == Failure(b.failure.value))
    decreases |ds|
  {
    if ds != [] && build(ds[0]).Success? {
      CreateAllStopsAtFirstFailure(build, ds[1..]);
    }
  }

  /** One step of `CreateAll`: the first entry, then the rest. */
  lemma CreateAllCons<Data>(build: Data -> Result<Item, Error>, ds: seq<Data>)
    requires ds != []
    ensures CreateAll(build, ds) ==
      match build(ds[0])
      case Failure(e) => Batch([], Some(e))
      case Success(item) => Batch([item] + CreateAll(build, ds[1..]).built, CreateAll(build, ds[1..]).failure)
  {
  }

  /**
   * Building `a + b` is building `a` and then, if that went through,
   * building `b` after it: one `createItems` call over a concatenation
   * leaves the same items as two calls in a row.
   */
  lemma {:induction false} CreateAllConcat<Data>(build: Data -> Result<Item, Error>, a: seq<Data>, b: seq<Data>)
    ensures CreateAll(build, a + b) ==
      var first := CreateAll(build, a);
      if first.failure.Some? then first
      else var second := CreateAll(build, b); Batch(first.built + second.built, second.failure)
    decreases |a|
  {
    if a == [] {
      assert a + b == b;
    } else {
      var ab := a + b;
      assert ab[0] == a[0];
      assert ab[1..] == a[1..] + b;
      CreateAllCons(build, a);
      CreateAllCons(build, ab);
      if build(a[0]).Success? {
        CreateAllConcat(build, a[1..], b);
        var item := build(a[0]).value;
        var rest := CreateAll(build, a[1..]);
        var second := CreateAll(build, b);
        if rest.failure.None? {
          assert [item] + (rest.built + second.built) == ([item] + rest.built) + second.built;
        }
      }
    }
  }

  /**
   * One more turn of the `createItems` loop: after a prefix that went
   * through, entry `i` is either appended or its rejection ends the batch.
   */
  lemma CreateAllSnoc<Data>(build: Data -> Result<Item, Error>, ds: seq<Data>, i: nat)
    requires i < |ds|
    requires CreateAll(build, ds[..i]).failure.None?
    ensures CreateAll(build, ds[..i + 1]) ==
      match build(ds[i])
      case Failure(e) => Batch(CreateAll(build, ds[..i]).built, Some(e))
      case Success(item) => Batch(CreateAll(build, ds[..i]).built + [item], None)
  {
    var prefix := ds[..i];
    assert prefix + [ds[i]] == ds[..i + 1];
    CreateAllConcat(build, prefix, [ds[i]]);
    CreateAllSingle(build, ds[i]);
  }

  /** Once a prefix of the entries has failed, the entries after it change nothing. */
  lemma CreateAllStopsAt<Data>(build: Data -> Result<Item, Error>, ds: seq<Data>, n: nat)
    requires n <= |ds|
    requires CreateAll(build, ds[..n]).failure.Some?
    ensures CreateAll(build, ds) == CreateAll(build, ds[..n])
  {
    assert ds[..n] + ds[n..] == ds;
    CreateAllConcat(build, ds[..n], ds[n..]);
  }

  /** `CreateAll` on a single entry. */
  lemma CreateAllSingle<Data>(build: Data -> Result<Item, Error>, d: Data)
    ensures CreateAll(build, [d]) ==
      match build(d)
      case Failure(e) => Batch([], Some(e))
      case Success(item) => Batch([item], None)
  {
    assert [d][1..] == [];
  }

  /** On a batch the item class accepts entry by entry, the built items are exactly its results, in input order. */
  lemma CreateAllAccepted<Data>(build: Data -> Result<Item, Error>, ds: seq<Data>)
    requires forall i :: 0 <= i < |ds| ==> build(ds[i]).Success?
    ensures CreateAll(build, ds).failure.None?
    ensures |CreateAll(build, ds).built| == |ds|
    ensures forall i :: 0 <= i < |ds| ==> CreateAll(build, ds).built[i] == build(ds[i]).value
  {
    CreateAllStopsAtFirstFailure(build, ds);
  }

  /**
   * Appending an item whose `_id` no earlier item has: a lookup by that
   * `_id` finds the new, last position, and the ids stay unique.
   */
  lemma {:induction false} AppendFindsNewId(items: seq<Item>, item: Item)
    requires forall j :: 0 <= j < |items| ==> IdOf(items[j]) != IdOf(item)
    requires !IdOf(item).NaN?
    ensures FindIndex(items + [item], IdField, IdOf(item)) == Some(|items|)
    ensures UniqueIds(items) ==> UniqueIds(items + [item])
    decreases |items|
  {
    if items != [] {
      assert (items + [item])[1..] == items[1..] + [item];
      AppendFindsNewId(items[1..], item);
    }
  }

  /**
   * With unique ids, the `_id` of a removed item is no longer found, and
   * the rest keep their ids unique.
   */
  lemma RemovedIdNotFound(items: seq<Item>, id: Value)
    requires UniqueIds(items)
    requires FindIndex(items, IdField, id).Some?
    ensures var rest := Without(items, FindIndex(items, IdField, id).value);
      FindIndex(rest, IdField, id).None? && UniqueIds(rest)
  {
    var idx := FindIndex(items, IdField, id).value;
    var rest := Without(items, idx);
    forall j | 0 <= j < |rest|
      ensures !Matches(rest[j], IdField, id)
    {
      if j < idx {
        assert IdOf(rest[j]) != IdOf(items[idx]);
      } else {
        assert rest[j] == items[j + 1];
        assert IdOf(items[idx]) != IdOf(items[j + 1]);
      }
    }
  }

  /**
   * Removing the item just appended, looked up by its own `_id`, gives back
   * the sequence as it was before the append.
   */
  lemma RemoveUndoesAppend(items: seq<Item>, item: Item)
    requires forall j :: 0 <= j < |items| ==> IdOf(items[j]) != IdOf(item)
    requires !IdOf(item).NaN?
    ensures FindIndex(items + [item], IdField, IdOf(item)) == Some(|items|)
    ensures Without(items + [item], |items|) == items
  {
    AppendFindsNewId(items, item);
    assert (items + [item])[..|items|] == items;
  }

  /**
   * Replacing the item at `idx` by one with the same non-`NaN` `_id` keeps the ids
   * unique, and a later lookup by that `_id` lands on the same position.
   */
  lemma ReplaceKeepsPosition(items: seq<Item>, idx: nat, item: Item)
    requires UniqueIds(items)
    requires idx < |items|
    requires IdOf(item) == IdOf(items[idx])
    requires !IdOf(item).NaN?
    ensures UniqueIds(items[idx := item])
    ensures FindIndex(items[idx := item], IdField, IdOf(item)) == Some(idx)
  {
    var updated := items[idx := item];
    forall j | 0 <= j < idx
      ensures !Matches(updated[j], IdField, IdOf(item))
    {
      assert IdOf(items[j]) != IdOf(items[idx]);
    }
    var r := FindIndex(updated, IdField, IdOf(item));
    if r != Some(idx) {
      assert r.Some? ==> r.value > idx;
      assert Matches(updated[idx], IdField, IdOf(item));
    }
  }
}
