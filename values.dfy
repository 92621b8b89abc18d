/**
 * The slice of JavaScript values the collection manager looks at: the
 * values an item field or an identifier can hold (without symbols and
 * big integers), strict
 * equality (`===`) on them, property lookup on an item, and the
 * nullish-coalescing operator `??`.
 */
module Values {

  /**
   * A JavaScript value. Numbers are modelled by their integer values plus
   * `NaN`; any object (array, function, nested record) is a reference,
   * compared by address.
   */
  datatype Value =
    | Undefined
    | Null
    | Bool(b: bool)
    | Num(n: int)
    | NaN
    | Str(s: string)
    | Ref(address: nat)

  /** An item built by the item class: its own properties. */
  datatype Item = Item(fields: map<string, Value>)

  /** `a === b`: equal values, except that `NaN` equals nothing. */
  predicate StrictEquals(a: Value, b: Value)
  {
    a == b && !a.NaN?
  }

  /** `item[field]`: a missing property reads as `undefined`. */
  function Get(item: Item, field: string): (v: Value)
  {
    if field in item.fields then item.fields[field] else Undefined
  }

  /** The name of the identifying property every item is expected to carry. */
  const IdField: string := "_id"

  /** `item._id` */
  function IdOf(item: Item): (id: Value)
  {
    Get(item, IdField)
  }

  /** `v ?? null`: `undefined` and `null` both become `null`. */
  function Coalesce(v: Value): (r: Value)
  {
    if v.Undefined? || v.Null? then Null else v
  }
}
