/**
 * The values `json.loads` produces, the exceptions the core can raise, and
 * the Python `dict` object that `data_reform` edits in place.
 */
module JsonValues {
  import opened Wrappers
  import OrderedMap

  /** A parsed JSON value. An object keeps its members in document order. */
  datatype Json =
    | JNull
    | JBool(b: bool)
    | JNum(n: int)
    | JStr(s: string)
    | JArr(elems: seq<Json>)
    | JObj(fields: seq<(string, Json)>)

  /** Every object, at every depth, has each key once (json.loads keeps one entry per key). */
  predicate WellFormed(j: Json) {
    match j
    case JArr(elems) => forall i | 0 <= i < |elems| :: WellFormed(elems[i])
    case JObj(fields) =>
      OrderedMap.UniqueKeys(fields) && forall i | 0 <= i < |fields| :: WellFormed(fields[i].1)
    case _ => true
  }

  /** A dict, if it is one, has each key once. */
  predicate KeysUniqueAtTop(j: Json) {
    j.JObj? ==> OrderedMap.UniqueKeys(j.fields)
  }

  /** A value as json.loads returns it. */
  type JsonValue = j: Json | WellFormed(j) witness JNull

  /** What json.loads does with a text: a value, or JSONDecodeError. */
  datatype ParseOutcome = Parsed(value: JsonValue) | DecodeError

  /** The exceptions the core raises and does not catch. */
  datatype PyError =
    | KeyError(key: string)  // a dict subscript or `del` on an absent key
    | TypeError              // subscripting or iterating a value that does not allow it

  /** A member of a well-formed object is well-formed. */
  lemma {:induction false} GetWellFormed(fields: seq<(string, Json)>, k: string)
    requires WellFormed(JObj(fields))
    requires k in OrderedMap.Keys(fields)
    ensures OrderedMap.Get(fields, k).Some? && WellFormed(OrderedMap.Get(fields, k).value)
  {
    var i :| 0 <= i < |fields| && OrderedMap.Keys(fields)[i] == k;
    OrderedMap.GetAt(fields, i);
  }

  /** A Python dict object: an insertion-ordered table that its methods update in place. */
  class Dict {
    var items: OrderedMap.Table<string, Json>

    ghost predicate Valid()
      reads this
    {
      OrderedMap.UniqueKeys(items)
    }

    constructor (items0: OrderedMap.Table<string, Json>)
      requires OrderedMap.UniqueKeys(items0)
      ensures Valid() && items == items0
    {
      items := items0;
    }

    /** `d[k]`: the value stored under `k`, or KeyError(k). */
    method Get(k: string) returns (r: Result<Json, PyError>)
      requires Valid()
      ensures r.Success? <==> k in OrderedMap.Keys(items)
      ensures r.Success? ==> forall i :: 0 <= i < |items| && items[i].0 == k ==> r.value == items[i].1
      ensures r.Success? ==> OrderedMap.Get(items, k) == Some(r.value)
      ensures r.Failure? ==> r.error == KeyError(k) && OrderedMap.Get(items, k).None?
    {
      OrderedMap.GetPresent(items, k);
      forall i | 0 <= i < |items| && items[i].0 == k ensures OrderedMap.Get(items, k) == Some(items[i].1) {
        OrderedMap.GetAt(items, i);
      }
      match OrderedMap.Get(items, k) {
        case Some(v) => r := Success(v);
        case None => r := Failure(KeyError(k));
      }
    }

    /** `d[k] = v`. */
    method Set(k: string, v: Json)
      requires Valid()
      modifies this
      ensures Valid()
      ensures items == OrderedMap.Set(old(items), k, v)
    {
      OrderedMap.SetUnique(items, k, v);
      items := OrderedMap.Set(items, k, v);
    }

    /** `del d[k]`; `found` is false exactly when Python would raise KeyError(k), and then nothing changes. */
    method Delete(k: string) returns (found: bool)
      requires Valid()
      modifies this
      ensures Valid()
      ensures found <==> k in OrderedMap.Keys(old(items))
      ensures items == OrderedMap.Delete(old(items), k)
      ensures !found ==> items == old(items)
    {
      found := k in OrderedMap.Keys(items);
      OrderedMap.DeleteUnique(items, k);
      if !found {
        OrderedMap.DeleteAbsent(items, k);
      }
      items := OrderedMap.Delete(items, k);
    }
  }
}
