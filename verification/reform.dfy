/**
 * `data_reform`: take what json.loads made of one evaluation record,
 * optionally take the judgment list out of its `"result"` envelope, and turn
 * every judgment `{dimension, description, result}` into
 * `{dimension, analysis, result}` by editing each judgment dict in place.
 *
 * Only a JSONDecodeError is caught (and turned into `None`); a missing key or
 * a value of the wrong kind raises, which the model returns as `Failure`.
 */
module Reform {
  import opened Wrappers
  import opened JsonValues
  import opened OrderedMap
  import opened Walk

  const RESULT := "result"
  const DESCRIPTION := "description"
  const ANALYSIS := "analysis"
  const DIMENSION := "dimension"

  type Fields = Table<string, Json>

  /** `v[k]` with a string key: a dict member, KeyError(k) when it is absent, TypeError for a list, string, number, bool or null. */
  function Subscript(v: Json, k: string): (r: Result<Json, PyError>)
    ensures r.Success? <==> v.JObj? && k in Keys(v.fields)
    ensures r.Success? ==> Get(v.fields, k) == Some(r.value)
    ensures r.Failure? ==> r.error == if v.JObj? then KeyError(k) else TypeError
  {
    match v
    case JObj(fields) =>
      GetPresent(fields, k);
      (match Get(fields, k)
       case Some(x) => Success(x)
       case None => Failure(KeyError(k)))
    case _ => Failure(TypeError)
  }

  /**
   * The loop body on one judgment dict: read `result`, delete it, set
   * `analysis` from `description`, put `result` back (at the end), delete
   * `description`. A missing `result` or `description` raises KeyError.
   */
  function ReformFields(f: Fields): (r: Result<Fields, PyError>)
  {
    match Get(f, RESULT)
    case None => Failure(KeyError(RESULT))
    case Some(res) =>
      var f1 := Delete(f, RESULT);
      match Get(f1, DESCRIPTION)
      case None => Failure(KeyError(DESCRIPTION))
      case Some(desc) =>
        var f2 := Set(f1, ANALYSIS, desc);
        var f3 := Set(f2, RESULT, res);
        Success(Delete(f3, DESCRIPTION))
  }

  /** The judgment raises KeyError exactly when `result` or `description` is missing, naming `result` first. */
  lemma ReformFieldsFailure(f: Fields)
    ensures ReformFields(f).Failure? <==> RESULT !in Keys(f) || DESCRIPTION !in Keys(f)
    ensures ReformFields(f).Failure? ==>
              ReformFields(f).error == KeyError(if RESULT !in Keys(f) then RESULT else DESCRIPTION)
  {
    GetPresent(f, RESULT);
    GetPresent(f, DESCRIPTION);
    DeleteGet(f, RESULT, DESCRIPTION);
  }

  /** Other keys keep their order, `analysis` is added (unless it was already there) and `result` becomes the last key. */
  lemma ReformFieldsKeys(f: Fields)
    requires ReformFields(f).Success?
    ensures Keys(ReformFields(f).value)
            == Without(Without(Keys(f), RESULT), DESCRIPTION)
               + (if ANALYSIS in Keys(f) then [] else [ANALYSIS]) + [RESULT]
  {
    var res := Get(f, RESULT).value;
    var f1 := Delete(f, RESULT);
    var desc := Get(f1, DESCRIPTION).value;
    var f2 := Set(f1, ANALYSIS, desc);
    var f3 := Set(f2, RESULT, res);
    assert ReformFields(f).value == Delete(f3, DESCRIPTION);
    var opt: seq<string> := if ANALYSIS in Keys(f) then [] else [ANALYSIS];
    DeleteKeys(f, RESULT);
    WithoutKeeps(Keys(f), RESULT, ANALYSIS);
    SetKeys(f1, ANALYSIS, desc);
    assert Keys(f2) == Keys(f1) + opt;
    SetKeys(f2, RESULT, res);
    DeleteKeys(f3, DESCRIPTION);
    WithoutConcat(Keys(f2), [RESULT], DESCRIPTION);
    WithoutConcat(Keys(f1), opt, DESCRIPTION);
    assert Without([RESULT], DESCRIPTION) == [RESULT];
    assert Without(opt, DESCRIPTION) == opt;
  }

  /** `analysis` holds the old `description`, `result` keeps its value, `description` is gone, every other key keeps its value. */
  lemma ReformFieldsValues(f: Fields, k: string)
    requires ReformFields(f).Success?
    ensures Get(ReformFields(f).value, k)
            == if k == ANALYSIS then Get(f, DESCRIPTION)
               else if k == DESCRIPTION then None
               else Get(f, k)
  {
    var res := Get(f, RESULT).value;
    var f1 := Delete(f, RESULT);
    var desc := Get(f1, DESCRIPTION).value;
    var f2 := Set(f1, ANALYSIS, desc);
    var f3 := Set(f2, RESULT, res);
    assert ReformFields(f).value == Delete(f3, DESCRIPTION);
    DeleteGet(f, RESULT, DESCRIPTION);
    DeleteGet(f, RESULT, k);
    SetGet(f1, ANALYSIS, desc, k);
    SetGet(f2, RESULT, res, k);
    DeleteGet(f3, DESCRIPTION, k);
  }

  /** A dict with one entry per key still has one entry per key afterwards. */
  lemma ReformFieldsUnique(f: Fields)
    requires ReformFields(f).Success? && UniqueKeys(f)
    ensures UniqueKeys(ReformFields(f).value)
  {
    var res := Get(f, RESULT).value;
    var f1 := Delete(f, RESULT);
    var desc := Get(f1, DESCRIPTION).value;
    var f2 := Set(f1, ANALYSIS, desc);
    var f3 := Set(f2, RESULT, res);
    assert ReformFields(f).value == Delete(f3, DESCRIPTION);
    DeleteUnique(f, RESULT);
    SetUnique(f1, ANALYSIS, desc);
    SetUnique(f2, RESULT, res);
    DeleteUnique(f3, DESCRIPTION);
  }

  /** One iteration of `for d in _data`: a dict is reformed, anything else cannot be subscripted by a string. */
  function ReformElement(j: Json): (r: Result<Json, PyError>)
  {
    match j
    case JObj(f) =>
      (match ReformFields(f)
       case Success(g) => Success(JObj(g))
       case Failure(e) => Failure(e))
    case _ => Failure(TypeError)
  }

  /** The loop over a list, in order; the first element that raises ends it. */
  function ReformList(elems: seq<Json>): (r: Result<seq<Json>, PyError>)
    ensures r.Success? ==> |r.value| == |elems|
  {
    WalkInOrder(ReformElement, elems)
  }

  /**
   * `for d in _data: ...` then `return _data`. A list is walked element by
   * element; iterating a dict or a string yields its keys or characters,
   * which cannot be subscripted by a string, so only an empty one comes back
   * unchanged; a number, bool or null is not iterable.
   */
  function ReformLoop(data: Json): (r: Result<Json, PyError>)
    ensures r.Success? ==> (data.JArr? <==> r.value.JArr?)
    ensures r.Success? && !data.JArr? ==> r.value == data
  {
    match data
    case JArr(elems) =>
      (match ReformList(elems)
       case Success(out) => Success(JArr(out))
       case Failure(e) => Failure(e))
    case JObj(fields) => if fields == [] then Success(data) else Failure(TypeError)
    case JStr(s) => if s == "" then Success(data) else Failure(TypeError)
    case _ => Failure(TypeError)
  }

  /** The whole of data_reform on what json.loads made of the text: `None` exactly on a decode error. */
  function Reformed(p: ParseOutcome, llm: bool): (r: Result<Option<Json>, PyError>)
    ensures r == Success(None) <==> p.DecodeError?
  {
    match p
    case DecodeError => Success(None)
    case Parsed(v) =>
      var data := if llm then Subscript(v, RESULT) else Success(v);
      match data
      case Failure(e) => Failure(e)
      case Success(d) =>
        match ReformLoop(d)
        case Success(out) => Success(Some(out))
        case Failure(e) => Failure(e)
  }

  /**
   * The loop body on the judgment dict `d`, in place: `res = d['result']`,
   * `del d['result']`, `d['analysis'] = d['description']`, `d['result'] = res`,
   * `del d['description']`. On a missing key the KeyError is returned.
   */
  method ReformJudgment(d: Dict) returns (err: Option<PyError>)
    requires d.Valid()
    modifies d
    ensures d.Valid()
    ensures err.None? <==> ReformFields(old(d.items)).Success?
    ensures err.Some? ==> ReformFields(old(d.items)) == Failure(err.value)
    ensures err.None? ==> d.items == ReformFields(old(d.items)).value
  {
    var res := d.Get(RESULT);
    if res.Failure? {
      return Some(res.error);
    }
    var found := d.Delete(RESULT);
    assert found;  // `del d['result']` cannot raise: the key was just read
    var desc := d.Get(DESCRIPTION);
    if desc.Failure? {
      return Some(desc.error);
    }
    OrderedMap.SetKeys(d.items, ANALYSIS, desc.value);
    d.Set(ANALYSIS, desc.value);
    OrderedMap.SetKeys(d.items, RESULT, res.value);
    d.Set(RESULT, res.value);
    found := d.Delete(DESCRIPTION);
    assert found;  // `del d['description']` cannot raise: assignments never remove a key
    return None;
  }

  /** One pass of `for d in _data`: the element is a dict object (json.loads made it) that is edited in place. */
  method ReformItem(j: Json) returns (r: Result<Json, PyError>)
    requires KeysUniqueAtTop(j)
    ensures r == ReformElement(j)
  {
    match j {
      case JObj(fields) =>
        var d := new Dict(fields);
        var err := ReformJudgment(d);
        if err.Some? {
          return Failure(err.value);
        }
        return Success(JObj(d.items));
      case _ =>
        return Failure(TypeError);
    }
  }

  /**
   * `for d in _data: ...` on a list: its elements are visited in order and
   * each judgment dict is edited in place; the first element that raises
   * ends the walk.
   */
  method ReformEach(list: array<Json>) returns (err: Option<PyError>)
    requires forall i :: 0 <= i < list.Length ==> KeysUniqueAtTop(list[i])
    modifies list
    ensures err.None? ==> ReformList(old(list[..])) == Success(list[..])
    ensures err.Some? ==> ReformList(old(list[..])) == Failure(err.value)
  {
    ghost var elems := list[..];
    for i := 0 to list.Length
      invariant forall j :: i <= j < list.Length ==> list[j] == elems[j]
      invariant forall j :: 0 <= j < i ==> ReformElement(elems[j]) == Success(list[j])
    {
      var item := ReformItem(list[i]);
      if item.Failure? {
        WalkFirstFailure(ReformElement, elems, i, item.error);
        return Some(item.error);
      }
      list[i] := item.value;
    }
    WalkAll(ReformElement, elems, list[..]);
    return None;
  }

  /** `for d in _data: ...` then `return _data`, on whatever value is to be reformed. */
  method ReformInPlace(data: Json) returns (r: Result<Json, PyError>)
    requires WellFormed(data)
    ensures r == ReformLoop(data)
  {
    match data {
      case JArr(elems) =>
        var list := new Json[|elems|](i requires 0 <= i < |elems| => elems[i]);
        assert list[..] == elems;
        assert forall i :: 0 <= i < list.Length ==> WellFormed(list[i]);
        var err := ReformEach(list);
        if err.Some? {
          return Failure(err.value);
        }
        return Success(JArr(list[..]));
      case JObj(fields) =>
        if fields != [] {
          return Failure(TypeError);
        }
        return Success(data);
      case JStr(s) =>
        if s != "" {
          return Failure(TypeError);
        }
        return Success(data);
      case _ =>
        return Failure(TypeError);
    }
  }

  /** data_reform: the decode error becomes `None`; with `llm` the list is first taken from the `"result"` envelope. */
  method DataReform(parsed: ParseOutcome, llm: bool) returns (r: Result<Option<Json>, PyError>)
    ensures r == Reformed(parsed, llm)
  {
    if parsed.DecodeError? {
      return Success(None);
    }
    var data: Json := parsed.value;
    if llm {
      var inner := Subscript(data, RESULT);
      if inner.Failure? {
        return Failure(inner.error);
      }
      GetWellFormed(data.fields, RESULT);
      data := inner.value;
    }
    var out := ReformInPlace(data);
    match out {
      case Success(v) => return Success(Some(v));
      case Failure(e) => return Failure(e);
    }
  }
}
