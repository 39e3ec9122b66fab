/**
 * What data_reform promises about a whole evaluation record: the human
 * shape and the model-generated (wrapped) shape normalise to the same
 * judgments, element count and order are kept, a broken judgment raises
 * rather than yielding `None`, and normalising again is stable.
 */
module ReformProperties {
  import opened Wrappers
  import opened JsonValues
  import opened OrderedMap
  import opened Walk
  import opened Reform

  /** One judgment: its dimension label, its rationale and its pass/fail outcome. */
  datatype Judgment = Judgment(dimension: string, text: string, outcome: string)

  /** `{"dimension": …, "description": …, "result": …}`, as a human reviewer writes it. */
  function HumanJudgment(j: Judgment): (r: Json) {
    JObj([(DIMENSION, JStr(j.dimension)), (DESCRIPTION, JStr(j.text)), (RESULT, JStr(j.outcome))])
  }

  /** `{"dimension": …, "analysis": …, "result": …}`, the canonical shape. */
  function CanonicalJudgment(j: Judgment): (r: Json) {
    JObj([(DIMENSION, JStr(j.dimension)), (ANALYSIS, JStr(j.text)), (RESULT, JStr(j.outcome))])
  }

  function HumanRecord(js: seq<Judgment>): (r: Json) {
    JArr(seq(|js|, i requires 0 <= i < |js| => HumanJudgment(js[i])))
  }

  function CanonicalRecord(js: seq<Judgment>): (r: Json) {
    JArr(seq(|js|, i requires 0 <= i < |js| => CanonicalJudgment(js[i])))
  }

  lemma KeyNamesDistinct()
    ensures DIMENSION != DESCRIPTION && DIMENSION != RESULT && DIMENSION != ANALYSIS
    ensures DESCRIPTION != RESULT && DESCRIPTION != ANALYSIS && ANALYSIS != RESULT
  {
    assert |DIMENSION| == 9 && |DESCRIPTION| == 11 && |RESULT| == 6 && |ANALYSIS| == 8;
  }

  /** A judgment with keys `dimension, description, result` becomes `dimension, analysis, result` with the same three values. */
  lemma JudgmentRenamed(j: Judgment)
    ensures ReformElement(HumanJudgment(j)) == Success(CanonicalJudgment(j))
  {
    KeyNamesDistinct();
    var e0, e1, e2 := (DIMENSION, JStr(j.dimension)), (DESCRIPTION, JStr(j.text)), (RESULT, JStr(j.outcome));
    var f := HumanJudgment(j).fields;
    assert f[1..] == [e1, e2] && f[2..] == [e2] && [e1, e2][1..] == [e2];
    assert Get([e2], RESULT) == Some(e2.1);
    assert Get([e1, e2], RESULT) == Some(e2.1);
    assert Get(f, RESULT) == Some(e2.1);
    var f1 := Delete(f, RESULT);
    assert Delete([e2], RESULT) == [];
    assert Delete([e1, e2], RESULT) == [e1];
    assert f1 == [e0, e1];
    assert [e0, e1][1..] == [e1];
    assert Get(f1, DESCRIPTION) == Some(e1.1);
    var ea := (ANALYSIS, JStr(j.text));
    var f2 := Set(f1, ANALYSIS, ea.1);
    assert Set([e1], ANALYSIS, ea.1) == [e1, ea];
    assert f2 == [e0, e1, ea];
    var f3 := Set(f2, RESULT, e2.1);
    assert f2[1..] == [e1, ea] && [e1, ea][1..] == [ea];
    assert Set([ea], RESULT, e2.1) == [ea, e2];
    assert Set([e1, ea], RESULT, e2.1) == [e1, ea, e2];
    assert f3 == [e0, e1, ea, e2];
    var f4 := Delete(f3, DESCRIPTION);
    assert f3[1..] == [e1, ea, e2] && [e1, ea, e2][1..] == [ea, e2] && [ea, e2][1..] == [e2];
    assert Delete([e2], DESCRIPTION) == [e2];
    assert Delete([ea, e2], DESCRIPTION) == [ea, e2];
    assert Delete([e1, ea, e2], DESCRIPTION) == [ea, e2];
    assert f4 == [e0, ea, e2];
  }

  /** A human-shaped record normalises, judgment by judgment and in order, to the canonical record. */
  lemma HumanRecordNormalized(js: seq<Judgment>, v: JsonValue)
    requires v == HumanRecord(js)
    ensures Reformed(Parsed(v), false) == Success(Some(CanonicalRecord(js)))
  {
    var elems := v.elems;
    var out := CanonicalRecord(js).elems;
    forall i | 0 <= i < |elems| ensures ReformElement(elems[i]) == Success(out[i]) {
      JudgmentRenamed(js[i]);
    }
    WalkAll(ReformElement, elems, out);
  }

  /** With `llm`, the record is what the value under the outer `"result"` key gives without it. */
  lemma WrappedIsInnerReformed(v: JsonValue, w: JsonValue)
    requires Subscript(v, RESULT) == Success(w)
    ensures Reformed(Parsed(v), true) == Reformed(Parsed(w), false)
  {
  }

  /** With `llm`, a value without a `"result"` member raises instead of returning `None`. */
  lemma MissingEnvelopeRaises(v: JsonValue)
    requires !(v.JObj? && RESULT in Keys(v.fields))
    ensures Reformed(Parsed(v), true) == Failure(if v.JObj? then KeyError(RESULT) else TypeError)
  {
  }

  /** A model-generated record `{"result": [...]}` normalises to the same canonical record as its human-shaped list. */
  lemma ModelRecordNormalized(js: seq<Judgment>, v: JsonValue, w: JsonValue)
    requires w == HumanRecord(js)
    requires v == JObj([(RESULT, w)])
    ensures Reformed(Parsed(v), true) == Success(Some(CanonicalRecord(js)))
  {
    assert Subscript(v, RESULT) == Success(w);
    WrappedIsInnerReformed(v, w);
    HumanRecordNormalized(js, w);
  }

  /** The value a judgment needs: a dict holding both `result` and `description`. */
  predicate IsJudgment(j: Json) {
    j.JObj? && RESULT in Keys(j.fields) && DESCRIPTION in Keys(j.fields)
  }

  /** A list record raises exactly when one of its elements is not a judgment; it never yields `None`. */
  lemma RaisesIffBrokenJudgment(v: JsonValue)
    requires v.JArr?
    ensures Reformed(Parsed(v), false).Failure? <==> exists i :: 0 <= i < |v.elems| && !IsJudgment(v.elems[i])
    ensures Reformed(Parsed(v), false) != Success(None)
  {
    forall j | j in v.elems ensures ReformElement(j).Failure? <==> !IsJudgment(j) {
      if j.JObj? {
        ReformFieldsFailure(j.fields);
      }
    }
    WalkFailure(ReformElement, v.elems);
  }

  /** A list record keeps its length and order: judgment `i` of the result is judgment `i` of the input, reformed. */
  lemma ReformedInOrder(v: JsonValue, i: nat)
    requires v.JArr? && i < |v.elems|
    requires Reformed(Parsed(v), false).Success?
    ensures Reformed(Parsed(v), false).value.Some?
    ensures var out := Reformed(Parsed(v), false).value.value;
            && out.JArr? && |out.elems| == |v.elems|
            && v.elems[i].JObj? && out.elems[i].JObj?
            && ReformFields(v.elems[i].fields) == Success(out.elems[i].fields)
  {
    WalkSuccess(ReformElement, v.elems, i);
  }

  /** The keys of a normalised judgment: the other keys (with `analysis`), then `result`. */
  function OtherKeys(f: Fields): (r: seq<string>) {
    Without(Without(Keys(f), RESULT), DESCRIPTION) + (if ANALYSIS in Keys(f) then [] else [ANALYSIS])
  }

  lemma OtherKeysFacts(f: Fields)
    ensures RESULT !in OtherKeys(f) && DESCRIPTION !in OtherKeys(f) && ANALYSIS in OtherKeys(f)
  {
    KeyNamesDistinct();
    WithoutKeeps(Without(Keys(f), RESULT), DESCRIPTION, RESULT);
    if ANALYSIS in Keys(f) {
      WithoutKeeps(Keys(f), RESULT, ANALYSIS);
      WithoutKeeps(Without(Keys(f), RESULT), DESCRIPTION, ANALYSIS);
    }
  }

  /** Removing `result` and then `description` from `p + [result, description]` leaves `p`. */
  lemma StripAppended(p: seq<string>)
    requires RESULT !in p && DESCRIPTION !in p
    ensures Without(Without(p + [RESULT] + [DESCRIPTION], RESULT), DESCRIPTION) == p
  {
    KeyNamesDistinct();
    WithoutConcat(p + [RESULT], [DESCRIPTION], RESULT);
    WithoutConcat(p, [RESULT], RESULT);
    WithoutAbsent(p, RESULT);
    assert Without([DESCRIPTION], RESULT) == [DESCRIPTION];
    assert Without([RESULT], RESULT) == [];
    assert Without(p + [RESULT] + [DESCRIPTION], RESULT) == p + [DESCRIPTION];
    WithoutConcat(p, [DESCRIPTION], DESCRIPTION);
    WithoutAbsent(p, DESCRIPTION);
    assert Without([DESCRIPTION], DESCRIPTION) == [];
  }

  /** A judgment whose keys are `p`, then `result`, then `description`, normalises to the keys `p + [result]`. */
  lemma NormalizeAppended(h: Fields, p: seq<string>)
    requires Keys(h) == p + [RESULT] + [DESCRIPTION]
    requires RESULT !in p && DESCRIPTION !in p && ANALYSIS in p
    ensures ReformFields(h).Success?
    ensures Keys(ReformFields(h).value) == p + [RESULT]
  {
    assert RESULT in Keys(h) && DESCRIPTION in Keys(h) && ANALYSIS in Keys(h) by {
      assert Keys(h) == p + ([RESULT] + [DESCRIPTION]);
    }
    ReformFieldsFailure(h);
    ReformFieldsKeys(h);
    StripAppended(p);
  }

  /** Appending `description` to the keys `p + [result]` and normalising gives the same keys back. */
  lemma RenormalizeKeys(g: Fields, a: Json, p: seq<string>)
    requires Keys(g) == p + [RESULT]
    requires RESULT !in p && DESCRIPTION !in p && ANALYSIS in p
    ensures ReformFields(Set(g, DESCRIPTION, a)).Success?
    ensures Keys(ReformFields(Set(g, DESCRIPTION, a)).value) == Keys(g)
  {
    KeyNamesDistinct();
    SetKeys(g, DESCRIPTION, a);
    NormalizeAppended(Set(g, DESCRIPTION, a), p);
  }

  /** Appending `description` with the text `analysis` holds and normalising gives every key its old value. */
  lemma RenormalizeValue(g: Fields, a: Json, k: string)
    requires Get(g, ANALYSIS) == Some(a) && Get(g, DESCRIPTION) == None && RESULT in Keys(g)
    ensures ReformFields(Set(g, DESCRIPTION, a)).Success?
    ensures Get(ReformFields(Set(g, DESCRIPTION, a)).value, k) == Get(g, k)
  {
    KeyNamesDistinct();
    var g' := Set(g, DESCRIPTION, a);
    GetPresent(g, RESULT);
    GetPresent(g', RESULT);
    GetPresent(g', DESCRIPTION);
    SetGet(g, DESCRIPTION, a, RESULT);
    SetGet(g, DESCRIPTION, a, DESCRIPTION);
    ReformFieldsFailure(g');
    ReformFieldsValues(g', k);
    SetGet(g, DESCRIPTION, a, k);
  }

  /**
   * Normalising is stable: putting `description` back (with the text it had)
   * into a normalised judgment and normalising again gives the same judgment.
   */
  lemma RenormalizeStable(f: Fields, a: Json)
    requires UniqueKeys(f)
    requires Get(f, DESCRIPTION) == Some(a) && RESULT in Keys(f)
    ensures ReformFields(f).Success?
    ensures ReformFields(Set(ReformFields(f).value, DESCRIPTION, a)) == ReformFields(f)
  {
    GetPresent(f, DESCRIPTION);
    ReformFieldsFailure(f);
    var g := ReformFields(f).value;
    ReformFieldsUnique(f);
    ReformFieldsKeys(f);
    OtherKeysFacts(f);
    ReformFieldsValues(f, DESCRIPTION);
    ReformFieldsValues(f, ANALYSIS);
    RenormalizeKeys(g, a, OtherKeys(f));
    var g' := Set(g, DESCRIPTION, a);
    SetUnique(g, DESCRIPTION, a);
    ReformFieldsUnique(g');
    forall k ensures Get(ReformFields(g').value, k) == Get(g, k) {
      RenormalizeValue(g, a, k);
    }
    TableExtensionality(ReformFields(g').value, g);
  }
}
