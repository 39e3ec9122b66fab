/**
 * What the two conversions promise: which rows give an entry, in which order,
 * what each entry holds, and when a conversion raises instead.
 */
module ConvertProperties {
  import opened Wrappers
  import opened JsonValues
  import opened Walk
  import opened Prompt
  import opened Reform
  import opened ReformProperties
  import opened Convert

  // ---- convert_to_alpaca_format ----

  /** A row makes the Alpaca loop raise: its outline cell is empty, or its judgment is kept and `data_reform` raises on it. */
  predicate AlpacaRowRaises(loads: string -> ParseOutcome, row: Row) {
    row.outline.Missing? || (AlpacaKeeps(row) && Reformed(loads(CellText(row.human)), false).Failure?)
  }

  /** The loop body on one row raises exactly as `AlpacaRowRaises` says, and otherwise skips the "nan" rows. */
  lemma AlpacaStepCases(loads: string -> ParseOutcome, instruction: string, row: Row)
    ensures AlpacaStep(loads, instruction, row).Failure? <==> AlpacaRowRaises(loads, row)
    ensures row.outline.Missing? ==> AlpacaStep(loads, instruction, row) == Failure(TypeError)
    ensures AlpacaStep(loads, instruction, row).Success? ==> (AlpacaStep(loads, instruction, row).value.Some? <==> AlpacaKeeps(row))
  {
  }

  /** An entry the loop body appends holds the instruction, the wrapped outline, the reformed record and an empty system prompt. */
  lemma AlpacaEntryContents(loads: string -> ParseOutcome, instruction: string, row: Row, e: AlpacaEntry)
    requires AlpacaStep(loads, instruction, row) == Success(Some(e))
    ensures row.outline.Value? && AlpacaKeeps(row)
    ensures e.instruction == instruction && e.system == ""
    ensures e.input == OUTLINE_OPEN + row.outline.text + OUTLINE_CLOSE
    ensures Reformed(loads(CellText(row.human)), false) == Success(e.output)
  {
  }

  /**
   * `convert_to_alpaca_format` raises exactly when some row raises, and then
   * with the error of the first such row (the rows before it converted).
   */
  lemma {:induction false} AlpacaRaises(loads: string -> ParseOutcome, instruction: string, rows: seq<Row>)
    ensures Alpaca(loads, instruction, rows).Failure? <==> exists i :: 0 <= i < |rows| && AlpacaRowRaises(loads, rows[i])
    ensures Alpaca(loads, instruction, rows).Failure? ==>
              exists i :: 0 <= i < |rows| && AlpacaStep(loads, instruction, rows[i]) == Failure(Alpaca(loads, instruction, rows).error) &&
                          forall j :: 0 <= j < i ==> !AlpacaRowRaises(loads, rows[j])
  {
    var step := AlpacaStepOf(loads, instruction);
    forall row ensures step(row) == AlpacaStep(loads, instruction, row) && (step(row).Failure? <==> AlpacaRowRaises(loads, row)) {
      AlpacaStepCases(loads, instruction, row);
    }
    WalkFailure(step, rows);
  }

  /**
   * A conversion that does not raise has one entry per row whose judgment is
   * not "nan", in row order, and entry `k` is built from the `k`-th such row:
   * the shared instruction, the wrapped outline, the reformed record (None
   * when the text did not parse) and an empty system prompt.
   */
  lemma {:induction false} AlpacaEntries(loads: string -> ParseOutcome, instruction: string, rows: seq<Row>)
    requires Alpaca(loads, instruction, rows).Success?
    ensures var entries, kept := Alpaca(loads, instruction, rows).value, Filter(AlpacaKeeps, rows);
            && |entries| == |kept|
            && forall k :: 0 <= k < |kept| ==>
                 && kept[k].outline.Value?
                 && entries[k].instruction == instruction && entries[k].system == ""
                 && entries[k].input == OUTLINE_OPEN + kept[k].outline.text + OUTLINE_CLOSE
                 && Reformed(loads(CellText(kept[k].human)), false) == Success(entries[k].output)
  {
    var step := AlpacaStepOf(loads, instruction);
    var outs := WalkInOrder(step, rows).value;
    var g := (row: Row) => match AlpacaStep(loads, instruction, row) case Success(o) => o case Failure(_) => None;
    forall i | 0 <= i < |rows| ensures outs[i] == g(rows[i]) && (AlpacaKeeps(rows[i]) <==> g(rows[i]).Some?) {
      WalkSuccess(step, rows, i);
      AlpacaStepCases(loads, instruction, rows[i]);
    }
    SomesFilter(g, AlpacaKeeps, rows, outs);
    var entries, kept := Alpaca(loads, instruction, rows).value, Filter(AlpacaKeeps, rows);
    forall k | 0 <= k < |kept|
      ensures kept[k].outline.Value?
      ensures entries[k].instruction == instruction && entries[k].system == ""
      ensures entries[k].input == OUTLINE_OPEN + kept[k].outline.text + OUTLINE_CLOSE
      ensures Reformed(loads(CellText(kept[k].human)), false) == Success(entries[k].output)
    {
      assert g(kept[k]) == Some(entries[k]);
      AlpacaEntryContents(loads, instruction, kept[k], entries[k]);
    }
  }

  /** A row whose judgment text does not parse still gives an entry, with output None. */
  lemma UnparsableRowKept(loads: string -> ParseOutcome, instruction: string, row: Row)
    requires row.outline.Value? && AlpacaKeeps(row) && loads(CellText(row.human)) == DecodeError
    ensures AlpacaStep(loads, instruction, row)
            == Success(Some(AlpacaEntry(instruction, OUTLINE_OPEN + row.outline.text + OUTLINE_CLOSE, None, "")))
  {
  }

  // ---- convert_to_dpo_format ----

  /** A row makes the DPO loop raise: its outline cell is empty, or it is kept and one of its two records raises. */
  predicate DpoRowRaises(loads: string -> ParseOutcome, row: Row) {
    || row.outline.Missing?
    || (DpoKeeps(row) && (Reformed(loads(CellText(row.human)), false).Failure?
                          || Reformed(loads(CellText(row.llm)), true).Failure?))
  }

  /** The DPO loop body raises exactly as `DpoRowRaises` says, the human record first, and skips a row when either judgment is "nan". */
  lemma DpoStepCases(loads: string -> ParseOutcome, instruction: string, row: Row)
    ensures DpoStep(loads, instruction, row).Failure? <==> DpoRowRaises(loads, row)
    ensures row.outline.Missing? ==> DpoStep(loads, instruction, row) == Failure(TypeError)
    ensures row.outline.Value? && DpoKeeps(row) && Reformed(loads(CellText(row.human)), false).Failure? ==>
              DpoStep(loads, instruction, row) == Failure(Reformed(loads(CellText(row.human)), false).error)
    ensures DpoStep(loads, instruction, row).Success? ==> (DpoStep(loads, instruction, row).value.Some? <==> DpoKeeps(row))
  {
  }

  /** An entry the DPO loop body appends holds both reformed records, `chosen` from the human cell and `rejected` from the model cell. */
  lemma DpoEntryContents(loads: string -> ParseOutcome, instruction: string, row: Row, e: DpoEntry)
    requires DpoStep(loads, instruction, row) == Success(Some(e))
    ensures row.outline.Value? && DpoKeeps(row)
    ensures e.instruction == instruction && e.system == ""
    ensures e.input == OUTLINE_OPEN + row.outline.text + OUTLINE_CLOSE
    ensures Reformed(loads(CellText(row.human)), false) == Success(e.chosen)
    ensures Reformed(loads(CellText(row.llm)), true) == Success(e.rejected)
  {
  }

  /** `convert_to_dpo_format` raises exactly when some row raises, and then with the error of the first such row. */
  lemma {:induction false} DpoRaises(loads: string -> ParseOutcome, instruction: string, rows: seq<Row>)
    ensures Dpo(loads, instruction, rows).Failure? <==> exists i :: 0 <= i < |rows| && DpoRowRaises(loads, rows[i])
    ensures Dpo(loads, instruction, rows).Failure? ==>
              exists i :: 0 <= i < |rows| && DpoStep(loads, instruction, rows[i]) == Failure(Dpo(loads, instruction, rows).error) &&
                          forall j :: 0 <= j < i ==> !DpoRowRaises(loads, rows[j])
  {
    var step := DpoStepOf(loads, instruction);
    forall row ensures step(row) == DpoStep(loads, instruction, row) && (step(row).Failure? <==> DpoRowRaises(loads, row)) {
      DpoStepCases(loads, instruction, row);
    }
    WalkFailure(step, rows);
  }

  /**
   * A DPO conversion that does not raise has one entry per row where neither
   * judgment is "nan", in row order: `chosen` is the human record reformed,
   * `rejected` the model's record reformed after unwrapping its `result`.
   */
  lemma {:induction false} DpoEntries(loads: string -> ParseOutcome, instruction: string, rows: seq<Row>)
    requires Dpo(loads, instruction, rows).Success?
    ensures var entries, kept := Dpo(loads, instruction, rows).value, Filter(DpoKeeps, rows);
            && |entries| == |kept|
            && forall k :: 0 <= k < |kept| ==>
                 && kept[k].outline.Value?
                 && entries[k].instruction == instruction && entries[k].system == ""
                 && entries[k].input == OUTLINE_OPEN + kept[k].outline.text + OUTLINE_CLOSE
                 && Reformed(loads(CellText(kept[k].human)), false) == Success(entries[k].chosen)
                 && Reformed(loads(CellText(kept[k].llm)), true) == Success(entries[k].rejected)
  {
    var step := DpoStepOf(loads, instruction);
    var outs := WalkInOrder(step, rows).value;
    var g := (row: Row) => match DpoStep(loads, instruction, row) case Success(o) => o case Failure(_) => None;
    forall i | 0 <= i < |rows| ensures outs[i] == g(rows[i]) && (DpoKeeps(rows[i]) <==> g(rows[i]).Some?) {
      WalkSuccess(step, rows, i);
      DpoStepCases(loads, instruction, rows[i]);
    }
    SomesFilter(g, DpoKeeps, rows, outs);
    var entries, kept := Dpo(loads, instruction, rows).value, Filter(DpoKeeps, rows);
    forall k | 0 <= k < |kept|
      ensures kept[k].outline.Value?
      ensures entries[k].instruction == instruction && entries[k].system == ""
      ensures entries[k].input == OUTLINE_OPEN + kept[k].outline.text + OUTLINE_CLOSE
      ensures Reformed(loads(CellText(kept[k].human)), false) == Success(entries[k].chosen)
      ensures Reformed(loads(CellText(kept[k].llm)), true) == Success(entries[k].rejected)
    {
      assert g(kept[k]) == Some(entries[k]);
      DpoEntryContents(loads, instruction, kept[k], entries[k]);
    }
  }

  // ---- whole rows ----

  /** A row with a human record in the `dimension, description, result` layout gives one Alpaca entry holding the canonical record. */
  lemma AlpacaSingleRow(loads: string -> ParseOutcome, instruction: string, outline: string, text: string,
                        other: Cell, js: seq<Judgment>, v: JsonValue)
    requires text != NAN && v == HumanRecord(js) && loads(CellText(Value(text))) == Parsed(v)
    ensures Alpaca(loads, instruction, [Row(Value(outline), Value(text), other)])
            == Success([AlpacaEntry(instruction, OUTLINE_OPEN + outline + OUTLINE_CLOSE, Some(CanonicalRecord(js)), "")])
  {
    HumanRecordNormalized(js, v);
    var row := Row(Value(outline), Value(text), other);
    var e := AlpacaEntry(instruction, OUTLINE_OPEN + outline + OUTLINE_CLOSE, Some(CanonicalRecord(js)), "");
    assert AlpacaStepOf(loads, instruction)(row) == Success(Some(e));
    WalkOne(AlpacaStepOf(loads, instruction), row);
    SomesOne(Some(e));
  }

  /** A row whose judgments read "nan" gives no entry in either format. */
  lemma NanRowSkipped(loads: string -> ParseOutcome, instruction: string, outline: string, other: Cell)
    ensures Alpaca(loads, instruction, [Row(Value(outline), Missing, other)]) == Success([])
    ensures Alpaca(loads, instruction, [Row(Value(outline), Value(NAN), other)]) == Success([])
    ensures Dpo(loads, instruction, [Row(Value(outline), Value(NAN), other)]) == Success([])
    ensures Dpo(loads, instruction, [Row(Value(outline), other, Missing)]) == Success([])
  {
    var r1, r2, r3 := Row(Value(outline), Missing, other), Row(Value(outline), Value(NAN), other), Row(Value(outline), other, Missing);
    WalkOne(AlpacaStepOf(loads, instruction), r1);
    WalkOne(AlpacaStepOf(loads, instruction), r2);
    WalkOne(DpoStepOf(loads, instruction), r2);
    WalkOne(DpoStepOf(loads, instruction), r3);
    SomesOne<AlpacaEntry>(None);
    SomesOne<DpoEntry>(None);
  }

  /**
   * A row with a human record and a wrapped model record gives one DPO entry:
   * `chosen` is the canonical human record and `rejected` the canonical model
   * record found under the outer `result`.
   */
  lemma DpoSingleRow(loads: string -> ParseOutcome, instruction: string, outline: string,
                     human: string, model: string, js1: seq<Judgment>, js2: seq<Judgment>,
                     v1: JsonValue, v2: JsonValue, w2: JsonValue)
    requires human != NAN && v1 == HumanRecord(js1) && loads(CellText(Value(human))) == Parsed(v1)
    requires model != NAN && w2 == HumanRecord(js2) && v2 == JObj([(RESULT, w2)]) && loads(CellText(Value(model))) == Parsed(v2)
    ensures Dpo(loads, instruction, [Row(Value(outline), Value(human), Value(model))])
            == Success([DpoEntry(instruction, OUTLINE_OPEN + outline + OUTLINE_CLOSE,
                                 Some(CanonicalRecord(js1)), Some(CanonicalRecord(js2)), "")])
  {
    HumanRecordNormalized(js1, v1);
    ModelRecordNormalized(js2, v2, w2);
    var row := Row(Value(outline), Value(human), Value(model));
    var e := DpoEntry(instruction, OUTLINE_OPEN + outline + OUTLINE_CLOSE, Some(CanonicalRecord(js1)), Some(CanonicalRecord(js2)), "");
    assert DpoStepOf(loads, instruction)(row) == Success(Some(e));
    WalkOne(DpoStepOf(loads, instruction), row);
    SomesOne(Some(e));
  }

  /** A record of one judgment is the list holding that judgment. */
  lemma CanonicalRecordOne(j: Judgment)
    ensures CanonicalRecord([j]) == JArr([CanonicalJudgment(j)])
  {
    assert CanonicalRecord([j]).elems == [CanonicalJudgment(j)];
  }

  /** The judgment of the example row: dimension 主线, text "ok", outcome 通过. */
  function ExampleJudgment(): (j: Judgment) {
    Judgment("主线", "ok", "通过")
  }

  /** `<q>k<q>: <q>v<q>`: one member of a one-line record, with `q` as the quote. */
  function Member(q: string, k: string, v: string): (r: string) {
    q + k + q + ": " + q + v + q
  }

  /** `[{<q>dimension<q>: <q>d<q>, <q>description<q>: <q>t<q>, <q>result<q>: <q>o<q>}]`. */
  function Record(q: string, d: string, t: string, o: string): (r: string) {
    "[{" + Member(q, DIMENSION, d) + ", " + Member(q, DESCRIPTION, t) + ", " + Member(q, RESULT, o) + "}]"
  }

  /** The quote rewriting turns a single-quoted member into the double-quoted one. */
  lemma MemberQuotes(k: string, v: string)
    requires '\'' !in k && '\'' !in v
    ensures ReplaceQuotes(Member("'", k, v)) == Member("\"", k, v)
  {
    var q := "'";
    assert ReplaceQuotes(q) == "\"";
    QuoteFreeUnchanged(k);
    QuoteFreeUnchanged(v);
    QuoteFreeUnchanged(": ");
    ReplaceQuotesAppend(q, k);
    ReplaceQuotesAppend(q + k, q);
    ReplaceQuotesAppend(q + k + q, ": ");
    ReplaceQuotesAppend(q + k + q + ": ", q);
    ReplaceQuotesAppend(q + k + q + ": " + q, v);
    ReplaceQuotesAppend(q + k + q + ": " + q + v, q);
  }

  /** The quote rewriting turns a single-quoted one-judgment record into JSON text. */
  lemma RecordQuotes(d: string, t: string, o: string)
    requires '\'' !in d && '\'' !in t && '\'' !in o
    ensures ReplaceQuotes(Record("'", d, t, o)) == Record("\"", d, t, o)
  {
    assert '\'' !in DIMENSION && '\'' !in DESCRIPTION && '\'' !in RESULT;
    MemberQuotes(DIMENSION, d);
    MemberQuotes(DESCRIPTION, t);
    MemberQuotes(RESULT, o);
    var m1, m2, m3 := Member("'", DIMENSION, d), Member("'", DESCRIPTION, t), Member("'", RESULT, o);
    QuoteFreeUnchanged("[{");
    QuoteFreeUnchanged(", ");
    QuoteFreeUnchanged("}]");
    ReplaceQuotesAppend("[{", m1);
    ReplaceQuotesAppend("[{" + m1, ", ");
    ReplaceQuotesAppend("[{" + m1 + ", ", m2);
    ReplaceQuotesAppend("[{" + m1 + ", " + m2, ", ");
    ReplaceQuotesAppend("[{" + m1 + ", " + m2 + ", ", m3);
    ReplaceQuotesAppend("[{" + m1 + ", " + m2 + ", " + m3, "}]");
  }

  /** The example row's judgment cell: `[{'dimension': '主线', 'description': 'ok', 'result': '通过'}]`. */
  const EXAMPLE_CELL := Record("'", "主线", "ok", "通过")

  /** The text handed to `json.loads` for that cell: `[{"dimension": "主线", "description": "ok", "result": "通过"}]`. */
  const EXAMPLE_JSON := Record("\"", "主线", "ok", "通过")

  /** The quote rewriting turns the example cell into that JSON text. */
  lemma ExampleCellText()
    ensures CellText(Value(EXAMPLE_CELL)) == EXAMPLE_JSON
  {
    assert '\'' !in "主线" && '\'' !in "ok" && '\'' !in "通过";
    RecordQuotes("主线", "ok", "通过");
  }

  /**
   * An example row: the outline 少年重生复仇 with the single-quoted record
   * `[{'dimension': '主线', 'description': 'ok', 'result': '通过'}]`, which
   * `json.loads` reads (after the quote rewriting) as one human judgment,
   * gives one entry whose output is the record with `description` renamed to
   * `analysis` and `result` last.
   */
  lemma ExampleRow(loads: string -> ParseOutcome, instruction: string, v: JsonValue)
    requires v == HumanRecord([ExampleJudgment()])
    requires loads(EXAMPLE_JSON) == Parsed(v)
    ensures Alpaca(loads, instruction, [Row(Value("少年重生复仇"), Value(EXAMPLE_CELL), Missing)])
            == Success([AlpacaEntry(instruction, OUTLINE_OPEN + "少年重生复仇" + OUTLINE_CLOSE,
                                    Some(JArr([JObj([(DIMENSION, JStr("主线")), (ANALYSIS, JStr("ok")), (RESULT, JStr("通过"))])])), "")])
  {
    ExampleCellText();
    assert |EXAMPLE_CELL| != |NAN|;
    AlpacaSingleRow(loads, instruction, "少年重生复仇", EXAMPLE_CELL, Missing, [ExampleJudgment()], v);
    CanonicalRecordOne(ExampleJudgment());
    assert CanonicalJudgment(ExampleJudgment()) == JObj([(DIMENSION, JStr("主线")), (ANALYSIS, JStr("ok")), (RESULT, JStr("通过"))]);
  }
}
