/**
 * `convert_to_alpaca_format` and `convert_to_dpo_format`: a loop over the
 * spreadsheet rows, in order, that appends one training entry per row whose
 * judgment text is present and skips the others with `continue`.
 *
 * A row's cells are what pandas gives: a text, or an empty cell (a float NaN),
 * whose `str` is "nan". Adding an empty outline cell to a string raises
 * TypeError, and any error raised while a row is converted ends the whole
 * conversion. `json.loads` is the parameter `loads`.
 */
module Convert {
  import opened Wrappers
  import opened JsonValues
  import opened Walk
  import opened Prompt
  import Reform

  /** One spreadsheet cell: a text, or an empty cell (NaN). */
  datatype Cell = Value(text: string) | Missing

  /** The three columns the conversions read. */
  datatype Row = Row(outline: Cell, human: Cell, llm: Cell)

  /** `{"instruction": …, "input": …, "output": …, "system": ""}`; `output` is None when the text did not parse. */
  datatype AlpacaEntry = AlpacaEntry(instruction: string, input: string, output: Option<Json>, system: string)

  /** `{"instruction": …, "input": …, "chosen": …, "rejected": …, "system": ""}`. */
  datatype DpoEntry = DpoEntry(instruction: string, input: string, chosen: Option<Json>, rejected: Option<Json>, system: string)

  const OUTLINE_OPEN := "<短剧大纲>"
  const OUTLINE_CLOSE := "</短剧大纲>"

  /** What `str` gives for an empty cell. */
  const NAN := "nan"

  /** `str(cell)`. */
  function Str(c: Cell): (r: string) {
    match c
    case Value(t) => t
    case Missing => NAN
  }

  /** `str(cell).replace("'", '"')`: the judgment text as it is handed to `data_reform`. */
  function CellText(c: Cell): (r: string)
    ensures '\'' !in r
    ensures r == NAN <==> Str(c) == NAN
  {
    NanAfterReplace(Str(c));
    ReplaceQuotes(Str(c))
  }

  /** `'<短剧大纲>' + row['outline'] + '</短剧大纲>'`: TypeError when the outline cell is empty. */
  function Input(outline: Cell): (r: Result<string, PyError>)
    ensures r.Success? <==> outline.Value?
    ensures r.Success? ==> r.value == OUTLINE_OPEN + outline.text + OUTLINE_CLOSE
    ensures r.Failure? ==> r.error == TypeError
  {
    match outline
    case Value(t) => Success(OUTLINE_OPEN + t + OUTLINE_CLOSE)
    case Missing => Failure(TypeError)
  }

  /** Whether the Alpaca conversion keeps a row: its human judgment is not "nan". */
  predicate AlpacaKeeps(row: Row) {
    Str(row.human) != NAN
  }

  /** Whether the DPO conversion keeps a row: neither judgment is "nan". */
  predicate DpoKeeps(row: Row) {
    Str(row.human) != NAN && Str(row.llm) != NAN
  }

  // ---- convert_to_alpaca_format ----

  /** One pass of the Alpaca loop: the entry for the row, None for a skipped row, or the error it raises. */
  function AlpacaStep(loads: string -> ParseOutcome, instruction: string, row: Row): (r: Result<Option<AlpacaEntry>, PyError>) {
    match Input(row.outline)
    case Failure(e) => Failure(e)
    case Success(input) =>
      var raw := CellText(row.human);
      if raw == NAN then Success(None)
      else
        match Reform.Reformed(loads(raw), false)
        case Failure(e) => Failure(e)
        case Success(output) => Success(Some(AlpacaEntry(instruction, input, output, "")))
  }

  function AlpacaStepOf(loads: string -> ParseOutcome, instruction: string): (step: Row -> Result<Option<AlpacaEntry>, PyError>) {
    row => AlpacaStep(loads, instruction, row)
  }

  /** The list `convert_to_alpaca_format` returns, or the error it raises. */
  function Alpaca(loads: string -> ParseOutcome, instruction: string, rows: seq<Row>): (r: Result<seq<AlpacaEntry>, PyError>) {
    match WalkInOrder(AlpacaStepOf(loads, instruction), rows)
    case Failure(e) => Failure(e)
    case Success(outs) => Success(Somes(outs))
  }

  /**
   * The body of the Alpaca loop for one row: the entry to append, None for
   * `continue`, or the error raised. It follows `AlpacaStep` step by step but
   * runs the in-place `Reform.DataReform` where the specification uses
   * `Reform.Reformed`.
   */
  method AlpacaRow(row: Row, loads: string -> ParseOutcome, instruction: string) returns (r: Result<Option<AlpacaEntry>, PyError>)
    ensures r == AlpacaStep(loads, instruction, row)
  {
    if row.outline.Missing? {
      return Failure(TypeError);
    }
    var input := OUTLINE_OPEN + row.outline.text + OUTLINE_CLOSE;
    var raw := ReplaceQuotes(Str(row.human));
    if raw == NAN {
      return Success(None);
    }
    var output := Reform.DataReform(loads(raw), false);
    if output.Failure? {
      return Failure(output.error);
    }
    return Success(Some(AlpacaEntry(instruction, input, output.value, "")));
  }

  /** The row loop of `convert_to_alpaca_format`: entries are appended in row order, an error ends the loop. */
  method AlpacaRows(rows: seq<Row>, loads: string -> ParseOutcome, instruction: string) returns (r: Result<seq<AlpacaEntry>, PyError>)
    ensures r == Alpaca(loads, instruction, rows)
  {
    var alpaca: seq<AlpacaEntry> := [];
    ghost var outs: seq<Option<AlpacaEntry>> := [];
    for i := 0 to |rows|
      invariant WalkInOrder(AlpacaStepOf(loads, instruction), rows[..i]) == Success(outs)
      invariant alpaca == Somes(outs)
    {
      var out := AlpacaRow(rows[i], loads, instruction);
      if out.Failure? {
        assert rows[..i + 1][..i] == rows[..i];
        WalkPrefixFailure(AlpacaStepOf(loads, instruction), rows, i + 1);
        return Failure(out.error);
      }
      WalkExtend(AlpacaStepOf(loads, instruction), rows, i, outs);
      if out.value.Some? {
        alpaca := alpaca + [out.value.value];
      }
      outs := outs + [out.value];
    }
    assert rows[..|rows|] == rows;
    return Success(alpaca);
  }

  /**
   * `convert_to_alpaca_format(df)`. The instruction (the fixed prefix followed
   * by the standard) does not depend on the row, so it is built once here and
   * handed to the row loop.
   */
  method ConvertToAlpaca(rows: seq<Row>, loads: string -> ParseOutcome) returns (r: Result<seq<AlpacaEntry>, PyError>)
    ensures r == Alpaca(loads, INSTRUCTION, rows)
  {
    var instruction := INSTRUCTION_PREFIX;
    instruction := instruction + STANDARD;
    r := AlpacaRows(rows, loads, instruction);
  }

  // ---- convert_to_dpo_format ----

  /** One pass of the DPO loop: the human record is reformed first, then the model's wrapped record. */
  function DpoStep(loads: string -> ParseOutcome, instruction: string, row: Row): (r: Result<Option<DpoEntry>, PyError>) {
    match Input(row.outline)
    case Failure(e) => Failure(e)
    case Success(input) =>
      var human, model := CellText(row.human), CellText(row.llm);
      if human == NAN || model == NAN then Success(None)
      else
        match Reform.Reformed(loads(human), false)
        case Failure(e) => Failure(e)
        case Success(chosen) =>
          match Reform.Reformed(loads(model), true)
          case Failure(e) => Failure(e)
          case Success(rejected) => Success(Some(DpoEntry(instruction, input, chosen, rejected, "")))
  }

  function DpoStepOf(loads: string -> ParseOutcome, instruction: string): (step: Row -> Result<Option<DpoEntry>, PyError>) {
    row => DpoStep(loads, instruction, row)
  }

  /** The list `convert_to_dpo_format` returns, or the error it raises. */
  function Dpo(loads: string -> ParseOutcome, instruction: string, rows: seq<Row>): (r: Result<seq<DpoEntry>, PyError>) {
    match WalkInOrder(DpoStepOf(loads, instruction), rows)
    case Failure(e) => Failure(e)
    case Success(outs) => Success(Somes(outs))
  }

  /**
   * The body of the DPO loop for one row. It follows `DpoStep` but runs the
   * in-place `Reform.DataReform` where the specification uses `Reform.Reformed`.
   */
  method DpoRow(row: Row, loads: string -> ParseOutcome, instruction: string) returns (r: Result<Option<DpoEntry>, PyError>)
    ensures r == DpoStep(loads, instruction, row)
  {
    if row.outline.Missing? {
      return Failure(TypeError);
    }
    var input := OUTLINE_OPEN + row.outline.text + OUTLINE_CLOSE;
    var human := ReplaceQuotes(Str(row.human));
    var model := ReplaceQuotes(Str(row.llm));
    if human == NAN || model == NAN {
      return Success(None);
    }
    var chosen := Reform.DataReform(loads(human), false);
    if chosen.Failure? {
      return Failure(chosen.error);
    }
    var rejected := Reform.DataReform(loads(model), true);
    if rejected.Failure? {
      return Failure(rejected.error);
    }
    return Success(Some(DpoEntry(instruction, input, chosen.value, rejected.value, "")));
  }

  /** The row loop of `convert_to_dpo_format`: entries are appended in row order, an error ends the loop. */
  method DpoRows(rows: seq<Row>, loads: string -> ParseOutcome, instruction: string) returns (r: Result<seq<DpoEntry>, PyError>)
    ensures r == Dpo(loads, instruction, rows)
  {
    var dpo: seq<DpoEntry> := [];
    ghost var outs: seq<Option<DpoEntry>> := [];
    for i := 0 to |rows|
      invariant WalkInOrder(DpoStepOf(loads, instruction), rows[..i]) == Success(outs)
      invariant dpo == Somes(outs)
    {
      var out := DpoRow(rows[i], loads, instruction);
      if out.Failure? {
        assert rows[..i + 1][..i] == rows[..i];
        WalkPrefixFailure(DpoStepOf(loads, instruction), rows, i + 1);
        return Failure(out.error);
      }
      WalkExtend(DpoStepOf(loads, instruction), rows, i, outs);
      if out.value.Some? {
        dpo := dpo + [out.value.value];
      }
      outs := outs + [out.value];
    }
    assert rows[..|rows|] == rows;
    return Success(dpo);
  }

  /** `convert_to_dpo_format(df)`, with the instruction built once as in `ConvertToAlpaca`. */
  method ConvertToDpo(rows: seq<Row>, loads: string -> ParseOutcome) returns (r: Result<seq<DpoEntry>, PyError>)
    ensures r == Dpo(loads, INSTRUCTION, rows)
  {
    var instruction := INSTRUCTION_PREFIX;
    instruction := instruction + STANDARD;
    r := DpoRows(rows, loads, instruction);
  }
}
