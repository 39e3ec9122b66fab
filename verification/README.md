# Evaluation-record reshaping and training-set conversion, in Dafny

`process.py` turns spreadsheet rows of short-drama outline evaluations into
instruction-tuning datasets. This project models its logic:

- `data_reform` (the `Reform` module). It takes one evaluation record as
  `json.loads` gives it: a list of judgment dicts, optionally wrapped in an
  outer `{"result": …}` when the record comes from the model. The loop edits
  every dict in place. It deletes `result`, sets `analysis` from
  `description`, puts `result` back at the end and deletes `description`.
  A Python dict is an insertion-ordered table (`OrderedMap`, a sequence of
  key/value pairs with distinct keys). The dict object being edited is the
  class `JsonValues.Dict`. `Get` reads `items`; `Set` and `Delete` change
  `items` in place. All three are proved against the table functions. The parsed
  list is an `array<Json>` that the loop rewrites element by element
  (`Reform.ReformEach`). Each method is proved equal to a specification
  function (`Reform.Reformed` and the functions it uses). The lemmas in
  `ReformProperties` state what the reshaping means.
- The evaluation standard `STANDARD`, stripped of spaces, and the fixed
  instruction prefix (`Prompt`). The single-quote to double-quote rewriting
  applied to every judgment cell is also in `Prompt`.
- `convert_to_alpaca_format` and `convert_to_dpo_format` (`Convert`). Each is
  a loop over the rows that appends an entry or skips the row with
  `continue`. Each loop is proved equal to a specification built from
  `Walk.WalkInOrder`: a left-to-right walk in which the first raised error
  ends everything. `ConvertProperties` states which rows give entries, in
  which order, what the entries hold, and when a conversion raises.

Python exceptions are values: `Result<_, PyError>` with
`PyError = KeyError(key) | TypeError`. Only the JSON decode error is caught
by `data_reform`. It becomes `Success(None)`; every other error propagates
out of the conversion. `json.loads` is a parameter
`loads: string -> ParseOutcome`. A `ParseOutcome` is either `Parsed(v)` or
`DecodeError`; `v` is a JSON value whose objects have distinct keys at every
depth, as `json.loads` builds them. A spreadsheet cell is `Value(text)` or
`Missing`, where `Missing` is pandas' NaN. `str` of a missing cell is
`"nan"`. Concatenating a missing outline cell with a string raises
TypeError.

A record that fails to parse is not reported as an error: `data_reform`
returns None (process.py:60-62) and the row is still emitted with that None
(`ConvertProperties.UnparsableRowKept`).

## Model

| member | source | states |
|---|---|---|
| `OrderedMap.GetPresent` | process.py:54 | `d[k]` finds a value exactly when `k` is one of the dict's keys |
| `OrderedMap.SetGet` | process.py:56-57 | after `d[k] = v`, `d[k]` is `v` and every other key keeps its value |
| `OrderedMap.SetKeys` | process.py:56-57 | assigning to an existing key keeps the key order; a new key is appended at the end |
| `OrderedMap.SetUnique` | process.py:56-57 | assignment keeps the keys distinct |
| `OrderedMap.DeleteGet` | process.py:55 | after `del d[k]`, `k` is absent and every other key keeps its value |
| `OrderedMap.DeleteKeys` | process.py:55 | `del d[k]` removes `k` from the key order and leaves the other keys in order |
| `OrderedMap.DeleteAbsent` | process.py:55 | deleting an absent key changes nothing |
| `OrderedMap.DeleteUnique` | process.py:55 | deletion keeps the keys distinct |
| `OrderedMap.TableExtensionality` | process.py:53-58 | two dicts with the same key order and the same value for every key are equal |
| `JsonValues.Dict.Get` | process.py:54 | `d[k]` returns the stored value exactly when the key is present, else raises KeyError(k) |
| `JsonValues.Dict.Set` | process.py:56-57 | `d[k] = v` updates the dict in place as the table assignment does, keeping keys distinct |
| `JsonValues.Dict.Delete` | process.py:55 | `del d[k]` updates the dict in place; it reports the KeyError case and then leaves the dict unchanged |
| `Reform.Subscript` | process.py:52 | `v['result']` succeeds exactly on a dict holding the key, raises KeyError on another dict and TypeError on a non-dict |
| `Reform.ReformFieldsFailure` | process.py:54-56 | a judgment raises exactly when `result` or `description` is missing, naming `result` first |
| `Reform.ReformFieldsKeys` | process.py:55-58 | the other keys keep their order; `analysis` is added unless present; `description` is gone; `result` is last |
| `Reform.ReformFieldsValues` | process.py:54-58 | `analysis` holds the old `description`, `description` is absent, every other key keeps its value |
| `Reform.ReformFieldsUnique` | process.py:54-58 | the reshaped judgment still has distinct keys |
| `Reform.ReformList` | process.py:53-58 | a reshaped list has as many elements as the input |
| `Reform.ReformLoop` | process.py:53-59 | a list stays a list; any other value that does not raise (an empty dict or string) is returned unchanged |
| `Reform.Reformed` | process.py:48-62 | `data_reform` returns None exactly when the text does not parse |
| `Reform.ReformJudgment` | process.py:54-58 | the four in-place steps on one dict give the reshaped table, or the KeyError the table function names |
| `Reform.ReformItem` | process.py:53-58 | one loop pass equals the element specification: a dict is reshaped, anything else raises TypeError |
| `Reform.ReformEach` | process.py:53-58 | the loop rewrites the list in place into the reshaped list, or stops at the first error, which is the walk's error |
| `Reform.ReformInPlace` | process.py:53-59 | iterating the parsed value gives the specified result, including empty dicts and strings and TypeError cases |
| `Reform.DataReform` | process.py:48-62 | `data_reform(text, llm)` equals `Reformed`: None on a decode error, unwrap `result` when `llm`, then reshape |
| `ReformProperties.JudgmentRenamed` | process.py:54-58 | keys `dimension, description, result` become `dimension, analysis, result` with the same three values |
| `ReformProperties.HumanRecordNormalized` | process.py:53-59 | a human record of such judgments becomes the canonical record, element by element and in order |
| `ReformProperties.WrappedIsInnerReformed` | process.py:51-52 | with `llm=True` the result is the `llm=False` result on the value under the outer `result` |
| `ReformProperties.MissingEnvelopeRaises` | process.py:51-52 | a model record without the outer `result` raises (KeyError on a dict, TypeError otherwise) rather than returning None |
| `ReformProperties.ModelRecordNormalized` | process.py:51-59 | a wrapped model record becomes the canonical record of its inner judgments |
| `ReformProperties.RaisesIffBrokenJudgment` | process.py:53-62 | a parsed list raises exactly when some element is not a dict holding both `result` and `description`, and never gives None |
| `ReformProperties.ReformedInOrder` | process.py:53-59 | element `i` of the output is element `i` of the input reshaped |
| `ReformProperties.RenormalizeStable` | process.py:54-58 | putting `description` back into a reshaped judgment and reshaping again gives the same judgment |
| `Walk.WalkFailure` | process.py:53-58 | a loop whose body may raise raises exactly when some element's step raises, with the first such error |
| `Walk.SomesFilter` | process.py:82-92 | a loop that appends only for kept elements collects one value per kept element, in order |
| `Prompt.RemoveSpaces` | process.py:45 | `replace(' ', '')` leaves no space and never lengthens the text |
| `Prompt.RemoveSpacesNoop` | process.py:45 | a text without spaces is unchanged |
| `Prompt.RemoveSpacesAppend` | process.py:45 | removing spaces commutes with concatenation |
| `Prompt.RemoveSpacesCounts` | process.py:45 | every character other than a space occurs as often as before |
| `Prompt.RemoveSpacesIdempotent` | process.py:45 | removing spaces twice is removing them once |
| `Prompt.ReplaceQuotes` | process.py:81 | each `'` becomes `"`, every other character stays in place, and no `'` is left |
| `Prompt.ReplaceQuotesAppend` | process.py:81 | the quote rewriting commutes with concatenation |
| `Prompt.QuoteFreeUnchanged` | process.py:81 | a text without `'` is unchanged |
| `Prompt.NanAfterReplace` | process.py:81-82 | a cell reads "nan" after the rewriting exactly when it read "nan" before |
| `Prompt.InstructionEndsWithStandard` | process.py:73-75 | the instruction ends with `STANDARD`, which holds no space |
| `Convert.CellText` | process.py:81 | the judgment text holds no `'` and is "nan" exactly when `str` of the cell is |
| `Convert.Input` | process.py:76 | the input wraps the outline in `<短剧大纲>` tags; an empty outline cell raises TypeError |
| `Convert.AlpacaRow` | process.py:73-92 | one pass of the Alpaca loop equals the row specification |
| `Convert.AlpacaRows` | process.py:71-92 | the row loop with `append` and `continue` equals the walk-and-keep specification |
| `Convert.ConvertToAlpaca` | process.py:69-95 | `convert_to_alpaca_format` is the row specification with the fixed instruction |
| `Convert.DpoRow` | process.py:102-125 | one pass of the DPO loop equals the row specification |
| `Convert.DpoRows` | process.py:100-125 | the DPO row loop equals the walk-and-keep specification |
| `Convert.ConvertToDpo` | process.py:98-128 | `convert_to_dpo_format` is the row specification with the fixed instruction |
| `ConvertProperties.AlpacaStepCases` | process.py:76-84 | a row raises exactly on an empty outline or a kept judgment that raises; a non-raising row is skipped exactly when its judgment reads "nan" |
| `ConvertProperties.AlpacaEntryContents` | process.py:84-92 | an appended entry holds the instruction, the wrapped outline, `data_reform` of the cell text, and `system = ""` |
| `ConvertProperties.AlpacaRaises` | process.py:71-92 | the conversion raises exactly when some row raises, with the first such row's error |
| `ConvertProperties.AlpacaEntries` | process.py:71-92 | one entry per row whose judgment is not "nan", in row order, each built from its row |
| `ConvertProperties.UnparsableRowKept` | process.py:81-92 | a kept row whose text does not parse is still emitted, with output None |
| `ConvertProperties.DpoStepCases` | process.py:105-116 | a row raises on an empty outline, or when it is kept and one of its records raises (the human record first); otherwise it is skipped exactly when either judgment reads "nan" |
| `ConvertProperties.DpoEntryContents` | process.py:115-124 | `chosen` is `data_reform(human)`, `rejected` is `data_reform(model, True)`, with the shared instruction and input |
| `ConvertProperties.DpoRaises` | process.py:100-125 | the DPO conversion raises exactly when some row raises, with the first such row's error |
| `ConvertProperties.DpoEntries` | process.py:100-125 | one DPO entry per row where neither judgment is "nan", in row order |
| `ConvertProperties.AlpacaSingleRow` | process.py:71-92 | a row with a human record gives exactly one entry holding the canonical record |
| `ConvertProperties.NanRowSkipped` | process.py:82-83 | a row whose judgment is empty or reads "nan" gives no entry in either format |
| `ConvertProperties.DpoSingleRow` | process.py:111-125 | a row with a human record and a wrapped model record gives one entry with both canonical records |
| `ConvertProperties.RecordQuotes` | process.py:81 | a one-judgment record written with single quotes becomes the same record with double quotes, when its values hold no single quote |
| `ConvertProperties.ExampleCellText` | process.py:81 | the quote rewriting turns the single-quoted example cell into the double-quoted JSON text handed to `json.loads` |
| `ConvertProperties.ExampleRow` | process.py:76-92 | the outline 少年重生复仇 with the single-quoted record `[{'dimension': '主线', 'description': 'ok', 'result': '通过'}]`, which `json.loads` reads after the quote rewriting as one human judgment, gives one entry whose output has `analysis` in place of `description` |

## Left out

- llm_gen.py is not part of this model. It calls a remote language model and reads and writes files.
- `read_csv_data` (process.py:65-66) is pandas CSV parsing. The rows are an input sequence instead.
- `save_to_jsonl`, `save_to_json_list` and `main` (process.py:131-165) only write files, build timestamped file names and print.
- The `print` in the decode-error handler and the `pp` diagnostics (process.py:61, 93-94, 126-127) have no effect on the returned data.
- The JSON grammar of `json.loads` is an oracle. Decoding duplicate keys, floats and text escapes is not modelled. Numbers are integers.
- Cells holding numbers, and rows without one of the three columns, are not modelled. A cell is a text or an empty cell.
- The `is None` tests (process.py:82, 113) can never hold, because `str(...)` never returns None. Only the "nan" test is modelled.
- Python builds the instruction anew on every row. It never depends on the row, so `Convert.ConvertToAlpaca` and `Convert.ConvertToDpo` build it once and pass it to the row loop.
- In Python the edited dicts are the very objects inside the parsed list. `Reform.ReformItem` copies an element into a `Dict` and the loop writes the edited dict back. Aliasing between the list and its dicts is not modelled.
- Only the first error raised is modelled. Partial edits made before an exception are discarded with it, as the caller never sees them.
