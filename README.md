# APD fixed-width declaration files, in Dafny

This project models the core of `apd/fixed_text_file.py`. That file reads and writes APD files. An APD file is the Greek social-insurance (IKA) payroll declaration: a fixed-width text file made of four kinds of line.
- A header line (`1`) carries the employer and the declared totals.
- An employee line (`2`) describes one insured person.
- Each contribution line (`3`) carries a pay period with its amount, its contributions and its days.
- A terminator line (`EOF`) ends the file.

The model has these layers:
- **Values** (`values.dfy`): field values (`Text`, `Int`, and `Amount` in integer cents), records, and the errors the Python code raises, as `Result`/`Outcome` values.
- **Strings** (`strings.dfy`): the Python string built-ins the codecs rely on. These are `strip`, `split('-')`, `int()`, `str()`, `startswith` and `'\n'.join`.
- **Columns** (`columns.dfy`): the seven column codecs (`ColText`, `ColTextCapital`, `ColDate`, `ColPoso`, `ColInt`, `ColIntSpace`, `ColTextInt`) with `fill_front_zeros` and `fill_back_spaces`. It proves the render/reverse round trips, both value → slice → value and slice → value → slice.
- **Lines** (`lines.dfy`): `Col` and the `LineType` class. `add_col` updates `columns` and `colbyname` in place. `size`, `render` and `read` are specified by functions on the line type's value `LineLayout`, and the record/line round trips are proved about those functions.
- **Documents** (`documents.dfy`): the `Document` class, with its registry of line types, its records, its employee index `ergnoi` and `total_ergnoi`. Its methods are `add_linetype`, `add_line`, `render`, `parse`, `get_totals`, `totals_by_18`, `correct_header`, `errors_found` and `DublicateLines`. Each method is proved against a function of the old state.
- **TotalsFacts** (`totals.dfy`): what the totals mean.
  - `get_totals` is the sum over the contribution lines.
  - The two `totals_by_18` buckets add up to it.
  - `correct_header` makes `errors_found` empty.
  - `DublicateLines` doubles every total. Its copies get the integer `18` while `totals_by_18` compares with the string `'18'`, so every copy lands in the "other" bucket.
- **Groups** (`groups.dfy`) and **ParseFacts** (`grouping.dfy`): the employee index `parse` builds, stated over the kinds of the text lines alone.
  - Every employee line opens a group keyed by its line index.
  - Every contribution line is filed under the last employee line before it.
  - A contribution line with no employee line before it makes parse fail.
  - The records appended are exactly the lines each matching line type reads.
  - Over a prefix-free registry, rendering what parse read from canonical lines gives the text back.
- **Catalog** (`catalog.dfy`): `apd_builder`, with the column tables of the four line types.
  - Their sizes are 414, 178, 138 and 3.
  - The terminator renders exactly `EOF` and reads only `EOF`.
  - The four prefixes are prefix-free, so parse's scan over the line types, which has no `break`, reads each text line with at most one of them.
  - Every line type has distinct field names, none of them `line_code`, so a file made of lines each line type would render, once parsed without error, renders back to the same file.
  - Rendering a document starts with its first record's line code and, when the last record is a terminator, ends with `EOF`.
  - `linetype_names` comes out in registration order.

`apd.utils.grup` (upper-casing without accents) lives outside the modelled file. Every render takes it as a parameter `grup: string -> string`.

## Model

| member | source | states |
|---|---|---|
| Columns.FillFrontZeros | apd/fixed_text_file.py:15-19 | fails with ValueTooWide exactly when the text is wider than the column; otherwise the result is exactly `size` characters and ends with the text |
| Columns.FillBackSpaces | apd/fixed_text_file.py:21-25 | fails exactly when the text is wider than the column; otherwise the result is exactly `size` characters and starts with the text |
| Columns.FillCharacters | apd/fixed_text_file.py:15-25 | the padding is all `'0'` in front for numbers and all `' '` behind for text |
| Columns.RenderCodecs | apd/fixed_text_file.py:31-117 | what each codec's render does: text (capitalised for ColTextCapital) sits at the left of exactly `size` characters; str(int(value)) or the cents of an amount sit at the right; a value too wide fails with ValueTooWide, a non-string for a text or date codec with TypeMismatch, and a value int() or '.2f' rejects with MalformedValue |
| Columns.ReverseCodecs | apd/fixed_text_file.py:31-117 | what each codec's reverse does: the text and date codecs always give a string; ColInt and ColIntSpace give the integer int() reads and ColPoso the amount float() reads, and fail with MalformedValue, their only failure, exactly when the slice is not such a number |
| Columns.RenderWidth | apd/fixed_text_file.py:31-117 | every successful render fills exactly the column width, except a non-blank date, which is the day, month and year parts of `YYYY-MM-DD` in the order DDMMYYYY |
| Columns.ReverseShape | apd/fixed_text_file.py:31-117 | text codecs always read a stripped string; a date reads as the empty string exactly when its slice is blank |
| Columns.TextValueRoundTrip | apd/fixed_text_file.py:31-44 | a stripped text that fits renders as the text plus blanks and reads back as itself (ColTextCapital when `grup` leaves it unchanged) |
| Columns.TextSliceRoundTrip | apd/fixed_text_file.py:31-44 | a blank-padded slice reads as its stripped text, which renders back to the same slice |
| Columns.DateValueRoundTrip | apd/fixed_text_file.py:47-60 | `YYYY-MM-DD` renders as DDMMYYYY, and DDMMYYYY reads back as `YYYY-MM-DD` |
| Columns.DateValueCanonical | apd/fixed_text_file.py:47-60 | an ISO date, or the empty date, renders to the column width and reads back to the same value |
| Columns.DateSliceRoundTrip | apd/fixed_text_file.py:47-60 | a blank slice or eight digits read without error and re-render to the same slice |
| Columns.PosoValueRoundTrip | apd/fixed_text_file.py:70-76 | an amount in cents that fits renders to exactly `size` digits, which read back as the same amount |
| Columns.PosoSliceRoundTrip | apd/fixed_text_file.py:70-76 | a slice of at least three digits reads as the amount those digits denote in cents, and that amount renders back to the same slice |
| Columns.ZeroAmountRender | apd/fixed_text_file.py:70-73 | the amount 0 renders in a 10-wide column as ten zeros |
| Columns.FiveCentsReverse | apd/fixed_text_file.py:75-76 | `000000005` reads as 5 cents: the last two digits are the decimals |
| Columns.IntValueRoundTrip | apd/fixed_text_file.py:82-100 | a non-negative integer that fits renders zero-filled to `size` and reads back (ColInt, ColIntSpace) as itself |
| Columns.DigitsRerender | apd/fixed_text_file.py:108-114 | a digit slice re-renders unchanged both from its integer value and from its text (ColTextInt reads digits back as text) |
| Columns.ReverseRender | apd/fixed_text_file.py:127-131 | for every codec, a value in its canonical form renders to the column width and reads back to the same value |
| Columns.RenderReverse | apd/fixed_text_file.py:127-131 | for every codec, a slice in its canonical form reads without error and renders back to the same slice |
| Lines.WidthSplit | apd/fixed_text_file.py:154-156 | the summed column widths of consecutive column runs add up |
| Lines.LineType.constructor | apd/fixed_text_file.py:141-145 | a new line type has its name and prefix and no columns |
| Lines.LineType.AddCol | apd/fixed_text_file.py:158-160 | appends the column and maps its name to it in colbyname, and nothing else changes |
| Lines.ByNameKeys | apd/fixed_text_file.py:158-160 | colbyname's keys are exactly the names of the added columns |
| Lines.ByNameLast | apd/fixed_text_file.py:158-160 | colbyname maps a name to the last column added under it |
| Lines.LineType.Render | apd/fixed_text_file.py:162-166 | the line is the prefix followed by each column's render, in order; a missing field or a failing codec fails the render |
| Lines.RenderLinePrefix | apd/fixed_text_file.py:162-166 | a rendered line starts with the line type's prefix |
| Lines.RenderColsMissing | apd/fixed_text_file.py:162-166 | when columns k to j - 1 have their fields and render, and column j's field is absent, rendering from column k fails with MissingKey |
| Lines.RenderColsPresent | apd/fixed_text_file.py:162-166 | a record that holds a field for every column never fails with MissingKey: only a codec can make it fail |
| Lines.RenderColsIgnores | apd/fixed_text_file.py:162-166 | a field that no column names, such as the `line_code` tag, plays no part in the render |
| Lines.LineType.Read | apd/fixed_text_file.py:174-186 | read is the prefix check, then the size check, then each column's reverse of its slice, in column order |
| Lines.LineType.ReadColumns | apd/fixed_text_file.py:180-186 | the column loop of read, with its running offsets `apo` and `eos`, reads each slice with its codec in column order; the first failing codec decides the error |
| Lines.ReadLineOk | apd/fixed_text_file.py:174-186 | a line reads without error exactly when it starts with the prefix, has the line type's size and every column slice reads |
| Lines.ReadFromFields | apd/fixed_text_file.py:180-186 | with distinct column names, the record read has exactly the column names as keys, and each value is its codec's reading of its own slice |
| Lines.ReadFromFails | apd/fixed_text_file.py:182-185 | the first column whose slice does not read decides the error |
| Lines.ReadRenderLine | apd/fixed_text_file.py:162-186 | a canonical record renders to a line of the line type's size that reads back to the same field values |
| Lines.RenderReadLine | apd/fixed_text_file.py:162-186 | a canonical text line reads and renders back to the same text |
| Documents.NamesOf | apd/fixed_text_file.py:261-263 | linetype_names lists the registered names in registration order |
| Documents.FindPrefix | apd/fixed_text_file.py:274 | the line-type lookup by line code finds a registered line type with that prefix, or reports that there is none |
| Documents.Document.constructor | apd/fixed_text_file.py:238-242 | a new document has no line types, no records, no groups and a zero count |
| Documents.Document.AddLinetype | apd/fixed_text_file.py:252-259 | a registered prefix fails with DuplicatePrefix, then a registered name fails with DuplicateName, both leaving the document unchanged; otherwise the line type is appended; distinct prefixes and names are kept |
| Documents.Document.AddLine | apd/fixed_text_file.py:265-266 | appends the record and changes nothing else |
| Documents.Document.Render | apd/fixed_text_file.py:273-275 | returns the records rendered by the line type of their line code, joined by newlines; the first failure wins |
| Documents.RenderRecordCases | apd/fixed_text_file.py:274 | a record without a textual line code, or whose line code no line type has, fails with MissingKey; otherwise it renders with the line type of its line code |
| Documents.RenderRecordsAt | apd/fixed_text_file.py:274 | the i-th rendered line is the rendering of the i-th record |
| Documents.RenderRecordCode | apd/fixed_text_file.py:274 | a record that renders has a text line code, and its line starts with that code |
| Documents.RenderDocumentEnds | apd/fixed_text_file.py:273-275 | a rendered document starts with its first record's line code and ends with its last record's line |
| Documents.Document.Parse | apd/fixed_text_file.py:373-388 | the new state and outcome are those of ParseText over the registry from the old state; on an error the state reached so far is kept |
| Documents.Document.ParseLineTypes | apd/fixed_text_file.py:378-388 | one text line against every registered line type in registration order, with no early exit |
| Documents.Document.GroupLine | apd/fixed_text_file.py:380-385 | `2` opens an empty group at the line index, counts it and makes it current; `3` appends the line index to the current group, or fails with MissingKey when that group does not exist |
| Documents.Add | apd/fixed_text_file.py:394-396 | Python's `+` on the sums: int with int stays int, a float makes a float, a string raises; the cents add up |
| Documents.Document.GetTotals | apd/fixed_text_file.py:390-397 | returns TotalsOf(lines) |
| TotalsFacts.TotalsAreSums | apd/fixed_text_file.py:390-397 | get_totals succeeds exactly when every contribution line has numeric amount, contributions and days, and its totals are the sums of those fields over the contribution lines only |
| Documents.Document.TotalsBy18 | apd/fixed_text_file.py:399-411 | returns By18Of(lines) |
| TotalsFacts.By18Partition | apd/fixed_text_file.py:399-411 | totals_by_18 succeeds exactly when every contribution line can be bucketed; then get_totals succeeds too, the '18' bucket holds the sums over the contribution lines of type '18', the other bucket the sums over the remaining contribution lines, and the two add up to the totals, field by field |
| Documents.Document.CorrectHeader | apd/fixed_text_file.py:434-438 | the header's apodoxes, eisfores and totalmeres become the computed totals; failures leave the records unchanged |
| TotalsFacts.HeaderOverwrite | apd/fixed_text_file.py:434-438 | overwriting a header that is not a contribution line changes none of the sums |
| Documents.Document.ErrorsFound | apd/fixed_text_file.py:440-452 | returns the header fields that differ from the totals, in the order apodoxes, eisfores, days |
| TotalsFacts.CorrectHeaderClears | apd/fixed_text_file.py:434-452 | after correct_header, errors_found reports nothing |
| Documents.Document.ContributionLines | apd/fixed_text_file.py:455-464 | succeeds exactly when every record has a line code; the positions of the contribution lines come out in increasing order, each with its copy |
| Documents.Document.DublicateLines | apd/fixed_text_file.py:454-470 | inserts a copy right after each contribution line, then corrects the header; a record without a line code fails before anything changes |
| Documents.InsertedAll | apd/fixed_text_file.py:465-469 | inserting the copies from the last position backwards gives every contribution line followed by its copy |
| TotalsFacts.CopySums | apd/fixed_text_file.py:459-462 | a copy keeps the amount, contributions and days of its line, and falls in the bucket of types other than '18' |
| TotalsFacts.DuplicatedTotals | apd/fixed_text_file.py:454-470 | after duplication get_totals succeeds exactly when it did before, and every total is doubled |
| TotalsFacts.DuplicatedBuckets | apd/fixed_text_file.py:454-470 | after duplication the '18' bucket is unchanged and the other bucket grows by the whole total |
| Groups.Owner | apd/fixed_text_file.py:376-385 | the owner of a line is the last employee line before it (no employee line lies between them), and when there is none no employee line precedes it |
| Groups.GroupsOpen | apd/fixed_text_file.py:380-383 | an employee line opens its own empty group, is counted and becomes the owner of what follows |
| Groups.GroupsJoin | apd/fixed_text_file.py:384-385 | a contribution line joins exactly the group of the last employee line before it |
| Groups.GroupsKeep | apd/fixed_text_file.py:377-388 | any other line leaves the groups and the owner unchanged |
| ParseFacts.ParseLineGroups | apd/fixed_text_file.py:378-385 | a successful scan of one text line over distinct prefixes changes the groups as its kind says |
| ParseFacts.ParseLineRecords | apd/fixed_text_file.py:386-388 | a successful scan appends exactly the records the matching line types read, each tagged with its line code |
| ParseFacts.ParseLineReads | apd/fixed_text_file.py:386 | in a successful scan every line type whose prefix starts the line reads it without error |
| ParseFacts.ParseGrouping | apd/fixed_text_file.py:373-388 | a successful parse from a fresh index keys a group on exactly the employee lines, counts them, fills each group with exactly the contribution lines after it up to the next employee line, and appends exactly the matched records |
| ParseFacts.ParseMissingGroup | apd/fixed_text_file.py:384-385 | a contribution line with no employee line before it makes parse fail |
| ParseFacts.MatchedOnce | apd/fixed_text_file.py:378-379 | when no registered prefix begins another, the scan reads each text line with at most one line type |
| ParseFacts.MatchedLine | apd/fixed_text_file.py:378-388 | a line that only line type k's prefix starts, and that line type k reads, gives exactly one record: line type k's fields tagged with its prefix |
| ParseFacts.RenderTagged | apd/fixed_text_file.py:273-275 | over a prefix-free registry whose field names avoid `line_code`, the record parse keeps for line type k renders as line type k renders the fields it read |
| ParseFacts.ParseRenderLine | apd/fixed_text_file.py:378-388 | a canonical line of line type k is read by that line type alone, and its tagged record renders back to the line |
| ParseFacts.RenderMatchedText | apd/fixed_text_file.py:386-388 | the records parse keeps for canonical text lines render back to those lines, in order |
| ParseFacts.ParseThenRender | apd/fixed_text_file.py:373-388 | over a prefix-free registry whose line types have distinct field names other than `line_code`, a text of canonical lines that parses without error renders back to the same text joined by newlines |
| ParseFacts.RegistryPrefixes | apd/fixed_text_file.py:252-259 | the prefixes add_linetype keeps distinct are distinct in the registry's layouts |
| Catalog.BuildLineType | apd/fixed_text_file.py:474-501 | a line type created empty and given a column table one add_col at a time has exactly that table |
| Catalog.ApdLineTypes | apd/fixed_text_file.py:474-538 | the four line types have the names, prefixes and column tables of apd_builder |
| Catalog.ApdBuilder | apd/fixed_text_file.py:473-545 | all four registrations succeed; the registry is header, employee, contribution, terminator; linetype_names is `Header`, `Stoixeia Ergazomenoy`, `Stoixeia misthodosias`, `Terminator line`; no records or groups yet |
| Catalog.HeaderColumnsWidth | apd/fixed_text_file.py:474-501 | the header columns are 413 characters wide |
| Catalog.EmployeeColumnsWidth | apd/fixed_text_file.py:503-511 | the employee columns are 177 characters wide |
| Catalog.ContributionColumnsWidth | apd/fixed_text_file.py:513-537 | the contribution columns are 137 characters wide |
| Catalog.CatalogWidths | apd/fixed_text_file.py:154-156 | LineType.size is 414 for the header, 178 for an employee line, 138 for a contribution line and 3 for the terminator |
| Catalog.HeaderColumnsNames | apd/fixed_text_file.py:474-501 | the 26 header fields have distinct names, none of them `line_code` |
| Catalog.EmployeeColumnsNames | apd/fixed_text_file.py:503-511 | the 8 employee fields have distinct names, none of them `line_code` |
| Catalog.ContributionColumnsNames | apd/fixed_text_file.py:513-537 | the 23 contribution fields have distinct names, none of them `line_code` |
| Catalog.CatalogFieldsApart | apd/fixed_text_file.py:473-545 | every line type of apd_builder has distinct field names, none of them `line_code`, so the line round trips of Lines apply to all four |
| Catalog.TerminatorLineCodec | apd/fixed_text_file.py:538 | the column-less terminator renders exactly `EOF` from any record, and reads (to an empty record) exactly the text `EOF` |
| Catalog.CatalogPrefixFree | apd/fixed_text_file.py:378-388 | no prefix of apd_builder's registry begins another, so the prefixes are distinct and each text line yields at most one record |
| Catalog.ApdParseThenRender | apd/fixed_text_file.py:273-275 | under apd_builder's registry, a file whose every line is one its line type would render, and which parses without error, renders back to the same file |
| Catalog.RenderEnds | apd/fixed_text_file.py:273-275 | a rendered document starts with its first record's line code (`1` for a header) and ends with `EOF` when its last record is a terminator |

## Left out

- File I/O is left out. `parse` takes the file's lines, already split on `'\n'`, and `render2file` is not modelled. The WINDOWS-1253 encoding is not modelled either: strings are sequences of characters.
- `grup` and `dec2gr` live in `apd.utils`, which is not part of this model. `grup` is a parameter of every render. `grformat`, `with_greek_lbl`, `__str__`, `linetypes_report`, `synodeftiko`, `print_company_data`, `print_header`, `for_report` and `totals_by_18_gr` only format reports, and are left out.
- The subclasses `LineTypeTotals`, `LineTypeErg`, `LineTypeApod` and `LineTypeTerminator` differ from `LineType` only in their report label `linetype` and in `for_report`, so all four are modelled as `LineType`.
- Floating point is left out. ColPoso amounts and the sums of `get_totals` are integer cents. `round(x, 2)` is exact on cents, and float rounding error is not modelled.
- Columns.ReverseRender: `int()` and `float()` are modelled with an optional sign, surrounding ASCII blanks and ASCII digits, and for an amount the one-digit exponent that fits in the last two characters. Python also accepts underscores between digits, non-ASCII digits and non-ASCII whitespace; the model reads those as MalformedValue.
- The `print` calls in `DublicateLines` and `synodeftiko` are left out.
- Documents.Document.ErrorsFound returns which header fields differ, not the message strings.
- A Python exception becomes a `Fail`/`Err` outcome.
  - A `KeyError`, such as a missing field or a `3` line before any `2` line, becomes `MissingKey`.
  - A `ValueError` becomes `ValueTooWide`, `PrefixMismatch`, `LengthMismatch`, `MalformedValue`, `DuplicatePrefix` or `DuplicateName`. Rendering a string with ColPoso (`'.2f'` on a `str`) and rendering a non-number with an integer codec (`int()`) are both `MalformedValue`.
  - A `TypeError` or `AttributeError` (a non-string given to a text or date codec, or a string added to a number in `get_totals`) becomes `TypeMismatch`.
  - The `IndexError` of `self.lines[0]` in a document without records (`correct_header`, `errors_found`, `DublicateLines`) becomes `NoHeader`.
  - As in Python, `parse` keeps whatever state it reached before the failure.
- Records are values. Python's `parse` and `DublicateLines` share dict objects between `lines` and local variables, and nothing in the modelled code mutates them through a second reference, so that aliasing is not modelled.
- `ergnoi` is a map keyed by line index. The insertion order of the Python dict is not modelled.
- Document.parse is split into `Parse` (text lines), `ParseLineTypes` (line types) and `GroupLine` (the `2`/`3` branch).
- `DublicateLines` is split into `ContributionLines` (the collecting loop) and the insertion loop. Reversing `pos` and `val` is modelled by walking them from the back.
- `apd_builder` is split into `ApdLineTypes` and `ApdBuilder`. The run of `add_col` calls is a column table that `BuildLineType` adds one column at a time.
- ParseFacts.ParseGrouping: states the grouping for a parse that starts from an empty index with distinct prefixes (as `apd_builder` gives). Parsing a second file into the same document is covered only by `Document.Parse`'s own contract.
- TotalsFacts.CorrectHeaderClears requires that the first record is not itself a contribution line. Otherwise overwriting its `apodoxes` would change the totals.
- Columns.RenderWidth: a non-blank date renders whatever its three `-` parts are, with no width check, as in the source. Only canonical ISO dates are proved to round-trip.
