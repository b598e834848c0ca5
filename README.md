# fluent-csv template builder, modelled in Dafny

LeBash.FluentCsv turns an in-memory document into CSV text. A caller
configures a *template builder* through a fluent interface:

- `AddColumns` declares (header, mapper) columns;
- `WithProjector` sets how the document becomes a sequence of records, or
  unsets it when given null;
- `WithDelimiter` sets the separator, which is `,` by default.

`Build` validates this configuration and returns a *template*.
`RenderToFileAsync` on the template writes three kinds of line:

- a `sep=<delimiter>` hint line;
- the quoted headers, joined by the delimiter;
- one line per record: the mapper outputs, quoted and joined, in column order.

Every header and cell is quoted the same way, whatever it holds. It is
wrapped in double quotes, and each inner double quote is doubled. This is
the field escaping of section 2 of RFC 4180, applied to every field.

The model has four modules:

- `Wrappers` (`wrappers.dfy`): `Option` and `Result`.
- `Quoting` (`quoting.dfy`): `GetCellValue` as `Quote`. It is defined through
  a model of the platform's ordinal `String.Replace`. It is proved equal to a
  per-character reference escaping (`Escape`), and proved to round-trip
  through a standard unescaping reader (`ScanQuoted`, `Unquote`).
- `Rows` (`rows.dfy`): `String.Join`, the line text of the renderer
  (`QuotedLine`, `Lines`) and a reader for that text (`ParseFields`,
  `ParseDocument`). The reader recovers the delimiter, the headers and every
  record's cells from the rendered lines.
- `TemplateBuilder` (`template_builder.dfy`): the mutable objects of the
  source.
  - `Template` is `CsvTemplate`, whose fields the builder assigns.
  - `Builder` is `CsvTemplateBuilder<TData, TRecord>`. It holds the column
    list and owns one `Template` object from construction on.
  - `Build` returns that same object, not a copy. `Render` is the render
    loop, with a `seq<string>` of lines in place of the file.
- `Usage` (`usage.dfy`): callers of the builder that exercise its
  behaviour. These include the identity projection, the failure
  cases, column accumulation, last-call-wins, and the aliasing of the built
  template.

Generic `TData`/`TRecord` become type parameters `D`/`R`. A `ColumnMapper`
becomes the total function type `R -> string`, and a projector becomes
`D -> seq<R>`. The reflection test in `Build` (`typeof(TData).IsAssignableFrom(...)`)
becomes the builder constant `documentAsRecords`, fixed at creation:

- `Some(cast)` when the document type can hold a sequence of records, that
  is, when `TData` is assignable from `IEnumerable<TRecord>` (for example
  `object`, `IEnumerable`, `IEnumerable<TRecord>`, or, by covariance,
  `IEnumerable<Base>` for a reference type `TRecord` derived from `Base`);
- `None` otherwise. A document type of `List<TRecord>` or `TRecord[]` gets
  `None`, so with no projector its `Build` fails, even though such a
  document does enumerate records.

`CreateForRecords` (the `Create<TRecord>()` overload) passes the identity.

Three behaviours of the code are easy to miss:

- The delimiter is never validated. Neither `WithDelimiter` nor `Build`
  rejects an empty delimiter, or any other one. The reader's round trip
  (`Rows.ParseRendered`) therefore assumes a delimiter that is non-empty
  and does not start with a double quote. The reader cannot split lines
  written with any other delimiter. Some of these delimiters make the
  output truly ambiguous, whatever the reader: the empty delimiter, `"`
  and `""`. With the empty delimiter, the cells `a` and `b` render as
  `"a""b"`, which is also the rendering of the one cell `a"b`.
- The built template is not frozen. It is the builder's own object, so
  `WithDelimiter`/`WithProjector` after `Build` still change what it
  renders. Only the header and mapper lists are snapshots.
- `Build` assigns the header and mapper snapshots before it checks for
  columns. A failed `Build` has therefore already overwritten them.

## Model

| member | source | states |
|---|---|---|
| `Quoting.Replace` | LeBash.FluentCsv/CsvTemplateBuilder.cs:156 | computes the ordinal `String.Replace`: scanning left to right, each non-overlapping occurrence of the pattern is replaced; its contract states that a text in which the pattern occurs nowhere comes back unchanged (what it does to `"` is `Quoting.ReplaceQuoteIsEscape`) |
| `Quoting.Quote` | LeBash.FluentCsv/CsvTemplateBuilder.cs:153-157 | the cell value is `"` + the value with every `"` written twice + `"` |
| `Quoting.ReplaceQuoteIsEscape` | LeBash.FluentCsv/CsvTemplateBuilder.cs:156 | replacing every `"` by `""` with the ordinal left-to-right `Replace` equals the per-character escaping |
| `Quoting.EscapeLength` | LeBash.FluentCsv/CsvTemplateBuilder.cs:156 | escaping lengthens a value by exactly its number of double quotes |
| `Quoting.QuoteLength` | LeBash.FluentCsv/CsvTemplateBuilder.cs:153-157 | a quoted value's length is the value's length + its number of `"` + 2 |
| `Quoting.EscapePlain` | LeBash.FluentCsv/CsvTemplateBuilder.cs:156 | a value without double quotes is left unchanged by the escaping (only wrapped by the quoting) |
| `Quoting.EscapeConcat` | LeBash.FluentCsv/CsvTemplateBuilder.cs:156 | escaping a concatenation escapes each part independently |
| `Quoting.ScanQuoted` | LeBash.FluentCsv/CsvTemplateBuilder.cs:153-157 | whatever the unescaping reader reads from a field body is the escaping of what it yields, followed by the closing quote and the rest |
| `Quoting.ScanQuotedEscape` | LeBash.FluentCsv/CsvTemplateBuilder.cs:153-157 | the reader stops exactly at the quote that closes an escaped value when the next character is not a quote |
| `Quoting.UnquoteQuote` | LeBash.FluentCsv/CsvTemplateBuilder.cs:153-157 | unquoting a quoted cell gives back exactly the cell |
| `Quoting.QuoteUnquote` | LeBash.FluentCsv/CsvTemplateBuilder.cs:153-157 | any field the unquoting accepts is the quoting of what it returns, so each cell has one spelling |
| `Rows.Join` | LeBash.FluentCsv/CsvTemplateBuilder.cs:142 | computes `String.Join`: the parts in order with the separator between each two neighbours; no parts gives the empty text |
| `Rows.JoinLength` | LeBash.FluentCsv/CsvTemplateBuilder.cs:142 | a joined text of n > 0 parts is as long as all the parts together plus n - 1 separators |
| `Rows.QuoteAll` | LeBash.FluentCsv/CsvTemplateBuilder.cs:142 | `Select(GetCellValue)`: one quoted value per value, at the same index |
| `Rows.Cells` | LeBash.FluentCsv/CsvTemplateBuilder.cs:149 | computes a record's raw cells: each column mapper applied to the record, in column order |
| `Rows.RecordLines` | LeBash.FluentCsv/CsvTemplateBuilder.cs:145-150 | computes one line per record, in record order: the record's cells quoted and joined by the delimiter |
| `Rows.Lines` | LeBash.FluentCsv/CsvTemplateBuilder.cs:139-150 | computes the whole output: the `sep=` hint line, the quoted header line, then the record lines |
| `Rows.HintLine` | LeBash.FluentCsv/CsvTemplateBuilder.cs:139 | computes `sep=` + delimiter |
| `Rows.QuotedLine` | LeBash.FluentCsv/CsvTemplateBuilder.cs:142-149 | computes one rendered line: the values quoted and joined by the separator |
| `Rows.QuotedLineCons` | LeBash.FluentCsv/CsvTemplateBuilder.cs:142 | a joined line of quoted values is the first quoted value, then the delimiter and the rest; a single value is joined without delimiter |
| `Rows.ParseFields` | LeBash.FluentCsv/CsvTemplateBuilder.cs:147-149 | every line the row reader accepts renders back, quoted and joined, to the same line |
| `Rows.ParseQuotedLine` | LeBash.FluentCsv/CsvTemplateBuilder.cs:147-149 | a rendered line reads back as exactly its values, in order, for a non-empty delimiter not starting with `"` |
| `Rows.ParseRecordLines` | LeBash.FluentCsv/CsvTemplateBuilder.cs:145-150 | the record lines read back as each record's mapper outputs, records in projector order, columns in column order |
| `Rows.ParseRendered` | LeBash.FluentCsv/CsvTemplateBuilder.cs:139-150 | the whole rendered text reads back as the delimiter (from the `sep=` line), the headers, and each record's cells |
| `TemplateBuilder.Message` | LeBash.FluentCsv/CsvTemplateBuilder.cs:67-79 | computes the exception text of each build error: "No columns have been defined." and "A projector must be specified." |
| `TemplateBuilder.Headers` | LeBash.FluentCsv/CsvTemplateBuilder.cs:62 | computes the column headers, in declaration order |
| `TemplateBuilder.Mappers` | LeBash.FluentCsv/CsvTemplateBuilder.cs:63 | computes the column mappers, in declaration order |
| `TemplateBuilder.Template.constructor` | LeBash.FluentCsv/CsvTemplateBuilder.cs:125-130 | a new template has no projector and `,` as delimiter |
| `TemplateBuilder.Template.Render` | LeBash.FluentCsv/CsvTemplateBuilder.cs:132-151 | fails (None) exactly when the template has no projector, where the source's call of the null projector at line 136 throws; otherwise line 0 is `sep=` + delimiter, line 1 the quoted headers joined by the delimiter, then exactly one line per projected record, in order, of its quoted mapper outputs in column order; no records gives two lines |
| `TemplateBuilder.Builder.constructor` | LeBash.FluentCsv/CsvTemplateBuilder.cs:53-54 | a new builder has an empty column list and its own fresh template with no projector and delimiter `,` |
| `TemplateBuilder.Builder.AddColumns` | LeBash.FluentCsv/CsvTemplateBuilder.cs:91-96 | the callback's result on the live column list becomes the column list; the template is untouched; the same builder is returned |
| `TemplateBuilder.Builder.WithProjector` | LeBash.FluentCsv/CsvTemplateBuilder.cs:103-108 | the template's projector becomes the given one, or none for a null argument (`None`), and nothing else changes; the same builder is returned |
| `TemplateBuilder.Builder.WithDelimiter` | LeBash.FluentCsv/CsvTemplateBuilder.cs:115-120 | the template's delimiter becomes the given one, unchecked, and nothing else changes; the same builder is returned |
| `TemplateBuilder.Builder.Build` | LeBash.FluentCsv/CsvTemplateBuilder.cs:60-84 | headers and mappers snapshot the columns index by index; fails with "no columns" exactly when there are none; with no projector installs the document-as-records cast or fails with "no projector"; a set projector is kept; success returns the builder's own template |
| `TemplateBuilder.Create` | LeBash.FluentCsv/CsvTemplateBuilder.cs:21-24 | a fresh builder with no columns, no projector and the default delimiter |
| `TemplateBuilder.CreateForRecords` | LeBash.FluentCsv/CsvTemplateBuilder.cs:31-44 | a builder whose document is its own record sequence, read by the identity |
| `Usage.RenderRecordsDirectly` | LeBash.FluentCsv/CsvTemplateBuilder.cs:70-76 | with no projector and a document that is the record sequence, the template renders the records themselves with `,` and reads back as headers and cells |
| `Usage.ReconfigureAfterBuild` | LeBash.FluentCsv/CsvTemplateBuilder.cs:62-63 | after Build, a new delimiter reaches the built template's output while newly added columns do not |
| `Usage.BuildWithoutColumns` | LeBash.FluentCsv/CsvTemplateBuilder.cs:65-68 | Build with no columns fails with "no columns", whose message is "No columns have been defined.", whatever projector and delimiter were set |
| `Usage.BuildWithoutProjector` | LeBash.FluentCsv/CsvTemplateBuilder.cs:77-80 | Build with columns and no projector, for a document type that cannot hold a sequence of records (not assignable from `IEnumerable<TRecord>`), fails with "no projector", whose message is "A projector must be specified." |
| `Usage.UnsetProjector` | LeBash.FluentCsv/CsvTemplateBuilder.cs:70-80 | a null projector set after a real one leaves the template with no projector, so Build on non-empty columns fails with "no projector" for a document type that cannot hold a sequence of records |
| `Usage.UnsetProjectorAfterBuild` | LeBash.FluentCsv/CsvTemplateBuilder.cs:132-136 | a null projector set after a successful Build reaches the built template, whose rendering then fails |
| `Usage.AddColumnsTwice` | LeBash.FluentCsv/CsvTemplateBuilder.cs:91-96 | columns from two AddColumns calls reach the template in call order, headers and mappers alike; Build succeeds exactly when the two calls together added a column |
| `Usage.LastSettingWins` | LeBash.FluentCsv/CsvTemplateBuilder.cs:103-120 | with two projectors and two delimiters set, the template renders with the last of each |

## Left out

- File output: creating or truncating the file, `await using`, the
  asynchronous writes, flushing, and the platform line terminator. The
  output is the sequence of lines the renderer writes, one string per
  line. A cell holding a line break stays inside its line string. The
  reader works on these logical lines, not on the bytes of a file.
- Laziness of the projected sequence, and calling the projector before the
  `sep=` line is written. The projector's result is a finite sequence, and
  rendering is pure, so that order is not observable.
- Null references other than the projector: a null header, mapper result,
  delimiter or callback. Dafny strings and functions are never null. A
  null header or mapper result is passed to `GetCellValue` and makes it
  throw, as does a null callback or mapper. A null delimiter does not
  throw: `String.Join` and the `sep=` interpolation treat it as the empty
  string, so it renders exactly as the empty delimiter, which the model
  does offer. A null projector is modelled as `WithProjector(None)`: it
  unsets the projector, Build then treats the template as having none,
  and a built template whose projector was unset fails to render. That
  failure is a `None` result; the source throws only after creating or
  truncating the file, which the model does not capture. The `as` cast
  of the inferred identity projection can yield null when the run-time
  document is not a sequence. Iterating that null throws. The model takes the cast to be total.
- Exceptions thrown by mappers, by the projector or by the `AddColumns`
  callback. These are modelled as total functions.
- An `AddColumns` callback that keeps the list and changes it after the call
  returns. The callback is a function from the old list to the new one.
- Strings: a C# string is a sequence of UTF-16 code units, while a Dafny
  `string` is a sequence of Unicode scalar values. A C# string holding a
  lone surrogate has no counterpart in the model. `Length` counts code
  units, so a character outside the Basic Multilingual Plane counts twice
  in C# and once here. `Quoting.QuoteLength` holds under either count,
  because `"` is one unit in both.
- Reflection: whether `TData` is assignable from `IEnumerable<TRecord>` is
  the `documentAsRecords` parameter given at creation, not computed from
  types.
- `ICsvTemplateBuilder.cs`, `ICsvTemplate.cs` and `ColumnMapper.cs` declare
  interfaces and a delegate only. The delegate is the function type `Mapper`.
- The demonstration program (`LeBash.FluentCsv.TestConsole/Program.cs`) is
  not part of this model. Its directory creation and file path handling are
  I/O. Its configuration is the one that `Usage.LastSettingWins` and
  `Usage.ReconfigureAfterBuild` cover in general.
