# laracsv `Export`, modelled in Dafny

laracsv turns a collection of Eloquent models (or arrays) into CSV rows through the
`Export` class. A *field spec* lists the columns. Each entry is either `'path'` or
`'path' => 'Display Name'`. The spec is split into the data paths and the column titles.
`build` writes a header row of titles to the CSV writer, unless `header` is configured
as exactly `false`. It then writes one row per record of a collection. A row holds the
record's value for each data path, or null when the record has no such key.

A per-record callback (`beforeEach`) can change the record before it is written.
It can also skip the record by returning exactly `false`. `buildFromBuilder` does the
same over the pages a query builder yields, with page size `chunk` (1000 by default).
A per-page callback (`beforeEachChunk`) can skip a whole page the same way.

The model has seven modules:

- `Values`: cell values, records and configuration as string-keyed maps, and the
  `Arr::get` lookup.
- `Fields`: the field-spec datatype and its split into paths and titles, with the
  inverse `Pair`.
- `Rows`: the specification of what `addHeader` and `addCsvRows` write. This covers the
  header row, row projection, the per-record skip and the indices of kept records.
- `Chunks`: the specification of the page loop in `buildFromBuilder`. It includes the
  per-page skip, the chunk size and a reference paging `Paginate`.
- `Output`: everything one `build` / `buildFromBuilder` call appends.
- `Laracsv`: class `Export` itself. The writer is the field `rows`, which is only ever
  appended to. The two callbacks and `config` are fields as well. Each method's loop is
  proved against the specification functions above.
- `Scenarios`: the scenarios of the repository's tests, stated over the model.

Callbacks are total functions. Each returns the value the PHP callback returned and the
record (or page) as the callback left it. This covers the in-place changes a callback
makes to the model object it is given. A callback's result depends on its argument
alone; "## Left out" says what that leaves uncaptured. The query builder is a function
from the chunk size to the pages it yields.

## Model

| member | source | states |
|---|---|---|
| Fields.HeaderFields | src/Export.php:157-160 | one title per field entry, in declaration order; a plain entry's title is its path, a renamed entry's title is its display name |
| Fields.DataFields | src/Export.php:143-152 | one data path per field entry, in declaration order, each the entry's source path |
| Fields.PairThenSplit | src/Export.php:143-160 | pairing equal-length path and title lists into a field spec and splitting it gives both lists back |
| Fields.SplitThenPair | src/Export.php:143-160 | the split loses nothing: a spec with no rename to its own path is rebuilt exactly from its data paths and titles |
| Scenarios.CustomHeadersExample | tests/Laracsv/ExportTest.php:32-43 | the custom-headers field array gives titles `id, Name, price, Retail Price, Custom Field` and paths `id, title, price, original_price, custom_field` |
| Rows.Row | src/Export.php:191-194 | a record's row has one cell per data path, and cell i is the record's value at path i, or null when the key is missing |
| Values.Get | src/Export.php:193 | the plain-key `Arr::get`: the stored value when the key is present (null included), else the default; a definition with no contract, used by `Lookup`, `HeaderEnabled` and `ChunkSize` |
| Rows.Lookup | src/Export.php:193 | a missing path gives null; a present path gives the record's value at it |
| Rows.Cells | src/Export.php:206 | the header row has one text cell per title, holding that title |
| Rows.HeaderEnabled | src/Export.php:205 | the header is on exactly when the config has no `header` entry or that entry is anything but boolean `false` |
| Rows.HeaderRow | src/Export.php:203-208 | at most one header row; none exactly when the config has `header` set to `false` (an absent or null entry keeps it); otherwise it holds the titles |
| Rows.Admit | src/Export.php:170-178 | with no callback the record is written as it is; with one, it is skipped exactly when the callback returns boolean `false`, and otherwise written as the callback left it |
| Rows.RecordRows | src/Export.php:169-197 | the rows `addCsvRows` writes for a collection, record by record; a definition with no contract, whose properties are the `Rows` lemmas below |
| Rows.Kept | src/Export.php:169-179 | every listed index is below the bound and names a record the callback does not skip |
| Rows.KeptEnumerates | src/Export.php:169-179 | the kept indices are strictly increasing, and every record the callback does not skip is listed |
| Rows.RecordRowsWidth | src/Export.php:191-196 | at most one row per record, and every row is as wide as the list of data paths |
| Rows.RecordRowsAppend | src/Export.php:169-197 | the rows of two collections one after the other are the rows of the first followed by those of the second |
| Rows.RecordRowsOne | src/Export.php:169-196 | a single record gives no row when its callback returns exactly `false`, else the row of the record as the callback left it |
| Rows.RecordRowsPrefixStep | src/Export.php:169-197 | each loop step adds nothing for a skipped record and exactly that record's row otherwise |
| Rows.RowsFollowKept | src/Export.php:169-197 | the rows of the first k records are, in order, the rows of the kept records among them, one each |
| Rows.KeptRowCells | src/Export.php:169-197 | over a whole collection, row m holds, cell by cell, the lookups of the data paths in the m-th kept record, and every row has one cell per path |
| Rows.RecordRowsFrom | src/Export.php:169-197 | the rows of a collection split at any record into the rows before it, its own rows and the rows after it |
| Rows.SkipDropsRecord | src/Export.php:173-178 | a record whose callback returns exactly `false` changes nothing: the output equals that of the collection without it |
| Rows.KeepAddsRow | src/Export.php:173-196 | a record whose callback returns anything but exactly `false` (null included) adds exactly its row, as the callback left it, between the rows before and after it |
| Rows.NoHookOneRowPerRecord | src/Export.php:169-197 | with no callback there is exactly one row per record, row i being record i's |
| Chunks.Paginate | src/Export.php:81 | reference paging: the pages concatenate back to the records, none is empty, none exceeds the page size, and all but the last are full |
| Chunks.ChunkSize | src/Export.php:76 | the page size is the config's `chunk` entry when present and 1000 when absent |
| Chunks.AdmitPage | src/Export.php:82-86 | with no page callback the page is written as it is; with one, it is skipped exactly when the callback returns boolean `false`, and otherwise written as the callback left it |
| Chunks.PageRows | src/Export.php:82-88 | the rows the per-page closure writes: none for a skipped page, else the rows of the page as a collection; a definition with no contract |
| Chunks.ChunkRows | src/Export.php:81-89 | the rows written for a sequence of pages, page after page; a definition with no contract, whose properties are the `Chunks` lemmas below |
| Chunks.ChunkRowsWidth | src/Export.php:81-89 | every row written over any pages is as wide as the list of data paths |
| Chunks.ChunkRowsAppend | src/Export.php:81-89 | the rows of two page sequences one after the other are the rows of the first followed by those of the second |
| Chunks.ChunkRowsPrefixStep | src/Export.php:81-89 | each page adds exactly its own rows after those of the pages before it |
| Chunks.ChunkRowsFrom | src/Export.php:81-89 | the rows over pages split at any page into the rows before it, its own rows and the rows after it |
| Chunks.SkippedPageDropsOnlyItsRows | src/Export.php:82-86 | a page whose callback returns exactly `false` writes nothing, and the pages before and after it are written unchanged and in order |
| Chunks.KeptPageWritesItsRecords | src/Export.php:84-88 | any other page is written as a collection, from the page as the callback left it, in its place |
| Chunks.NoPageHookFlattens | src/Export.php:81-89 | with no page callback the rows over pages equal the rows of all their records as one collection |
| Chunks.PagingPreservesRows | src/Export.php:76-89 | paging a result set at any positive size, with no page callback, writes the same rows as exporting it whole |
| Scenarios.TenRecordsPaging | tests/Laracsv/ExportTest.php:97-112 | the page size is `chunk` when configured and 1000 when absent; ten records form two pages of 5 at size 5 and a single page at size 1000 |
| Output.BuildOutputShape | src/Export.php:57-65 | a build writes the header first (unless `header` is exactly `false`), then one row per kept record, in order, each as wide as the field spec and holding that record's value for each data path |
| Output.HeaderToggle | tests/Laracsv/ExportTest.php:315-329 | turning the header off removes exactly the first row and leaves every data row as it was |
| Output.BuilderMatchesBuild | src/Export.php:72-92 | a builder export with no page callback writes what a build of all its records writes |
| Output.BuildOutput | src/Export.php:57-65 | what one `build` call appends: the header row, if enabled, then the collection's rows; a definition with no contract, whose properties are `Output.BuildOutputShape` and `Output.HeaderToggle` |
| Output.BuilderOutput | src/Export.php:72-92 | what one `buildFromBuilder` call appends: the header row, if enabled, then the rows of each page; a definition with no contract, related to `build` by `Output.BuilderMatchesBuild` |
| Scenarios.FiveRecordsSecondSkipped | tests/Laracsv/ExportTest.php:46-71 | five records of which the second is skipped give four rows: those of records 1, 3, 4 and 5, in that order |
| Scenarios.SkipIdTwoSetsColumns | tests/Laracsv/ExportTest.php:53-59 | the test callback keeps every record whose id is not 2, sets `price` to 30 and `custom_field` to `Test Value`, and leaves `id` unchanged |
| Scenarios.SkipIdTwoRows | tests/Laracsv/ExportTest.php:46-71 | with the test callback the five products give four rows, and the second is product 3 carrying the values the callback set |
| Scenarios.SkipIdTwoExample | tests/Laracsv/ExportTest.php:46-71 | the before-each test writes five lines, and the third is product 3 with price 30 and custom field `Test Value` |
| Laracsv.Export.constructor | src/Export.php:47-50 | the exporter starts with the given writer's rows, or an empty writer, with no callbacks set |
| Laracsv.Export.Build | src/Export.php:57-65 | stores the config, returns the same object, keeps the earlier rows as a prefix and appends exactly the header row and the collection's rows |
| Laracsv.Export.BuildFromBuilder | src/Export.php:72-92 | stores the config, asks the builder for pages of the configured chunk size, keeps the earlier rows as a prefix and appends the header row and then the rows of each page in turn |
| Laracsv.Export.ForEachChunk | src/Export.php:81-89 | the page loop appends, page after page, what each page writes |
| Laracsv.Export.AddChunk | src/Export.php:81-89 | the per-page closure appends nothing when the page callback returns exactly `false`, else the rows of the page as the callback left it |
| Laracsv.Export.BeforeEach | src/Export.php:107-112 | replaces the record callback with the given one, writes no row and returns the same object |
| Laracsv.Export.BeforeEachChunk | src/Export.php:117-122 | replaces the page callback with the given one, writes no row and returns the same object |
| Laracsv.Export.GetDataFields | src/Export.php:143-152 | the loop that overwrites each string-keyed entry's value with its key yields one path per entry, each the entry's source path |
| Laracsv.Export.AddCsvRows | src/Export.php:167-198 | the record loop appends exactly the rows of the records the callback does not skip, in order |
| Laracsv.Export.ProjectRow | src/Export.php:191-194 | the cell loop builds a row with one cell per data path, each the record's value at that path or null |
| Laracsv.Export.AddHeader | src/Export.php:203-208 | appends the header row unless the config's `header` entry is exactly `false`, and nothing else |

## Left out

- CSV serialisation is not modelled: quoting, escaping, delimiters, encoding and the text `insertOne` produces. The writer is the sequence of rows it accepted, so `CannotInsertRecord` never occurs.
- `download` is not modelled: it writes an HTTP or file response with a date-based name, which is I/O and reads a clock.
- `getReader` is not modelled: it re-parses the writer's text with the CSV library.
- `getWriter` is not modelled: it only returns the writer, and the writer here is the `rows` field.
- `Arr::accessible`, `collect` and Eloquent `toArray()` are not modelled (src/Export.php:181-189). This includes the casting of dates and enums to strings. A record is taken to be already a string-keyed map of scalars.
- `Arr::get` is modelled as a plain key lookup. Dotted paths into nested arrays or relations are not modelled.
- The ORM's `Builder::chunk` and database access are not modelled. The builder is a function parameter from the chunk size to the pages it yields. `Chunks.Paginate` is a reference paging for positive sizes only; what the ORM does with a zero or negative `chunk` is not modelled.
- Some PHP array-key behaviour is not modelled. A numeric-string key such as `'5' => 'Name'` becomes an integer key and is treated as unnamed. Duplicate keys collapse. The field-entry datatype has neither case.
- Floating-point cell values are not modelled; cells are null, booleans, integers or strings.
- A callback that throws is not modelled.
- A callback that calls `beforeEach` or `beforeEachChunk` on the exporter while a build runs is not modelled. In the model, callbacks cannot reach the exporter, so the stored callback is the same for every record of a build.
- Rows.Admit: a callback is a function of the record alone. State a PHP closure carries from one call to the next (a counter captured by reference, say) is not captured, so the callback cannot return different results for equal records.
- Rows.Admit: in-place changes to an object that appears more than once in a collection are not captured. In PHP a callback that increments a repeated model's price writes a higher price on each occurrence; the model writes equal rows for equal records. Whether a change stays visible in the caller's collection afterwards is not modelled either.
- Chunks.AdmitPage: a page callback is likewise a function of the page alone; state carried across pages and in-place changes to objects shared between pages are not captured.
- Rows.SkipDropsRecord: compares one run of the record loop with runs over parts of the collection, so in PHP it holds only for callbacks whose result depends on the record alone; src/Export.php:170-174 calls the callback anew for each record, in order.
- Rows.RecordRowsAppend: compares one run of the record loop with runs over parts of the collection, so in PHP it holds only for callbacks whose result depends on the record alone; src/Export.php:170-174 calls the callback anew for each record, in order.
- Rows.RecordRowsFrom: compares one run of the record loop with runs over parts of the collection, so in PHP it holds only for callbacks whose result depends on the record alone; src/Export.php:170-174 calls the callback anew for each record, in order.
- Rows.KeepAddsRow: compares one run of the record loop with runs over parts of the collection, so in PHP it holds only for callbacks whose result depends on the record alone; src/Export.php:170-174 calls the callback anew for each record, in order.
- Chunks.ChunkRowsAppend: compares one run of the page loop with runs over parts of the pages, so in PHP it holds only for callbacks whose result depends on the page alone; src/Export.php:82-84 calls the callback anew for each page, in order.
- Chunks.ChunkRowsFrom: compares one run of the page loop with runs over parts of the pages, so in PHP it holds only for callbacks whose result depends on the page alone; src/Export.php:82-84 calls the callback anew for each page, in order.
- Chunks.SkippedPageDropsOnlyItsRows: compares one run of the page loop with runs over parts of the pages, so in PHP it holds only for callbacks whose result depends on the page alone; src/Export.php:82-84 calls the callback anew for each page, in order.
- Chunks.KeptPageWritesItsRecords: compares one run of the page loop with runs over parts of the pages, so in PHP it holds only for callbacks whose result depends on the page alone; src/Export.php:82-84 calls the callback anew for each page, in order.
