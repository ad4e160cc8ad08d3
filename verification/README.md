# RawDataETL: URL normaliser, table schema and request gate

A Dafny model of the decision logic of the `Fiscalismia_RawDataETL` lambda,
which downloads the hand-maintained "Finances" Google Sheet and turns its
embedded tables into tab-separated files. Three pieces are modelled:

- `clean_sheet_url` (module `SheetUrl`, file `clean_sheet_url.dfy`). It checks
  that a Google Sheets URL is present and names the spreadsheet host. It then
  rewrites a browser link (`/edit`, `/view`, `/pubhtml`) into a download link
  for the requested export type. A URL that already downloads that type is
  left alone.
- The table schema registry (module `DdlSchema`, file `ddl_schema.dfy`). These
  are the five table definitions: each has a column slice of the grid, its
  column names and the first-cell values that mark non-data rows. The two
  multi-section tables also have their "Date:" section rule. The registry is
  written as constants of a `TableDef` datatype, together with the
  well-formedness facts the extraction relies on.
- The request gate and URL block of the lambda handler (module `RawDataEtl`,
  file `index.dfy`).
  - `authenticate_request` makes a 422 / 403 / 200 decision.
  - The handler keeps its own copy of the URL check and rewrite, fixed to
    `xlsx`, and answers 400 instead of raising. That copy is proved to agree
    with `clean_sheet_url`.

The Python string operations are modelled in module `Strings`
(`strings.dfy`):
- `m in s` is `Contains`, the existence of an occurrence.
- `s.split(m)[0]` is `SplitHead`, the part before the first occurrence, or the
  whole string when there is none.
- `Option` and `Result` (`wrappers.dfy`) stand for Python's `None` and for a
  raised error.

Looked-up values become parameters:
- The two Secrets Manager lookups: the API key and the sheet URL entry.
- The already-parsed `Content-Length`.
- The handler's outcome is either a response or the URL it would download.

## Model

| member | source | states |
|---|---|---|
| `Strings.Contains` | functions/python/Fiscalismia_RawDataETL/clean_sheet_url.py:4-16 | Python's `m in s` is the existence of an occurrence; the empty string is in every string, and nothing longer than `s` is in it |
| `Strings.FindFrom` | functions/python/Fiscalismia_RawDataETL/clean_sheet_url.py:10-17 | the index found is an occurrence, no occurrence lies between the start index and it, and "none" means no occurrence at or after the start index |
| `Strings.FirstOccurrence` | functions/python/Fiscalismia_RawDataETL/clean_sheet_url.py:10-17 | a first occurrence exists exactly when the substring test holds, and it is the leftmost occurrence |
| `Strings.SplitHead` | functions/python/Fiscalismia_RawDataETL/clean_sheet_url.py:11 | `s.split(sep)[0]`: the whole string when `sep` is absent; otherwise a prefix that `sep` directly follows in `s`, with no earlier occurrence of `sep` in `s`; the result never contains `sep` |
| `SheetUrl.CleanSheetUrl` | functions/python/Fiscalismia_RawDataETL/clean_sheet_url.py:1-20 | fails with "missing" exactly for a `None` or empty URL (checked before the host), and with "malformed" (quoting the URL) exactly when the host marker is absent; a changed result happens only for a URL with no export marker, and is the cut at the first `/edit`, `/view` or `/pubhtml` plus the matching export suffix |
| `SheetUrl.Rewrite` | functions/python/Fiscalismia_RawDataETL/clean_sheet_url.py:11-17 | `url.split(marker)[0] + suffix` is the prefix up to the first occurrence of the marker followed by the suffix |
| `SheetUrl.CleanSheetUrlBranches` | functions/python/Fiscalismia_RawDataETL/clean_sheet_url.py:7-20 | on a valid URL: an export link is kept even if it also contains a browser marker; then `/edit`, then `/view` (both to `/export?format=<type>`), then `/pubhtml` (to `/pub?output=<type>`); a URL with no marker is kept |
| `SheetUrl.CleanedUrlIsExportLink` | functions/python/Fiscalismia_RawDataETL/clean_sheet_url.py:7-18 | every cleaned URL is a download link for the export type, unless it had no marker at all and came back unchanged |
| `SheetUrl.CleanSheetUrlIdempotent` | functions/python/Fiscalismia_RawDataETL/clean_sheet_url.py:4-18 | cleaning a cleaned URL returns it unchanged, provided it still contains the host marker |
| `SheetUrl.RewriteCanDropHost` | functions/python/Fiscalismia_RawDataETL/clean_sheet_url.py:4-11 | the proviso is needed: `x/editdocs.google.com/spreadsheets` cleans to `x/export?format=xlsx`, which fails the host check |
| `DdlSchema.DataStartsAfterHeader` | functions/python/Fiscalismia_RawDataETL/ddl_schema.py:16-17 | data begins on the row directly after the header row |
| `DdlSchema.VarExpensesWellFormed` | functions/python/Fiscalismia_RawDataETL/ddl_schema.py:21-35 | slice 1 to 9 is non-empty, has one distinct name per column, and skips its header label and `border` |
| `DdlSchema.InvestmentsWellFormed` | functions/python/Fiscalismia_RawDataETL/ddl_schema.py:39-56 | the same for slice 16 to 28 |
| `DdlSchema.NewFoodItemsWellFormed` | functions/python/Fiscalismia_RawDataETL/ddl_schema.py:60-73 | the same for slice 41 to 49 |
| `DdlSchema.FixedCostsWellFormed` | functions/python/Fiscalismia_RawDataETL/ddl_schema.py:78-94 | the same for slice 10 to 15; also its derived names are the two date fields and distinct from the column names, its `Date:` marker is not a skip marker, and its date offset lies inside the slice |
| `DdlSchema.IncomeWellFormed` | functions/python/Fiscalismia_RawDataETL/ddl_schema.py:99-114 | the same for slice 35 to 39 |
| `DdlSchema.TablesWellFormed` | functions/python/Fiscalismia_RawDataETL/ddl_schema.py:21-114 | every registered table is well-formed |
| `DdlSchema.TableWidths` | functions/python/Fiscalismia_RawDataETL/ddl_schema.py:21-114 | each table has as many names as its slice has columns: 8, 5, 12, 4 and 8 in sheet order |
| `DdlSchema.SlicesOrdered` | functions/python/Fiscalismia_RawDataETL/ddl_schema.py:19-114 | the slices lie left to right, and any two are disjoint |
| `DdlSchema.ColumnOwnerUnique` | functions/python/Fiscalismia_RawDataETL/ddl_schema.py:19-114 | a grid column belongs to at most one table |
| `DdlSchema.MultiSectionTables` | functions/python/Fiscalismia_RawDataETL/ddl_schema.py:75-114 | exactly fixed costs and income carry a date-section part, with marker `Date:` and offset 1 |
| `DdlSchema.OutputColumns` | functions/python/Fiscalismia_RawDataETL/ddl_schema.py:87-88 | a record's field names are the column names, plus the two derived date names for a multi-section table; for a multi-section table the last two are `effective_date` and `expiration_date`; there are width (+2) of them and they are pairwise distinct |
| `RawDataEtl.AuthenticateRequest` | functions/python/Fiscalismia_RawDataETL/index.py:18-44 | a payload (non-empty body or positive length) gives 422 whatever the token; otherwise a missing header, a missing key or a mismatch gives 403; the status is 200 exactly when there is no payload and the header equals the key |
| `RawDataEtl.MissingContentLengthIsZero` | functions/python/Fiscalismia_RawDataETL/index.py:19 | an absent `Content-Length` is decided like a length of 0 |
| `RawDataEtl.RewriteXlsx` | functions/python/Fiscalismia_RawDataETL/index.py:91-98 | the handler's inline chain returns the URL itself or a link that downloads `xlsx`; its agreement with `clean_sheet_url` is `RewriteXlsxAgrees` |
| `RawDataEtl.RewriteXlsxAgrees` | functions/python/Fiscalismia_RawDataETL/index.py:91-98 | the handler's inline rewrite equals `clean_sheet_url` with export type `xlsx` on every valid URL |
| `RawDataEtl.LambdaHandler` | functions/python/Fiscalismia_RawDataETL/index.py:69-139 | a non-200 gate response is returned unchanged; the handler downloads exactly when the gate passes, the URL entry exists and `clean_sheet_url` would succeed on it, and it downloads the cleaned URL; it answers 400 exactly when the gate passes and `clean_sheet_url` would fail; when the gate passes and the `GOOGLE_SHEETS_URL` key is absent, the `KeyError` becomes the generic 500 answer |

## Left out

- The grid-to-table extractor: row skipping and the "Date:" section propagation. The code contains no extractor; `extract_transform.py` only adds a timing entry and returns the workbook. The schema is modelled with the facts an extractor would rely on, but no extraction behaviour is modelled.
- Downloading the sheet, the S3 backup, loading the workbook and the 500 answer for a failed download (`index.py:100-133`), and `download_csv.py`, `download_xlsx.py`, `download_workbook.py`: network, storage and spreadsheet-library calls. `LambdaHandler` stops at the URL it would download.
- The Secrets Manager lookups (`index.py:25-29`, `80-83`). The API key and the URL entry are parameters, so a failing lookup is not modelled. A failure of the first lookup is raised from `authenticate_request`. That call sits before the handler's `try`, so the error escapes the handler uncaught. A failure of the second lookup is inside the `try` and would become the generic 500 answer. The one `except` case that is modelled is an absent `GOOGLE_SHEETS_URL` key.
- Logging, `log_debug_info`, the timing log (`add_time_analysis_entry`, `log_time_analysis`, `timedelta_analysis.py`) and the Berlin-time S3 key: clock, logger and global-list side effects with no bearing on the decisions.
- The `int(...)` parse of `Content-Length` (`index.py:19`, and again in `log_debug_info` at `index.py:51`), and a `headers` value of `None`. The length is taken as an already-parsed integer and the headers as present. A malformed length would raise before the handler's `try`, so that error escapes the handler uncaught rather than becoming a 500.
- Python truthiness of values that are not strings. The body, the URL and the header values are modelled as optional strings.
- `Strings.SplitHead` requires a non-empty separator. Python raises `ValueError` for an empty one, and the source only splits on constant markers.
- The other functions in the repository (image processing, the notification, throttling and destroy-trigger handlers, the sandbox). They are not part of this model.
