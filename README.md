# Ot_Report: a Dafny model of the report-to-sheet scripts

Ot_Report is four Python scripts: `Zip_20.py`, `Zip_c.py`, `Mt_20.py` and `Zip_21.py`. Each one logs in to an
Odoo server over JSON-RPC and runs a report wizard. It then downloads the XLSX file, reads its second tab,
cleans the table and pastes it into a Google Sheet. Then it adds the SUMPRODUCT rows that sum the odd and the
even data rows of every column from D on, and formats row 4 as dates. This project models the logic of those
scripts. That is:

- the column-name code `col_letter` (bijective base 26), in its three spellings;
- the four retry policies: the `retry` decorator, `with_retry`, `safe_update` and the rate-limit loop of
  `format_row4_as_date`;
- the checks on the server's replies: the CSRF regex, the `uid`/`id`/`report_name` checks and the download
  content-type check;
- the table clean-up: `head`, the re-formatting of the row at index 3 as `%d-%b-%y` dates, and the removal of
  infinities and missing values;
- the A1 range names, the formula rows, the Zip_20 grid and its 200-row chunks;
- the sequence of sheet requests each `paste_to_google_sheet` issues;
- Zip_21's `main` pipeline.

The files are:

- `text.dfy`: substring search, ASCII `lower()`, and `str(n)` for row numbers.
- `outcomes.dfy`: `Option`, exception classes, and `Outcome` (a value, or the exception raised).
- `column_letters.dfy`: `col_letter` and its inverse.
- `retry.dfy`: the retry policies. Each one takes the scripted outcome of each attempt. The sleeps are a
  returned log.
- `responses.dfy`: the reply checks.
- `cells.dfy`: the cell type and the clean-up.
- `layout.dfy`: A1 names, formula text, the grid and the chunk plan.
- `publish.dfy`: the paste steps and Zip_21's `main`. Each returns the requests it sends: `Clear`,
  `Update(range, values, mode)`, `DateFormat(range)` or `RepeatCellDate(grid)`. A request is logged when it
  takes effect; a call that raised is not logged.

Two observations come from the proofs. They are properties of the code as written, not claimed bugs:

- Zip_20 writes its two formula rows at sheet rows 85 and 86, although their variables are called
  `formulas_row_84` and `formulas_row_85`. Zip_c writes the same formulas at rows 84 and 85.
  See `Publish.Zip20Paste` and `Layout.Zip20SingleChunk`.
- Zip_20, Zip_c and Zip_21 all format sheet row 4 as dates. Each re-formats the data row at index 3 as date
  text, and that row lands on sheet row 5, because the header takes row 1.
  - Zip_20 writes header and data from A1 and formats `D4`; see `Publish.Zip20Paste`.
  - Zip_c does the same, and its repeatCell grid is rows 3..4 (zero-based); see `Publish.ZipCPaste` and
    `Layout.Row4RangeIsRepeatCellGrid`.
  - Zip_21 writes from A1 and formats `D4`; see `Publish.Zip21FormatsRowAboveDates`.
  - Mt_20 also formats row 4, but it does not re-format any data row as dates.
- Zip_21's end column `chr(64 + num_cols)` is right only up to 26 columns. From 27 on, it is not a capital
  letter (from 33 to 58 columns it is a lower-case one). The range built from it is then not the range of
  the data, and the upper-case A1 reader of this model rejects it. See `Publish.Zip21RangeInvalidBeyond26`.

## Model

| member | source | states |
|---|---|---|
| Text.ContainsIff | Zip_20.py:252-253 | Python's `sub in s` holds exactly when `sub` occurs at some index of `s` |
| Text.ContainsInfix | Zip_20.py:252-253 | a string contains any text it has in the middle |
| Text.Decimal | Zip_20.py:339-341 | `str(n)` is a non-empty digit string; it starts with '0' only for 0 |
| Text.DecimalRoundTrip | Zip_20.py:339-341 | reading back the numeral of a row number gives the number |
| Text.CanonicalIsDecimal | Zip_20.py:339-341 | every digit string without a leading zero is the numeral of its value |
| Text.DecimalInjective | Zip_20.py:339-341 | different row numbers give different numerals |
| ColumnLetters.ColLetter | Zip_20.py:295-301 | a column name is one or more capital letters; it is one letter exactly for indexes below 26 |
| ColumnLetters.ColIndexOfColLetter | Zip_20.py:295-301 | decoding a column's name gives back its index |
| ColumnLetters.ColLetterOfColIndex | Zip_20.py:295-301 | every non-empty capital-letter string is the name of the column it decodes to (the code is onto) |
| ColumnLetters.ColLetterInjective | Zip_20.py:295-301 | distinct columns have distinct names |
| ColumnLetters.ColLetterExamples | Zip_20.py:295-301 | 0, 25, 26, 27, 51, 52, 701 and 702 are named A, Z, AA, AB, AZ, BA, ZZ and AAA |
| ColumnLetters.ColLetterDivmod | Zip_20.py:295-301 | the `divmod` loop returns the column's name, and "" for a negative index; the name decodes to the index |
| ColumnLetters.ColLetterFloorDiv | Mt_20.py:275-281 | the `idx // 26 - 1` loop returns the same name as the `divmod` loop, for every integer |
| ColumnLetters.ShortcutEndLetter | Zip_21.py:154 | `chr(64 + num_cols)` is represented exactly below U+D800; the surrogate block and everything after it is not modelled |
| ColumnLetters.ShortcutAgreesUpTo26 | Zip_21.py:154 | for 1..26 columns `chr(64 + num_cols)` is the one-letter name of the last column |
| ColumnLetters.ShortcutFailsBeyond26 | Zip_21.py:154 | for 0 columns or more than 26 it is not a capital letter, while the true name has two or more letters |
| Retry.StopIndex | Zip_20.py:57-71 | the length of the leading run of attempts the policy retries |
| Retry.Attempts | Zip_20.py:57-71 | a policy allowing n attempts calls the function between 1 and n times (never, when n <= 0) |
| Retry.AttemptsStopAt | Zip_20.py:57-71 | if the first k attempts are retried and attempt k is not, exactly k+1 calls are made |
| Retry.AttemptsWhenAllRetried | Zip_20.py:57-71 | if every allowed attempt is retried, all n are made |
| Retry.WaitNonNegative | Zip_20.py:64-68 | an exponential wait with non-negative base and factor, plus jitter, is a valid sleep length |
| Retry.RetryDecorator | Zip_20.py:49-71 | `retry()`: the call count, the result (the first value, or the last exception re-raised), and one sleep `base*backoff^(i)+jitter` between calls, none after the last; every sleep length is non-negative |
| Retry.WithRetry | Zip_21.py:42-53 | `with_retry`: retries any exception; the same call count and result as the spec function; sleeps `base*2^i + jitter` with jitter in [0,2], never negative |
| Retry.SafeUpdate | Zip_20.py:321-333 | retries only APIErrors whose text holds "Quota exceeded"; re-raises any other exception; after max_attempts quota errors raises RuntimeError("Failed to update ..."); sleeps `2^i + jitter` after every quota error |
| Retry.RateLimitedRetry | Zip_c.py:247-261 | retries APIErrors mentioning 429 or quota, sleeping 2^(i+1); if every attempt is rate-limited it returns normally; any other error is re-raised |
| Responses.SearchFromSpec | Zip_20.py:94 | `re.search` from a position: None only when no position from there matches, otherwise the match at the leftmost matching position |
| Responses.GetCsrf | Zip_20.py:90-97 | a found token is non-empty and quote-free; otherwise RuntimeError("Could not extract CSRF token from /web") |
| Responses.GetCsrfIff | Zip_20.py:90-97 | the token is found exactly when the page holds `csrf_token <ws>:<ws>"<token>"` somewhere, and it is the first such match |
| Responses.GetCsrfOfAssignment | Zip_20.py:90-97 | a page starting with `csrf_token : "T"` yields exactly T |
| Responses.GetCsrfOfLeadingMatch | Zip_20.py:90-97 | a match at offset 0 is the one `re.search` returns |
| Responses.CheckContentType | Zip_20.py:251-254 | a rejected download raises the download-failed RuntimeError |
| Responses.CheckContentTypeIgnoresCase | Zip_20.py:251 | the check gives the same answer on a header and on its lower-case form |
| Responses.NeedlesAreLowerCase | Zip_20.py:252-253 | both accepted types are already lower case, so `.lower()` cannot hide them |
| Responses.CheckContentTypeAccepts | Zip_20.py:252-253 | any header containing the XLSX type or `application/octet-stream`, with any prefix or parameters, is accepted |
| Responses.CheckContentTypeRejects | Zip_20.py:251-254 | a missing header, or one naming neither type, raises |
| Responses.ResultField | Zip_20.py:82-84 | a returned field is truthy |
| Responses.ResultFieldIff | Zip_20.py:82-84 | the field is returned exactly when the reply is an object whose `result` object holds a truthy value under the key; a reply without `result` raises the step's RuntimeError |
| Responses.LoginUid | Zip_20.py:82-84 | `login` returns a truthy uid or raises |
| Responses.ReportName | Zip_20.py:206-208 | `call_button` returns a truthy report name or raises |
| Responses.WizardId | Zip_20.py:178-180 | `web_save` returns a truthy id or raises |
| Responses.WizardIdIff | Zip_20.py:178-180 | the id is returned exactly when `result` is a non-empty list whose first record holds a truthy id; an absent or empty `result` is "Wizard save failed" |
| Cells.Head | Zip_20.py:271 | `df.head(n)` is the prefix of length min(rows, n) |
| Cells.FormatDate | Zip_20.py:275 | `%d-%b-%y` text has nine characters with dashes at 2 and 6 |
| Cells.FormatDateRoundTrip | Zip_20.py:275 | reading the text back gives the day, the month and the year modulo 100 |
| Cells.ReformatRow4Spec | Zip_20.py:274-277 | fails (IndexError) exactly with fewer than four rows; otherwise only row 3 changes, each cell becoming its date text or "" for an unparsable cell |
| Cells.SanitizeCell | Zip_20.py:280 | infinities and missing values become "", everything else is kept |
| Cells.SanitizeSpec | Zip_20.py:280 | the shape is kept and each cell is sanitized |
| Cells.SanitizeIdempotent | Zip_20.py:280 | cleaning twice is cleaning once |
| Cells.FillMissingSpec | Mt_20.py:254 | shape kept; missing values become "", every other cell (infinities included) is kept |
| Cells.ZipCleanSpec | Zip_20.py:271-280 | the Zip_20/Zip_c/Zip_21 clean-up: IndexError iff fewer than 4 rows; at most 80 rows; widths kept; no infinity or missing value left; row 3 holds the date texts; every other cell is the sanitized original |
| Cells.ZipCleanOutcome | Zip_21.py:161-164 | the same failure condition and height, as the paste steps use them |
| Cells.MtCleanSpec | Mt_20.py:253-254 | at most 47 rows; widths kept; no missing value left; infinities kept; other cells unchanged |
| Layout.CellRefRoundTrip | Zip_20.py:339-341 | parsing `A1` text built from a column and a row gives them back |
| Layout.ParseCellRefSound | Zip_20.py:339-341 | whatever parses as a cell name is the name of the pair it parses to |
| Layout.RangeRoundTrip | Zip_20.py:339-341 | `C1R1:C2R2` parses to the grid rows R1-1..R2 and columns C1..C2+1, half-open |
| Layout.WindowGrid | Zip_20.py:304-311 | the `{L}{lo}:{L}{hi}` window text of a formula names exactly the one-column block of sheet rows lo..hi in that column |
| Layout.ParityWindowsPair | Zip_20.py:304-311 | the even window, one row below the odd window, sums exactly the rows right below the odd rows summed: each odd row has its even partner (a fact about row numbers; `Layout.WindowGrid` ties it to the window text) |
| Layout.FormulaRow | Zip_20.py:304-311 | one formula per column from D to the last column |
| Layout.Blank | Zip_20.py:314-316 | a row of n empty cells |
| Layout.FormulaColumn | Zip_20.py:304-307 | a formula names its own column, so the formula fixes the column |
| Layout.FormulaRowInjective | Zip_20.py:304-311 | the formulas of a row are pairwise distinct |
| Layout.ParityFormulaInjective | Zip_20.py:304-311 | different columns give different formulas |
| Layout.FormulaExample | Zip_20.py:304-311 | the exact text of the column-D odd and even formulas |
| Layout.FormulaBlockFits | Zip_c.py:318 | a formula range `D{top}:{last}{bottom}` ending in the last header column spans rows top..bottom over columns D to the last column |
| Layout.Zip20Grid | Zip_20.py:313-318 | header, then the data rows, then blank rows up to 84, then the two formula rows |
| Layout.ChunkCountSpec | Zip_20.py:336-337 | chunk k is sent exactly when 200k is below the number of rows |
| Layout.ChunkWrites | Zip_20.py:336-341 | the number of chunk writes is the ceiling of rows/200 |
| Layout.ChunksCover | Zip_20.py:336-341 | the chunks, in order, write every row exactly once; each has 1..200 rows, USER_ENTERED, at the range `A{start+1}:{last}{start+len}` |
| Layout.ChunkRangeBlock | Zip_20.py:339-341 | each chunk's range is the block of its own rows over all columns |
| Layout.Zip20SingleChunk | Zip_20.py:336-341 | an 86-row grid is sent as one write at `A1:{last}86` |
| Layout.Row4RangeIsRepeatCellGrid | Zip_c.py:323-343 | `D4:{last}4` names the same cells as the repeatCell grid rows 3..4, columns 3..num_cols |
| Layout.ZipCFormulaBlockFits | Zip_c.py:315-320 | the formula write covers rows 84-85 from D to the last column |
| Layout.MtFormulaRangeFits | Mt_20.py:290-292 | each Mt_20 formula write covers one row from D to the last column |
| Publish.SendInChunks | Zip_20.py:336-341 | the writes made are a prefix of the chunk plan, each confirmed by `safe_update`; success means all were made; a failure stops at the failing chunk with its error |
| Publish.SendChunk | Zip_20.py:337-341 | one pass of the chunk loop: the write is the planned write of that chunk, and the result is what `safe_update` ends with |
| Publish.Zip20Publish | Zip_20.py:288-345 | failed update: only the clear; otherwise clear, one write of the 86-row grid at `A1:{last}86` (formulas at rows 85-86), then the row-4 date format |
| Publish.Zip20Paste | Zip_20.py:269-345 | short table: IndexError and no request; otherwise the cleaned table goes out as `Publish.Zip20Publish` states |
| Publish.PasteFailuresUnderDecorator | Zip_20.py:49-71 | under `@retry()` the IndexError of a short table is not retried (one call), while safe_update's give-up error is |
| Publish.MalformedSaveNotRetried | Zip_20.py:134-180 | a `web_save` reply error is retried exactly when it is the RuntimeError check, not a TypeError/KeyError/AttributeError of a malformed reply |
| Publish.ZipCFormatOps | Zip_c.py:247-261 | at most one request, never a clear; the format request gets through only if some attempt is not rate-limited |
| Publish.ZipCFormulaWrites | Zip_c.py:306-321 | one formula write, never a clear, exactly when there is a column from D on |
| Publish.ZipCFormatRow4 | Zip_c.py:231-261 | the range is `D4:{col_letter(num_cols-1)}4`; result and request as the rate-limit retry decides |
| Publish.ZipCPublish | Zip_c.py:285-347 | never a clear: the A1 write, the formula block when there is a column from D on, the repeatCell date format, then the format calls; the result is what the rate-limit retry decides |
| Publish.ZipCPaste | Zip_c.py:264-347 | the cleaned table goes out as `Publish.ZipCPublish` states: no clear; the write at A1, the formula block at D84 when there are formula columns, the repeatCell date format, then the retried format call |
| Publish.MtWindows | Mt_20.py:287-288 | the windows Mt_20 spells out are the 7..47 and 8..48 windows |
| Publish.MtFormulaRows | Mt_20.py:283-288 | the append loop builds the odd 7..47 and even 8..48 formula rows for every column from D |
| Publish.MtFormulaWrites | Mt_20.py:283-292 | no write with 3 or fewer columns; otherwise the odd row at D51:{last}51 and the even row at D52:{last}52, both user-entered |
| Publish.MtFormatRow4 | Mt_20.py:232-248 | one date format per cell D4, E4, ... of row 4; with 3 or fewer columns the final print raises UnboundLocalError |
| Publish.MtPaste | Mt_20.py:251-296 | clear, RAW write at A1 of the cleaned table, the formula rows 51 and 52, then one format per row-4 cell; with 3 or fewer columns it stops with UnboundLocalError |
| Publish.Zip21Row4Range | Zip_21.py:152-155 | the range `D4:{chr(64+num_cols)}4`, when that character exists |
| Publish.Zip21RangeAgreesUpTo26 | Zip_21.py:152-155 | up to 26 columns it equals `D4:{col_letter(num_cols-1)}4` |
| Publish.Zip21RangeInvalidBeyond26 | Zip_21.py:152-155 | from 27 columns on it differs from the right range, and the model's upper-case A1 reader rejects it |
| Publish.Row4RangeInjective | Zip_20.py:345 | different end columns give different row-4 ranges |
| Publish.Zip21Paste | Zip_21.py:160-177 | short table: IndexError; the clear runs under `with_retry` and its failure ends the step; otherwise clear, USER_ENTERED write at A1, then the date format of row 4, logged only when it succeeds, whose outcome (an input) is the step's result; from 27 columns on, that format's range is rejected by the A1 reader |
| Publish.Zip21FormatsRowAboveDates | Zip_21.py:152-177 | the formatted range is grid row 3 (sheet row 4), while the re-formatted data row is written to grid row 4 |
| Publish.Zip21Publish | Zip_21.py:170-177 | a clear that fails under `with_retry` ends the step with no request; otherwise clear, the A1 write, and the row-4 format only when that call succeeds, whose outcome is the result; from 27 columns on, the format range is rejected |
| Publish.StageResult | Zip_21.py:180-190 | how a stage run under `with_retry` ends |
| Publish.RetriedStage | Zip_21.py:180-190 | one `with_retry(step)` call: its call count and result |
| Publish.NextStage | Zip_21.py:180-190 | after every earlier stage succeeded, the next stage runs once under `with_retry`; its result and call count are recorded |
| Publish.Zip21Main | Zip_21.py:180-190 | the seven retried stages run in order and stop at the first failure; `read_excel` runs once, unretried, between download and paste; the result is the first failure or the paste's result |

## Left out

- HTTP, JSON-RPC and the gspread, gspread-formatting and oauth2client libraries are not modelled. Each remote call is an `Outcome` passed in. The payloads, URLs, credentials and sheet names are constants with no logic.
- `pd.to_datetime` is an oracle passed in (`RowParser`), assumed to keep the row's length and return real dates. `pd.read_excel` is one outcome. Zip_c's parse has no explicit format; that only changes the oracle.
- Floating point is not modelled. Infinities and NaN are variants of the cell type. `str.lower()` is ASCII-only, which is enough for the needles compared.
- `time.sleep` and `random.uniform` become a returned sleep log and jitter parameters. `print` is left out.
- Sheet calls that the scripts do not retry (`ws.clear()` outside Zip_21, the plain `ws.update`s, `format_cell_range` in Zip_20, `set_number_format`, `batch_update`) are taken to succeed.
- `main` of Zip_20.py, Zip_c.py and Mt_20.py is not modelled as a pipeline. Its steps are the same calls in a row, and their retry behaviour is `Retry.RetryDecorator` (Zip_20) or a single call.
- Publish.Zip21Main: the values stages pass to each other (uid, token, id, report name, path) are abstracted to unit outcomes.
- Zip20Paste: the `@retry()` decorator re-running the whole paste is covered only by `Publish.PasteFailuresUnderDecorator`, not by re-running the request log.
- Publish.Zip21Paste and Publish.Zip21Publish require `64 + num_cols < 0xD800`. The surrogate block and everything after it is not modelled, because Dafny characters exclude surrogates. This is far past the sheet limit of 18,278 columns.
- Publish.Zip21Paste: whether Google Sheets accepts the `D4:{chr(64+num_cols)}4` range is not modelled. The format call's outcome is an input. The model only shows that its own reader rejects that range from 27 columns on.
- A1 names are read by an upper-case-only reader (`Layout.ParseRange`). Google Sheets' own parsing of lower-case or other names is not modelled.
- Retry.RetryDecorator requires a non-negative `base_delay` and `backoff`, and Retry.WithRetry a non-negative `base_sleep`. With negative values, `time.sleep` would raise ValueError; that path is not modelled. Every call site uses the defaults 2, 2 and 5.
- Responses.GetCsrf uses the error text of Zip_20, Zip_c and Mt_20. Zip_21 raises the same class with a shorter text. Likewise, Zip_21's "Report button failed" text differs from `Responses.ReportName`'s.
- Exception messages are kept only up to their fixed prefix. The f-string tails that append the reply, the status or the content type are dropped ("Login failed", "Wizard save failed", "Download failed", ...).
- Zip_21's `download_xlsx` has no content-type check, and the model does not apply one there.
- The in-place `df.iloc[3] = ...` assignment and the DataFrame are modelled as values (`seq<seq<Cell>>`). The header row is a plain list of cells.
- The number format pattern `dd-mm-yyyy` is implied by `DateFormat`/`RepeatCellDate` and not carried as text.
