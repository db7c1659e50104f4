/** The `paste_to_google_sheet` step of each script and the Zip_21.py `main`
    wiring, as the sequence of sheet requests they issue. Remote calls that a
    script retries take the outcomes of their attempts as input; the other
    sheet calls are logged and taken to succeed. The log lists the requests
    that took effect: a call that raised is not in it. */
module Publish {

  import opened Outcomes
  import opened Text
  import opened ColumnLetters
  import opened Retry
  import opened Responses
  import opened Cells
  import opened Layout

  // ---------------------------------------------------------------------
  // Zip_20.py
  // ---------------------------------------------------------------------

  /** `safe_update`'s default `max_attempts`. */
  const UpdateAttempts: nat := 5

  /** Enough scripted `ws.update` outcomes (and jitter in [0, 1]) for `chunks` chunks. */
  predicate QuotaPlan(outcomes: seq<seq<Outcome<()>>>, jitter: seq<seq<real>>, chunks: nat)
  {
    chunks <= |outcomes| && chunks <= |jitter| &&
    (forall k :: 0 <= k < chunks ==> UpdateAttempts <= |outcomes[k]| && UpdateAttempts <= |jitter[k]|) &&
    (forall k, i :: 0 <= k < chunks && 0 <= i < |jitter[k]| ==> 0.0 <= jitter[k][i] <= 1.0)
  }

  /** The chunk loop, Zip_20.py lines 336-341: one `safe_update` per 200
      rows. `outcomes[k]` and `jitter[k]` script the k-th chunk's attempts.
      The writes made are the planned chunk writes up to the first chunk whose
      `safe_update` fails, and that failure is the result. */
  method SendInChunks(values: Rows, last: string, outcomes: seq<seq<Outcome<()>>>, jitter: seq<seq<real>>)
    returns (result: Outcome<()>, writes: seq<SheetOp>)
    requires QuotaPlan(outcomes, jitter, |ChunkWrites(values, last)|)
    ensures |writes| <= |ChunkWrites(values, last)|
    ensures writes == ChunkWrites(values, last)[..|writes|]
    ensures forall k :: 0 <= k < |writes| ==> SafeUpdateResult(outcomes[k], UpdateAttempts).Ok?
    ensures result.Ok? ==> |writes| == |ChunkWrites(values, last)|
    ensures result.Err? ==> |writes| < |ChunkWrites(values, last)| &&
                            result == SafeUpdateResult(outcomes[|writes|], UpdateAttempts)
  {
    ghost var all := ChunkWrites(values, last);
    writes := [];
    var i := 0;
    while i < |values|
      invariant i == |writes| * ChunkSize
      invariant |writes| <= |all| && writes == all[..|writes|]
      invariant forall k :: 0 <= k < |writes| ==> SafeUpdateResult(outcomes[k], UpdateAttempts).Ok?
      decreases |values| - i
    {
      ChunkCountSpec(|values|, |writes|);
      QuotaPlanAt(outcomes, jitter, |all|, |writes|);
      var r, write := SendChunk(values, last, i, |writes|, outcomes[|writes|], jitter[|writes|]);
      if r.Err? {
        return r, writes;
      }
      assert SafeUpdateResult(outcomes[|writes|], UpdateAttempts).Ok?;
      PrefixSnoc(all, |writes|);
      writes := writes + [write];
      i := i + ChunkSize;
    }
    ChunkCountSpec(|values|, |writes|);
    assert all[..|writes|] == all;
    result := Ok(());
  }

  /** One pass of the chunk loop body, Zip_20.py lines 337-341: the rows
      `values[start:start+200]` go to `A{start+1}:{last}{end}` through
      `safe_update`. */
  method SendChunk(values: Rows, last: string, start: nat, ghost k: nat, outcomes: seq<Outcome<()>>, jitter: seq<real>)
    returns (result: Outcome<()>, write: SheetOp)
    requires start == k * ChunkSize && start < |values|
    requires UpdateAttempts <= |outcomes| && UpdateAttempts <= |jitter|
    requires forall j :: 0 <= j < |jitter| ==> 0.0 <= jitter[j] <= 1.0
    ensures result == SafeUpdateResult(outcomes, UpdateAttempts)
    ensures k < |ChunkWrites(values, last)| && write == ChunkWrites(values, last)[k]
  {
    ChunkCountSpec(|values|, k);
    ChunkWritesAt(values, last, k);
    var chunk := values[start..if start + ChunkSize < |values| then start + ChunkSize else |values|];
    var startRow := start + 1;
    var endRow := start + |chunk|;
    var range := "A" + Decimal(startRow) + ":" + last + Decimal(endRow);
    write := Update(range, chunk, UserEntered);
    var calls;
    ghost var sleeps;
    result, calls, sleeps := SafeUpdate(UpdateAttempts, outcomes, jitter);
  }

  /** The script of chunk `k` of a plan. */
  lemma QuotaPlanAt(outcomes: seq<seq<Outcome<()>>>, jitter: seq<seq<real>>, chunks: nat, k: nat)
    requires QuotaPlan(outcomes, jitter, chunks) && k < chunks
    ensures UpdateAttempts <= |outcomes[k]| && UpdateAttempts <= |jitter[k]|
    ensures forall j :: 0 <= j < |jitter[k]| ==> 0.0 <= jitter[k][j] <= 1.0
  {
  }

  lemma PrefixSnoc<T>(s: seq<T>, k: nat)
    requires k < |s|
    ensures s[..k + 1] == s[..k] + [s[k]]
  {
  }

  /** What Zip_20.py's `paste_to_google_sheet` does with the cleaned table
      (lines 288-345): clear the sheet, write the 86-row grid (header, data,
      blank padding to 84 rows, the odd formulas at sheet row 85 and the even
      ones at row 86) in a single chunk `A1:{last}86`, then format D4:{last}4
      as dates. A failed `safe_update` leaves only the clear. */
  method Zip20Publish(header: seq<Cell>, data: Rows, outcomes: seq<seq<Outcome<()>>>, jitter: seq<seq<real>>)
    returns (result: Outcome<()>, ops: seq<SheetOp>)
    requires |data| <= 80
    requires QuotaPlan(outcomes, jitter, 1)
    ensures SafeUpdateResult(outcomes[0], UpdateAttempts).Err? ==>
              result == SafeUpdateResult(outcomes[0], UpdateAttempts) && ops == [Clear]
    ensures SafeUpdateResult(outcomes[0], UpdateAttempts).Ok? ==>
              var last := ColName(|header| - 1);
              result == Ok(()) && |ops| == 3 && ops[0] == Clear &&
              ops[1].Update? && ops[1].range == "A1:" + last + "86" && ops[1].mode == UserEntered &&
              |ops[1].values| == 86 && Zip20GridShape(ops[1].values, header, data) &&
              ops[2] == DateFormat(Row4Range(last))
  {
    var values := Zip20Grid(header, data);
    var last := ColLetterDivmod(|header| - 1);
    Zip20SingleChunk(values, last);
    var r, writes := SendInChunks(values, last, outcomes, jitter);
    if r.Err? {
      assert writes == [];
      return r, [Clear];
    }
    assert writes == [Update("A1:" + last + "86", values, UserEntered)];
    ops := [Clear, writes[0], DateFormat(Row4Range(last))];
    result := Ok(());
  }

  /** One run of Zip_20.py's `paste_to_google_sheet` body (lines 269-345):
      clean the table, then publish it as `Zip20Publish` does. A table of
      fewer than four rows fails before anything is written. */
  method Zip20Paste(header: seq<Cell>, rows: Rows, parse: RowParser,
                    outcomes: seq<seq<Outcome<()>>>, jitter: seq<seq<real>>)
    returns (result: Outcome<()>, ops: seq<SheetOp>)
    requires WellBehaved(parse)
    requires QuotaPlan(outcomes, jitter, 1)
    ensures |rows| < 4 ==> result == Err(ShortTable) && ops == []
    ensures |rows| >= 4 && SafeUpdateResult(outcomes[0], UpdateAttempts).Err? ==>
              result == SafeUpdateResult(outcomes[0], UpdateAttempts) && ops == [Clear]
    ensures |rows| >= 4 && SafeUpdateResult(outcomes[0], UpdateAttempts).Ok? ==>
              var data := ZipClean(rows, parse).value;
              var last := ColName(|header| - 1);
              result == Ok(()) && |ops| == 3 && ops[0] == Clear &&
              ops[1].Update? && ops[1].range == "A1:" + last + "86" && ops[1].mode == UserEntered &&
              |ops[1].values| == 86 && Zip20GridShape(ops[1].values, header, data) &&
              ops[2] == DateFormat(Row4Range(last))
  {
    var clean := ZipClean(rows, parse);
    ZipCleanOutcome(rows, parse);
    if clean.Err? {
      return Err(clean.exc), [];
    }
    result, ops := Zip20Publish(header, clean.value, outcomes, jitter);
  }

  /** The default `retry` policy does not catch the IndexError of a short
      table, so that failure of the decorated paste ends it after one call,
      while a `safe_update` that gave up (RuntimeError) makes the decorator
      run the whole paste again. */
  lemma PasteFailuresUnderDecorator<T>(os: seq<Outcome<T>>, n: int)
    requires 1 <= n <= |os|
    ensures os[0] == Err(ShortTable) ==>
              Attempts(os, n, AllowedClasses(DefaultAllowed)) == 1
    ensures Retries(AllowedClasses(DefaultAllowed), UpdateGaveUp)
  {
    if os[0] == Err(ShortTable) {
      AttemptsStopAt(os, n, AllowedClasses(DefaultAllowed), 0);
    }
  }

  /** A malformed `web_save` reply (no dict, no list under "result") raises
      KeyError, TypeError or AttributeError, which the default `retry` policy
      lets through at once; only the falsy-id RuntimeError is retried. */
  lemma MalformedSaveNotRetried(res: Json)
    requires WizardId(res).Err?
    ensures Retries(AllowedClasses(DefaultAllowed), WizardId(res).exc) <==>
              WizardId(res).exc == Exc(RuntimeError, WizardSaveFailed)
  {
    WizardIdIff(res, JNull);
  }

  // ---------------------------------------------------------------------
  // Zip_c.py
  // ---------------------------------------------------------------------

  /** `format_row4_as_date`'s default `max_retries`. */
  const FormatRetries: nat := 5

  /** The format request `format_row4_as_date` gets through, if any: logged
      only when an attempt succeeds, so none when every attempt was
      rate-limited or one failed otherwise. */
  function ZipCFormatOps(numCols: int, outcomes: seq<Outcome<()>>): (r: seq<SheetOp>)
    requires FormatRetries <= |outcomes|
    ensures |r| <= 1 && Clear !in r
    ensures r != [] ==> !AllRetried(outcomes, FormatRetries, RateLimited)
  {
    if AllRetried(outcomes, FormatRetries, RateLimited) then []
    else if outcomes[Attempts(outcomes, FormatRetries, RateLimited) - 1].Ok? then [DateFormat(Row4Range(ColName(numCols - 1)))]
    else []
  }

  /** How `format_row4_as_date` ends: normally when every attempt was
      rate-limited, otherwise as the attempt that stopped the retries. */
  function ZipCFormatResult(outcomes: seq<Outcome<()>>): Outcome<()>
    requires FormatRetries <= |outcomes|
  {
    if AllRetried(outcomes, FormatRetries, RateLimited) then Ok(())
    else outcomes[Attempts(outcomes, FormatRetries, RateLimited) - 1]
  }

  /** `format_row4_as_date(ws, num_cols)`, Zip_c.py lines 231-261: formats
      exactly `D4:{col_letter(num_cols-1)}4`; returns normally when all five
      attempts were rate-limited and re-raises any other APIError. */
  method ZipCFormatRow4(numCols: int, outcomes: seq<Outcome<()>>)
    returns (result: Outcome<()>, ops: seq<SheetOp>)
    requires FormatRetries <= |outcomes|
    ensures result == ZipCFormatResult(outcomes)
    ensures ops == ZipCFormatOps(numCols, outcomes)
    ensures ops != [] ==> ops == [DateFormat("D4:" + ColName(numCols - 1) + "4")]
  {
    var start := ColLetterDivmod(StartCol);
    assert ColLetter(3) == "D";
    var end := ColLetterDivmod(numCols - 1);
    var cellRange := start + "4:" + end + "4";
    assert cellRange == Row4Range(end);
    var r, calls, sleeps := RateLimitedRetry(FormatRetries, outcomes);
    result := r;
    ops := if !AllRetried(outcomes, FormatRetries, RateLimited) && r.Ok? then [DateFormat(cellRange)] else [];
  }

  /** The formula write of Zip_c.py lines 306-321: both formula rows at
      D84:{last}85, when there is a column from D on. */
  function ZipCFormulaWrites(numCols: int): (r: seq<SheetOp>)
    ensures Clear !in r
    ensures |r| == if numCols > StartCol then 1 else 0
  {
    if numCols > StartCol
    then [Update(ZipCFormulaRange(ColLetter(numCols - 1)),
                 [FormulaRow(numCols, 7, 80, 1), FormulaRow(numCols, 8, 81, 0)], UserEntered)]
    else []
  }

  /** What Zip_c.py's `paste_to_google_sheet` does with the cleaned table
      (lines 285-347): the table goes to A1 without clearing the sheet
      first; the formula rows go to D84:{last}85 only when there is a column
      from D on; then the `repeatCell` request on rows [3, 4) and columns
      [3, num_cols), then `format_row4_as_date`. No request clears the sheet,
      so every cell outside the written ranges keeps its old content. */
  method ZipCPublish(header: seq<Cell>, data: Rows, formatOutcomes: seq<Outcome<()>>)
    returns (result: Outcome<()>, ops: seq<SheetOp>)
    requires FormatRetries <= |formatOutcomes|
    ensures Clear !in ops
    ensures ops == [Update("A1", [header] + data, UserEntered)] + ZipCFormulaWrites(|header|) +
                   [RepeatCellDate(Row4Grid(|header|))] + ZipCFormatOps(|header|, formatOutcomes)
    ensures result == ZipCFormatResult(formatOutcomes)
  {
    var values := [header] + data;
    ops := [Update("A1", values, UserEntered)];
    var numCols := |header|;
    var odd := FormulaRow(numCols, 7, 80, 1);
    var even := FormulaRow(numCols, 8, 81, 0);
    if |odd| > 0 {
      var endLetter := ColLetterDivmod(StartCol + |odd| - 1);
      ops := ops + [Update(ZipCFormulaRange(endLetter), [odd, even], UserEntered)];
    }
    assert ops == [Update("A1", values, UserEntered)] + ZipCFormulaWrites(numCols);
    ops := ops + [RepeatCellDate(Row4Grid(numCols))];
    var r, formatOps := ZipCFormatRow4(numCols, formatOutcomes);
    ghost var front := ops;
    assert Clear !in front;
    ops := ops + formatOps;
    result := r;
  }

  /** One run of Zip_c.py's `paste_to_google_sheet` (lines 262-347): clean
      the table, then publish it as `ZipCPublish` does. A table of fewer
      than four rows fails before any request. */
  method ZipCPaste(header: seq<Cell>, rows: Rows, parse: RowParser, formatOutcomes: seq<Outcome<()>>)
    returns (result: Outcome<()>, ops: seq<SheetOp>)
    requires WellBehaved(parse)
    requires FormatRetries <= |formatOutcomes|
    ensures Clear !in ops
    ensures |rows| < 4 ==> result == Err(ShortTable) && ops == []
    ensures |rows| >= 4 ==>
              var data := ZipClean(rows, parse).value;
              ops == [Update("A1", [header] + data, UserEntered)] + ZipCFormulaWrites(|header|) +
                     [RepeatCellDate(Row4Grid(|header|))] + ZipCFormatOps(|header|, formatOutcomes) &&
              result == ZipCFormatResult(formatOutcomes)
  {
    var clean := ZipClean(rows, parse);
    ZipCleanOutcome(rows, parse);
    if clean.Err? {
      return Err(clean.exc), [];
    }
    result, ops := ZipCPublish(header, clean.value, formatOutcomes);
  }

  // ---------------------------------------------------------------------
  // Mt_20.py
  // ---------------------------------------------------------------------

  /** The windows Mt_20.py lines 287-288 spell out are the 7..47 and 8..48 windows. */
  lemma MtWindows(letter: string)
    ensures letter + "7:" + letter + "47" == Window(letter, 7, 47)
    ensures letter + "8:" + letter + "48" == Window(letter, 8, 48)
  {
    assert Decimal(7) == "7" && Decimal(47) == "47";
    assert Decimal(8) == "8" && Decimal(48) == "48";
  }

  /** The two formulas Mt_20.py builds for a column are that column's odd
      formula on rows 7..47 and even formula on rows 8..48. */
  lemma MtFormulas(col: nat)
    ensures SumProduct(ColLetter(col) + "7:" + ColLetter(col) + "47", "1") == ParityFormula(col, 7, 47, 1)
    ensures SumProduct(ColLetter(col) + "8:" + ColLetter(col) + "48", "0") == ParityFormula(col, 8, 48, 0)
  {
    MtWindows(ColLetter(col));
    assert Decimal(1) == "1" && Decimal(0) == "0";
  }

  /** The append loop of Mt_20.py lines 283-288: one odd and one even
      formula per column 3..num_cols-1, in column order. */
  method MtFormulaRows(numCols: int) returns (row51: seq<Cell>, row52: seq<Cell>)
    ensures row51 == FormulaRow(numCols, 7, 47, 1)
    ensures row52 == FormulaRow(numCols, 8, 48, 0)
  {
    row51, row52 := [], [];
    for colIdx := StartCol to if numCols < StartCol then StartCol else numCols
      invariant row51 == FormulaRow(colIdx, 7, 47, 1)
      invariant row52 == FormulaRow(colIdx, 8, 48, 0)
    {
      var letter := ColLetterFloorDiv(colIdx);
      MtFormulas(colIdx);
      FormulaRowSnoc(colIdx, 7, 47, 1);
      FormulaRowSnoc(colIdx, 8, 48, 0);
      row51 := row51 + [Str(SumProduct(letter + "7:" + letter + "47", "1"))];
      row52 := row52 + [Str(SumProduct(letter + "8:" + letter + "48", "0"))];
    }
  }

  /** What the final `print` of Mt_20.py's `format_row4_as_date` raises when
      the loop never assigned `col_letter`. */
  const UnboundLetter := Exc(UnboundLocalError, "cannot access local variable 'col_letter' where it is not associated with a value")

  /** `format_row4_as_date(ws, num_cols)`, Mt_20.py lines 232-248: one
      single-cell date format per column 3..num_cols-1, in order, on
      `{L}4`; with three columns or fewer no call is made and the final
      print fails with UnboundLocalError. */
  method MtFormatRow4(numCols: int) returns (result: Outcome<()>, ops: seq<SheetOp>)
    ensures |ops| == if numCols <= StartCol then 0 else numCols - StartCol
    ensures forall k :: 0 <= k < |ops| ==> ops[k] == DateFormat(CellRef(k + StartCol, 4))
    ensures result == if numCols <= StartCol then Err(UnboundLetter) else Ok(())
  {
    ops := [];
    var colLetter: Option<string> := None;
    assert Decimal(4) == "4";
    for colIdx := StartCol to if numCols < StartCol then StartCol else numCols
      invariant |ops| == colIdx - StartCol
      invariant forall k :: 0 <= k < |ops| ==> ops[k] == DateFormat(CellRef(k + StartCol, 4))
      invariant colLetter.None? <==> colIdx == StartCol
    {
      var letter := ColLetterFloorDiv(colIdx);
      colLetter := Some(letter);
      var cellRange := letter + "4";
      ops := ops + [DateFormat(cellRange)];
    }
    if colLetter.None? {
      return Err(UnboundLetter), ops;
    }
    result := Ok(());
  }

  /** The formula rows of Mt_20.py lines 283-292: built for every column
      from D on and, when there is at least one, written to D51:{last}51 and
      D52:{last}52 as user-entered formulas. */
  method MtFormulaWrites(numCols: int) returns (writes: seq<SheetOp>)
    ensures numCols <= StartCol ==> writes == []
    ensures numCols > StartCol ==>
              var last := ColLetter(numCols - 1);
              writes == [Update(MtFormulaRange(last, 51), [FormulaRow(numCols, 7, 47, 1)], UserEntered),
                         Update(MtFormulaRange(last, 52), [FormulaRow(numCols, 8, 48, 0)], UserEntered)]
  {
    var row51, row52 := MtFormulaRows(numCols);
    writes := [];
    if |row51| > 0 {
      var last := ColLetterFloorDiv(StartCol + |row51| - 1);
      writes := writes + [Update(MtFormulaRange(last, 51), [row51], UserEntered)];
      writes := writes + [Update(MtFormulaRange(last, 52), [row52], UserEntered)];
    }
  }

  /** One run of Mt_20.py's `paste_to_google_sheet` (lines 251-296): the
      sheet is cleared, the header and the first 47 rows (missing values as
      "") go to A1 as RAW values, the odd and even formula rows go to
      D51:{last}51 and D52:{last}52 when there is a column from D on, and row
      4 is date-formatted cell by cell. */
  method MtPaste(header: seq<Cell>, rows: Rows) returns (result: Outcome<()>, ops: seq<SheetOp>)
    ensures |ops| >= 2 && ops[0] == Clear && ops[1] == Update("A1", [header] + MtClean(rows), Raw)
    ensures |header| <= StartCol ==> |ops| == 2 && result == Err(UnboundLetter)
    ensures |header| > StartCol ==>
              var last := ColLetter(|header| - 1);
              result == Ok(()) && |ops| == 4 + |header| - StartCol &&
              ops[2] == Update(MtFormulaRange(last, 51), [FormulaRow(|header|, 7, 47, 1)], UserEntered) &&
              ops[3] == Update(MtFormulaRange(last, 52), [FormulaRow(|header|, 8, 48, 0)], UserEntered) &&
              forall k :: 4 <= k < |ops| ==> ops[k] == DateFormat(CellRef(k - 4 + StartCol, 4))
  {
    var data := MtClean(rows);
    ops := [Clear];
    var values := [header] + data;
    ops := ops + [Update("A1", values, Raw)];
    var numCols := |header|;
    var formulas := MtFormulaWrites(numCols);
    ops := ops + formulas;
    var r, formatOps := MtFormatRow4(numCols);
    ghost var before := ops;
    ops := ops + formatOps;
    assert forall k :: |before| <= k < |ops| ==> ops[k] == formatOps[k - |before|];
    result := r;
  }

  // ---------------------------------------------------------------------
  // Zip_21.py
  // ---------------------------------------------------------------------

  /** `f"D4:{chr(64 + num_cols)}4"`, Zip_21.py lines 153-155, where the
      code point is a character. */
  function Zip21Row4Range(numCols: nat): Option<string>
  {
    match ShortcutEndLetter(numCols)
    case Some(c) => Some(Row4Range([c]))
    case None => None
  }

  /** Up to 26 columns the shortcut range is the D4:{col_letter(num_cols-1)}4
      range of the other scripts. */
  lemma Zip21RangeAgreesUpTo26(numCols: nat)
    requires 1 <= numCols <= 26
    ensures Zip21Row4Range(numCols) == Some(Row4Range(ColLetter(numCols - 1)))
  {
    ShortcutAgreesUpTo26(numCols);
  }

  /** From 27 columns on, the shortcut range differs from the right one and
      the upper-case A1 reader of this model rejects it: its end "cell"
      starts with a character that is not a capital letter. */
  lemma {:induction false} Zip21RangeInvalidBeyond26(numCols: nat)
    requires 26 < numCols && 64 + numCols < 0xD800
    ensures Zip21Row4Range(numCols).Some?
    ensures Zip21Row4Range(numCols) != Some(Row4Range(ColLetter(numCols - 1)))
    ensures ParseRange(Zip21Row4Range(numCols).value) == None
  {
    ShortcutFailsBeyond26(numCols);
    var c := ShortcutEndLetter(numCols).value;
    var s := Row4Range([c]);
    assert s == "D4:" + [c] + "4";
    assert s[3] == c;
    NextColonStopsAt(s, 0, 2);
    assert s[3..] == [c] + "4";
    LetterRunStopsAt(s[3..], 0, 0);
    Row4RangeInjective([c], ColLetter(numCols - 1));
  }

  lemma Row4RangeInjective(x: string, y: string)
    ensures Row4Range(x) == Row4Range(y) ==> x == y
  {
    var a, b := Row4Range(x), Row4Range(y);
    assert a[3..|a| - 1] == x && b[3..|b| - 1] == y;
  }

  /** What Zip_21.py's `paste_to_google_sheet` does with the cleaned table
      (lines 170-177): clear the sheet under `with_retry` (`clearOutcomes`,
      `clearJitter` script its attempts), write header and data at A1, then
      format `D4:{chr(64+num_cols)}4`. The re-formatted data row (index 3)
      is grid row 4, i.e. sheet row 5, while the format goes to sheet row 4.
      `formatOutcome` is how the unretried `format_cell_range` call ends; the
      format is logged only when that call succeeds. From 27 columns on, its
      range is rejected by the A1 reader of this model. */
  method Zip21Publish(header: seq<Cell>, data: Rows,
                      clearOutcomes: seq<Outcome<()>>, clearJitter: seq<real>, formatOutcome: Outcome<()>)
    returns (result: Outcome<()>, ops: seq<SheetOp>)
    requires 5 <= |clearOutcomes| && 5 <= |clearJitter|
    requires forall i :: 0 <= i < |clearJitter| ==> 0.0 <= clearJitter[i] <= 2.0
    requires 64 + |header| < 0xD800
    ensures WithRetryResult(clearOutcomes, 5).Err? ==>
              result == Err(WithRetryResult(clearOutcomes, 5).exc) && ops == []
    ensures WithRetryResult(clearOutcomes, 5).Ok? ==>
              result == formatOutcome &&
              ops == [Clear, Update("A1", [header] + data, UserEntered)] +
                     (if formatOutcome.Ok? then [DateFormat(Zip21Row4Range(|header|).value)] else []) &&
              (|data| >= 4 ==> ops[1].values[4] == data[3])
    ensures WithRetryResult(clearOutcomes, 5).Ok? && 26 < |header| ==>
              ParseRange(Zip21Row4Range(|header|).value) == None
  {
    var r, calls, sleeps := WithRetry(5, 5, clearOutcomes, clearJitter);
    if r.Err? {
      return Err(r.exc), [];
    }
    var values := [header] + data;
    var cellRange := Zip21Row4Range(|header|).value;
    ops := [Clear, Update("A1", values, UserEntered)];
    if formatOutcome.Ok? {
      ops := ops + [DateFormat(cellRange)];
    }
    if 26 < |header| {
      Zip21RangeInvalidBeyond26(|header|);
    }
    result := formatOutcome;
  }

  /** One run of Zip_21.py's `paste_to_google_sheet` (lines 160-177): clean
      the table, then publish it as `Zip21Publish` does. A table of fewer
      than four rows fails before any request. */
  method Zip21Paste(header: seq<Cell>, rows: Rows, parse: RowParser,
                    clearOutcomes: seq<Outcome<()>>, clearJitter: seq<real>, formatOutcome: Outcome<()>)
    returns (result: Outcome<()>, ops: seq<SheetOp>)
    requires WellBehaved(parse)
    requires 5 <= |clearOutcomes| && 5 <= |clearJitter|
    requires forall i :: 0 <= i < |clearJitter| ==> 0.0 <= clearJitter[i] <= 2.0
    requires 64 + |header| < 0xD800
    ensures |rows| < 4 ==> result == Err(ShortTable) && ops == []
    ensures |rows| >= 4 && WithRetryResult(clearOutcomes, 5).Err? ==>
              result == Err(WithRetryResult(clearOutcomes, 5).exc) && ops == []
    ensures |rows| >= 4 && WithRetryResult(clearOutcomes, 5).Ok? ==>
              var data := ZipClean(rows, parse).value;
              result == formatOutcome &&
              ops == [Clear, Update("A1", [header] + data, UserEntered)] +
                     (if formatOutcome.Ok? then [DateFormat(Zip21Row4Range(|header|).value)] else []) &&
              ops[1].values[4] == data[3]
    ensures |rows| >= 4 && WithRetryResult(clearOutcomes, 5).Ok? && 26 < |header| ==>
              ParseRange(Zip21Row4Range(|header|).value) == None
  {
    var clean := ZipClean(rows, parse);
    ZipCleanOutcome(rows, parse);
    if clean.Err? {
      return Err(clean.exc), [];
    }
    result, ops := Zip21Publish(header, clean.value, clearOutcomes, clearJitter, formatOutcome);
  }

  /** From 4 to 26 columns, Zip_21.py formats the cells of sheet row 4
      (zero-based row 3) from D on, while its re-formatted data row is grid
      row 4 of the write at A1, i.e. sheet row 5 (zero-based row 4). */
  lemma Zip21FormatsRowAboveDates(numCols: nat)
    requires StartCol < numCols <= 26
    ensures ParseRange(Zip21Row4Range(numCols).value) == Some(GridRange(3, 4, StartCol, numCols))
  {
    Zip21RangeAgreesUpTo26(numCols);
    Row4RangeIsRepeatCellGrid(numCols);
  }

  /** The remote steps `main` runs under `with_retry`: login, get_csrf,
      onchange, web_save, call_button, download_xlsx. */
  const RemoteSteps: nat := 6

  /** `with_retry`'s defaults: five attempts, base sleep 5 seconds. */
  const MainRetries: nat := 5
  const MainBaseSleep: nat := 5

  predicate MainPlan(steps: seq<seq<Outcome<()>>>, jitter: seq<seq<real>>)
  {
    |steps| == RemoteSteps + 1 && |jitter| == RemoteSteps + 1 &&
    (forall i :: 0 <= i < |steps| ==> MainRetries <= |steps[i]| && MainRetries <= |jitter[i]|) &&
    (forall i, j :: 0 <= i < |jitter| && 0 <= j < |jitter[i]| ==> 0.0 <= jitter[i][j] <= 2.0)
  }

  /** How a stage run under `with_retry` ends, its value dropped. */
  function StageResult(os: seq<Outcome<()>>): Outcome<()>
    requires MainRetries <= |os|
  {
    match WithRetryResult(os, MainRetries)
    case Ok(_) => Ok(())
    case Err(e) => Err(e)
  }

  /** `with_retry(step)` with its defaults, as `main` uses it: the stage's
      call count and how it ends. */
  method RetriedStage(os: seq<Outcome<()>>, js: seq<real>) returns (r: Outcome<()>, calls: nat)
    requires MainRetries <= |os| && MainRetries <= |js|
    requires forall j :: 0 <= j < |js| ==> 0.0 <= js[j] <= 2.0
    ensures calls == Attempts(os, MainRetries, AnyException)
    ensures r == StageResult(os)
  {
    var result, c, sleeps := WithRetry(MainRetries, MainBaseSleep, os, js);
    calls := c;
    r := if result.Ok? then Ok(()) else Err(result.exc);
  }

  /** Zip_21.py `main`, lines 180-190: the six remote steps and the paste
      each under `with_retry`, and `pd.read_excel` between them called once,
      unprotected. `steps[i]` scripts the attempts of the i-th retried stage
      (the paste is stage 6), `readOutcome` the one `read_excel` call.
      `calls` lists the calls each retried stage made, for the stages that
      ran: the run stops at the first stage that fails, and a failing
      `read_excel` ends it at once. */
  method Zip21Main(steps: seq<seq<Outcome<()>>>, jitter: seq<seq<real>>, readOutcome: Outcome<()>)
    returns (result: Outcome<()>, calls: seq<nat>)
    requires MainPlan(steps, jitter)
    ensures 1 <= |calls| <= RemoteSteps + 1
    ensures forall i :: 0 <= i < |calls| ==> calls[i] == Attempts(steps[i], MainRetries, AnyException)
    ensures forall i :: 0 <= i < |calls| - 1 ==> StageResult(steps[i]).Ok?
    ensures |calls| < RemoteSteps ==> StageResult(steps[|calls| - 1]).Err?
    ensures |calls| == RemoteSteps ==> StageResult(steps[RemoteSteps - 1]).Err? || readOutcome.Err?
    ensures |calls| == RemoteSteps + 1 ==> readOutcome.Ok?
    ensures result == if |calls| == RemoteSteps && StageResult(steps[RemoteSteps - 1]).Ok? then readOutcome
                      else StageResult(steps[|calls| - 1])
  {
    var r: Outcome<()>;
    calls := [];
    r, calls := NextStage(steps, jitter, calls);   // login
    if r.Err? {
      return r, calls;
    }
    r, calls := NextStage(steps, jitter, calls);   // get_csrf
    if r.Err? {
      return r, calls;
    }
    r, calls := NextStage(steps, jitter, calls);   // onchange
    if r.Err? {
      return r, calls;
    }
    r, calls := NextStage(steps, jitter, calls);   // web_save
    if r.Err? {
      return r, calls;
    }
    r, calls := NextStage(steps, jitter, calls);   // call_button
    if r.Err? {
      return r, calls;
    }
    r, calls := NextStage(steps, jitter, calls);   // download_xlsx
    if r.Err? {
      return r, calls;
    }
    if readOutcome.Err? {                            // pd.read_excel, not retried
      return readOutcome, calls;
    }
    result, calls := NextStage(steps, jitter, calls);  // paste_to_google_sheet
  }

  /** Runs the next stage of `main` under `with_retry`, after every earlier
      stage succeeded, and records its call count. */
  method NextStage(steps: seq<seq<Outcome<()>>>, jitter: seq<seq<real>>, calls: seq<nat>)
    returns (r: Outcome<()>, next: seq<nat>)
    requires MainPlan(steps, jitter) && |calls| < |steps|
    requires forall i :: 0 <= i < |calls| ==> StageResult(steps[i]).Ok?
    requires forall i :: 0 <= i < |calls| ==> calls[i] == Attempts(steps[i], MainRetries, AnyException)
    ensures r == StageResult(steps[|calls|])
    ensures |next| == |calls| + 1
    ensures forall i :: 0 <= i < |next| ==> next[i] == Attempts(steps[i], MainRetries, AnyException)
    ensures forall i :: 0 <= i < |next| - 1 ==> StageResult(steps[i]).Ok?
  {
    var c;
    r, c := RetriedStage(steps[|calls|], jitter[|calls|]);
    next := calls + [c];
  }
}
