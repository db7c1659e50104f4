/** The cells of the extracted table and the clean-up applied before the
    write: truncation to the first rows (`df.head(n)`), re-formatting of the
    data row at index 3 as `%d-%b-%y` dates, and replacement of infinities and
    missing values by the empty string. Floating point is not modelled: the
    special values are variants of the cell type. Date parsing
    (`pd.to_datetime(..., errors="coerce")`) is an oracle passed in. */
module Cells {

  import opened Outcomes
  import opened Text

  datatype Date = Date(year: int, month: int, day: int)

  predicate ValidDate(d: Date)
  {
    1 <= d.year <= 9999 && 1 <= d.month <= 12 && 1 <= d.day <= 31
  }

  /** One cell of the DataFrame (or one column label). */
  datatype Cell =
    | Str(s: string)
    | Num(x: real)
    | Stamp(d: Date)
    | PosInf      // float('inf')
    | NegInf      // float('-inf')
    | Missing     // NaN, None or NaT: what pd.notnull rejects

  type Rows = seq<seq<Cell>>

  /** `df.head(n)`: the first `n` rows. */
  function Head(rows: Rows, n: nat): (r: Rows)
    ensures |r| == if |rows| < n then |rows| else n
    ensures r == rows[..|r|]
  {
    if |rows| <= n then rows else rows[..n]
  }

  /** A row-wise date parser: `pd.to_datetime(row, errors="coerce")` gives,
      per cell, a date or NaT (None). */
  type RowParser = seq<Cell> -> seq<Option<Date>>

  /** The parser keeps the row's length and returns only real dates. */
  ghost predicate WellBehaved(parse: RowParser)
  {
    forall row :: |parse(row)| == |row| &&
      forall j :: 0 <= j < |row| && parse(row)[j].Some? ==> ValidDate(parse(row)[j].value)
  }

  const MonthAbbrev: seq<string> :=
    ["Jan", "Feb", "Mar", "Apr", "May", "Jun", "Jul", "Aug", "Sep", "Oct", "Nov", "Dec"]

  function TwoDigits(n: nat): (s: string)
    requires n < 100
    ensures |s| == 2 && AllDigits(s)
  {
    [DigitChar(n / 10), DigitChar(n % 10)]
  }

  /** `strftime("%d-%b-%y")` in the C locale, e.g. "05-Aug-25". */
  function FormatDate(d: Date): (s: string)
    requires ValidDate(d)
    ensures |s| == 9 && s[2] == '-' && s[6] == '-'
  {
    TwoDigits(d.day) + "-" + MonthAbbrev[d.month - 1] + "-" + TwoDigits(d.year % 100)
  }

  function DigitValue(c: char): int
  {
    c as int - '0' as int
  }

  /** The index of a month abbreviation, searching from `m`. */
  function MonthIndex(abbrev: string, m: nat): (r: Option<nat>)
    requires m <= 12
    ensures r.Some? ==> m <= r.value < 12 && MonthAbbrev[r.value] == abbrev
    ensures r.None? ==> forall i :: m <= i < 12 ==> MonthAbbrev[i] != abbrev
    decreases 12 - m
  {
    if m == 12 then None
    else if MonthAbbrev[m] == abbrev then Some(m)
    else MonthIndex(abbrev, m + 1)
  }

  /** The twelve abbreviations are distinct. */
  lemma MonthsDistinct(i: nat, j: nat)
    requires i < 12 && j < 12 && i != j
    ensures MonthAbbrev[i] != MonthAbbrev[j]
  {
    var a, b := MonthAbbrev[i], MonthAbbrev[j];
    assert |a| == 3;
    assert a[0] != b[0] || a[1] != b[1] || a[2] != b[2];
  }

  /** Reads a "dd-Mon-yy" string back into (day, month, two-digit year). */
  function ParseShortDate(s: string): Option<(int, int, int)>
  {
    if |s| != 9 || s[2] != '-' || s[6] != '-' || !AllDigits(s[..2]) || !AllDigits(s[7..]) then None
    else
      match MonthIndex(s[3..6], 0)
      case None => None
      case Some(m) =>
        Some((DigitValue(s[0]) * 10 + DigitValue(s[1]), m + 1, DigitValue(s[7]) * 10 + DigitValue(s[8])))
  }

  /** The formatted date keeps the day, the month and the year modulo 100. */
  lemma FormatDateRoundTrip(d: Date)
    requires ValidDate(d)
    ensures ParseShortDate(FormatDate(d)) == Some((d.day, d.month, d.year % 100))
  {
    var s := FormatDate(d);
    var abbrev := MonthAbbrev[d.month - 1];
    assert s[3..6] == abbrev;
    var r := MonthIndex(abbrev, 0);
    if r.Some? && r.value != d.month - 1 {
      MonthsDistinct(r.value, d.month - 1);
    }
    assert r == Some(d.month - 1);
    assert s[..2] == TwoDigits(d.day) && s[7..] == TwoDigits(d.year % 100);
  }

  /** One re-formatted cell: the date as "dd-Mon-yy", or "" where parsing failed. */
  function DateCell(parsed: Option<Date>): (c: Cell)
    requires parsed.Some? ==> ValidDate(parsed.value)
  {
    match parsed
    case Some(d) => Str(FormatDate(d))
    case None => Str("")
  }

  /** What `df.iloc[3]` raises on a table of fewer than four rows. */
  const ShortTable := Exc(IndexError, "single positional indexer is out-of-bounds")

  /** `df.iloc[3] = pd.to_datetime(df.iloc[3], ...).dt.strftime("%d-%b-%y").fillna("")`:
      the data row at index 3 becomes date strings; with fewer than four rows
      `df.iloc[3]` raises IndexError. */
  function ReformatRow4(rows: Rows, parse: RowParser): (r: Outcome<Rows>)
    requires WellBehaved(parse)
  {
    if |rows| <= 3 then Err(ShortTable)
    else
      var parsed := parse(rows[3]);
      Ok(rows[3 := seq(|rows[3]|, j requires 0 <= j < |rows[3]| => DateCell(parsed[j]))])
  }

  /** Re-formatting fails only on a table with fewer than four data rows; it
      changes no row but the one at index 3, keeps its width, and turns each of
      its cells into the formatted date or, where parsing failed, "". */
  lemma ReformatRow4Spec(rows: Rows, parse: RowParser)
    requires WellBehaved(parse)
    ensures ReformatRow4(rows, parse).Err? <==> |rows| < 4
    ensures ReformatRow4(rows, parse).Ok? ==>
              var r := ReformatRow4(rows, parse).value;
              |r| == |rows| &&
              (forall i :: 0 <= i < |rows| && i != 3 ==> r[i] == rows[i]) &&
              |r[3]| == |rows[3]| &&
              forall j :: 0 <= j < |r[3]| ==>
                r[3][j] == (if parse(rows[3])[j].Some? then Str(FormatDate(parse(rows[3])[j].value)) else Str("")) &&
                r[3][j].Str? && (|r[3][j].s| == 9 || r[3][j].s == "")
  {
  }

  /** `df.replace([inf, -inf], "")` on one cell. */
  function ReplaceInf(c: Cell): Cell
  {
    if c == PosInf || c == NegInf then Str("") else c
  }

  /** `.where(pd.notnull(df), "")` on one cell: the mask is taken from the
      frame before `replace`, as the expression evaluates `pd.notnull(df)` on
      the old binding of `df`. */
  function WhereNotNull(c: Cell, before: Cell): Cell
  {
    if before == Missing then Str("") else c
  }

  predicate Special(c: Cell)
  {
    c == PosInf || c == NegInf || c == Missing
  }

  /** The Zip_* clean-up of one cell. */
  function SanitizeCell(c: Cell): (r: Cell)
    ensures !Special(r)
    ensures Special(c) ==> r == Str("")
    ensures !Special(c) ==> r == c
  {
    WhereNotNull(ReplaceInf(c), c)
  }

  /** `df.replace([inf, -inf], "").where(pd.notnull(df), "")` (Zip_20.py, Zip_c.py, Zip_21.py). */
  function Sanitize(rows: Rows): Rows
  {
    seq(|rows|, i requires 0 <= i < |rows| => seq(|rows[i]|, j requires 0 <= j < |rows[i]| => SanitizeCell(rows[i][j])))
  }

  /** After the clean-up no infinity or missing value is left, every such cell
      became "", every other cell is unchanged, and the shape is kept. */
  lemma SanitizeSpec(rows: Rows)
    ensures |Sanitize(rows)| == |rows|
    ensures forall i :: 0 <= i < |rows| ==> |Sanitize(rows)[i]| == |rows[i]|
    ensures forall i, j :: 0 <= i < |rows| && 0 <= j < |rows[i]| ==>
              !Special(Sanitize(rows)[i][j]) &&
              Sanitize(rows)[i][j] == (if Special(rows[i][j]) then Str("") else rows[i][j])
  {
  }

  /** Cleaning twice is cleaning once. */
  lemma SanitizeIdempotent(rows: Rows)
    ensures Sanitize(Sanitize(rows)) == Sanitize(rows)
  {
    var s := Sanitize(rows);
    assert forall i :: 0 <= i < |s| ==> Sanitize(s)[i] == s[i];
  }

  /** `df.astype(object).where(pd.notnull(df), "")` (Mt_20.py): only missing
      values become ""; infinities stay. */
  function FillMissing(rows: Rows): Rows
  {
    seq(|rows|, i requires 0 <= i < |rows| => seq(|rows[i]|, j requires 0 <= j < |rows[i]| => WhereNotNull(rows[i][j], rows[i][j])))
  }

  /** Mt_20's clean-up removes every missing value and nothing else. */
  lemma FillMissingSpec(rows: Rows)
    ensures |FillMissing(rows)| == |rows|
    ensures forall i :: 0 <= i < |rows| ==> |FillMissing(rows)[i]| == |rows[i]|
    ensures forall i, j :: 0 <= i < |rows| && 0 <= j < |rows[i]| ==>
              FillMissing(rows)[i][j] != Missing &&
              FillMissing(rows)[i][j] == (if rows[i][j] == Missing then Str("") else rows[i][j])
  {
  }

  /** Rows kept by the Zip_* scripts (`df.head(80)`). */
  const ZipRowLimit: nat := 80
  /** Rows kept by Mt_20.py (`df.head(47)`). */
  const MtRowLimit: nat := 47

  /** The data clean-up of the Zip_* scripts (Zip_20.py lines 271-280, Zip_c.py
      lines 266-278, Zip_21.py lines 161-164): first 80 rows, row 3 as dates,
      then infinities and missing values to "". */
  function ZipClean(rows: Rows, parse: RowParser): Outcome<Rows>
    requires WellBehaved(parse)
  {
    match ReformatRow4(Head(rows, ZipRowLimit), parse)
    case Ok(r) => Ok(Sanitize(r))
    case Err(e) => Err(e)
  }

  /** The Zip_* clean-up fails exactly on tables of fewer than four rows; it
      keeps at most 80 rows; afterwards no infinity or missing value is left;
      row 3 holds the formatted dates (or "" where parsing failed); every
      other cell is the original one, cleaned. */
  lemma ZipCleanSpec(rows: Rows, parse: RowParser)
    requires WellBehaved(parse)
    ensures ZipClean(rows, parse).Err? <==> |rows| < 4
    ensures ZipClean(rows, parse).Err? ==> ZipClean(rows, parse).exc == ShortTable
    ensures ZipClean(rows, parse).Ok? ==>
              var r := ZipClean(rows, parse).value;
              |r| == (if |rows| < ZipRowLimit then |rows| else ZipRowLimit) &&
              (forall i :: 0 <= i < |r| ==> |r[i]| == |rows[i]|) &&
              (forall i, j :: 0 <= i < |r| && 0 <= j < |r[i]| ==> !Special(r[i][j])) &&
              (forall j :: 0 <= j < |r[3]| ==> r[3][j] == DateCell(parse(rows[3])[j])) &&
              (forall i, j :: 0 <= i < |r| && i != 3 && 0 <= j < |r[i]| ==> r[i][j] == SanitizeCell(rows[i][j]))
  {
    var h := Head(rows, ZipRowLimit);
    ReformatRow4Spec(h, parse);
    if |rows| >= 4 {
      var f := ReformatRow4(h, parse).value;
      SanitizeSpec(f);
      assert h[3] == rows[3];
      forall j | 0 <= j < |f[3]| ensures Sanitize(f)[3][j] == DateCell(parse(rows[3])[j]) {
        assert f[3][j] == DateCell(parse(h[3])[j]);
      }
      forall i, j | 0 <= i < |f| && i != 3 && 0 <= j < |f[i]|
        ensures Sanitize(f)[i][j] == SanitizeCell(rows[i][j])
      {
        assert f[i] == h[i] == rows[i];
      }
    }
  }

  /** The outcome and height of the Zip_* clean-up alone. */
  lemma ZipCleanOutcome(rows: Rows, parse: RowParser)
    requires WellBehaved(parse)
    ensures ZipClean(rows, parse).Err? <==> |rows| < 4
    ensures ZipClean(rows, parse).Err? ==> ZipClean(rows, parse).exc == ShortTable
    ensures ZipClean(rows, parse).Ok? ==>
              |ZipClean(rows, parse).value| == if |rows| < ZipRowLimit then |rows| else ZipRowLimit
  {
    ReformatRow4Spec(Head(rows, ZipRowLimit), parse);
  }

  /** The Mt_20.py clean-up, lines 253-254: first 47 rows, missing values to "". */
  function MtClean(rows: Rows): Rows
  {
    FillMissing(Head(rows, MtRowLimit))
  }

  /** Mt_20.py keeps at most 47 rows and removes every missing value, but
      leaves infinities in place and does not touch row 3's dates. */
  lemma MtCleanSpec(rows: Rows)
    ensures var r := MtClean(rows);
      |r| == (if |rows| < MtRowLimit then |rows| else MtRowLimit) &&
      (forall i :: 0 <= i < |r| ==> |r[i]| == |rows[i]|) &&
      (forall i, j :: 0 <= i < |r| && 0 <= j < |r[i]| ==>
         r[i][j] != Missing &&
         (r[i][j] == PosInf <==> rows[i][j] == PosInf) &&
         (r[i][j] == NegInf <==> rows[i][j] == NegInf) &&
         (rows[i][j] != Missing ==> r[i][j] == rows[i][j]))
  {
    var h := Head(rows, MtRowLimit);
    FillMissingSpec(h);
    assert forall i :: 0 <= i < |h| ==> h[i] == rows[i];
  }
}
