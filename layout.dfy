/** What the scripts write to the destination sheet, as pure values: A1-style
    cell and range names, the odd/even SUMPRODUCT formula rows, the padded
    grid of Zip_20.py, its 200-row chunks, and the log of sheet requests
    (`ws.clear`, `ws.update`, date formatting, `repeatCell`). A reader for A1
    names is given alongside, so that each written range can be stated as the
    block of cells it covers. */
module Layout {

  import opened Outcomes
  import opened Text
  import opened ColumnLetters
  import opened Cells

  // ---------------------------------------------------------------------
  // A1 names
  // ---------------------------------------------------------------------

  /** A block of cells, zero-based and half-open as in the Sheets API
      `GridRange` (`startRowIndex`, `endRowIndex`, `startColumnIndex`, `endColumnIndex`). */
  datatype GridRange = GridRange(startRow: int, endRow: int, startCol: int, endCol: int)

  /** The A1 name of the cell in zero-based column `col` and one-based row `row`. */
  function CellRef(col: nat, row: nat): string
  {
    ColLetter(col) + Decimal(row)
  }

  /** The end of the run of capital letters starting at `i`. */
  function LetterRun(s: string, i: nat): (j: nat)
    requires i <= |s|
    ensures i <= j <= |s| && (forall k :: i <= k < j ==> IsUpper(s[k]))
    ensures j < |s| ==> !IsUpper(s[j])
    decreases |s| - i
  {
    if i < |s| && IsUpper(s[i]) then LetterRun(s, i + 1) else i
  }

  /** Reads an A1 cell name: letters, then a canonical row number. */
  function ParseCellRef(s: string): Option<(int, int)>
  {
    var j := LetterRun(s, 0);
    if j == 0 || !Canonical(s[j..]) then None
    else Some((ColIndex(s[..j]), DigitsValue(s[j..])))
  }

  lemma {:induction false} LetterRunStopsAt(s: string, i: nat, j: nat)
    requires i <= j <= |s| && (forall k :: i <= k < j ==> IsUpper(s[k]))
    requires j < |s| ==> !IsUpper(s[j])
    ensures LetterRun(s, i) == j
    decreases j - i
  {
    if i < j {
      LetterRunStopsAt(s, i + 1, j);
    }
  }

  /** Reading a written cell name gives back its column and row, and every
      name the reader accepts is written that way: the two are inverse. */
  lemma CellRefRoundTrip(col: nat, row: nat)
    ensures ParseCellRef(CellRef(col, row)) == Some((col, row))
  {
    var l, d := ColLetter(col), Decimal(row);
    var s := l + d;
    assert s[..|l|] == l && s[|l|..] == d;
    LetterRunStopsAt(s, 0, |l|);
    ColIndexOfColLetter(col);
    DecimalRoundTrip(row);
  }

  lemma ParseCellRefSound(s: string)
    requires ParseCellRef(s).Some?
    ensures ParseCellRef(s).value.0 >= 0 && ParseCellRef(s).value.1 >= 0
    ensures s == CellRef(ParseCellRef(s).value.0, ParseCellRef(s).value.1)
  {
    var j := LetterRun(s, 0);
    ColLetterOfColIndex(s[..j]);
    CanonicalIsDecimal(s[j..]);
    assert s == s[..j] + s[j..];
  }

  /** The first ':' at or after `i`, or |s|. */
  function NextColon(s: string, i: nat): (j: nat)
    requires i <= |s|
    ensures i <= j <= |s| && (forall k :: i <= k < j ==> s[k] != ':')
    ensures j < |s| ==> s[j] == ':'
    decreases |s| - i
  {
    if i < |s| && s[i] != ':' then NextColon(s, i + 1) else i
  }

  /** Reads a range name "<cell>:<cell>" as the block of cells it spans. */
  function ParseRange(s: string): Option<GridRange>
  {
    var m := NextColon(s, 0);
    if m == |s| then None
    else
      match (ParseCellRef(s[..m]), ParseCellRef(s[m + 1..]))
      case (Some((c0, r0)), Some((c1, r1))) => Some(GridRange(r0 - 1, r1, c0, c1 + 1))
      case _ => None
  }

  lemma {:induction false} NextColonStopsAt(s: string, i: nat, j: nat)
    requires i <= j < |s| && (forall k :: i <= k < j ==> s[k] != ':') && s[j] == ':'
    ensures NextColon(s, i) == j
    decreases j - i
  {
    if i < j {
      NextColonStopsAt(s, i + 1, j);
    }
  }

  /** A cell name holds no ':'. */
  lemma NoColonInCellRef(col: nat, row: nat)
    ensures forall k :: 0 <= k < |CellRef(col, row)| ==> CellRef(col, row)[k] != ':'
  {
    var l, d := ColLetter(col), Decimal(row);
    forall k | 0 <= k < |l + d| ensures (l + d)[k] != ':' {
      if k < |l| {
        assert (l + d)[k] == l[k] && IsUpper(l[k]);
      } else {
        assert (l + d)[k] == d[k - |l|] && IsDigit(d[k - |l|]);
      }
    }
  }

  lemma SplitAtColon(a: string, b: string)
    requires forall k :: 0 <= k < |a| ==> a[k] != ':'
    ensures NextColon(a + ":" + b, 0) == |a|
    ensures (a + ":" + b)[..|a|] == a && (a + ":" + b)[|a| + 1..] == b
  {
    var s := a + ":" + b;
    assert forall k :: 0 <= k < |a| ==> s[k] == a[k];
    NextColonStopsAt(s, 0, |a|);
    assert s[..|a|] == a;
    assert s[|a| + 1..] == b;
  }

  /** The range from cell (c0, r0) to cell (c1, r1) spans rows r0..r1 and columns c0..c1. */
  lemma RangeRoundTrip(c0: nat, r0: nat, c1: nat, r1: nat)
    ensures ParseRange(CellRef(c0, r0) + ":" + CellRef(c1, r1)) == Some(GridRange(r0 - 1, r1, c0, c1 + 1))
  {
    NoColonInCellRef(c0, r0);
    CellRefRoundTrip(c0, r0);
    CellRefRoundTrip(c1, r1);
    ParseRangeOfCells(CellRef(c0, r0), CellRef(c1, r1), c0, r0, c1, r1);
  }

  /** Any text equal to the range from (c0, r0) to (c1, r1) is read as that block. */
  lemma RangeFrom(x: string, c0: nat, r0: nat, c1: nat, r1: nat)
    requires x == CellRef(c0, r0) + ":" + CellRef(c1, r1)
    ensures ParseRange(x) == Some(GridRange(r0 - 1, r1, c0, c1 + 1))
  {
    RangeRoundTrip(c0, r0, c1, r1);
  }

  lemma ParseRangeOfCells(a: string, b: string, c0: int, r0: int, c1: int, r1: int)
    requires forall k :: 0 <= k < |a| ==> a[k] != ':'
    requires ParseCellRef(a) == Some((c0, r0)) && ParseCellRef(b) == Some((c1, r1))
    ensures ParseRange(a + ":" + b) == Some(GridRange(r0 - 1, r1, c0, c1 + 1))
  {
    SplitAtColon(a, b);
  }

  // ---------------------------------------------------------------------
  // Sheet requests
  // ---------------------------------------------------------------------

  /** `value_input_option`: "RAW" or "USER_ENTERED". */
  datatype InputMode = Raw | UserEntered

  datatype SheetOp =
    | Clear                                           // ws.clear()
    | Update(range: string, values: Rows, mode: InputMode)  // ws.update(values, range_name, ...)
    | DateFormat(range: string)                       // format_cell_range / set_number_format, DATE dd-mm-yyyy
    | RepeatCellDate(grid: GridRange)                 // batch_update repeatCell, DATE dd-mm-yyyy

  // ---------------------------------------------------------------------
  // Formulas
  // ---------------------------------------------------------------------

  /** The first column that gets formulas and date formatting: D. */
  const StartCol: nat := 3

  /** `=SUMPRODUCT((MOD(ROW(Llo:Lhi),2)=p)*Llo:Lhi)` for the column `col`. */
  function ParityFormula(col: nat, lo: nat, hi: nat, parity: nat): string
  {
    SumProduct(Window(ColLetter(col), lo, hi), Decimal(parity))
  }

  /** `{L}{lo}:{L}{hi}` */
  function Window(letter: string, lo: nat, hi: nat): string
  {
    letter + Decimal(lo) + ":" + letter + Decimal(hi)
  }

  /** `=SUMPRODUCT((MOD(ROW({window}),2)={parity})*{window})` */
  function SumProduct(window: string, parity: string): string
  {
    "=SUMPRODUCT((MOD(ROW(" + window + "),2)=" + parity + ")*" + window + ")"
  }

  /** A formula's window in column `col` names exactly the one-column block of
      sheet rows lo..hi (zero-based rows [lo-1, hi)), the rows `SummedRows`
      ranges over. */
  lemma WindowGrid(col: nat, lo: nat, hi: nat)
    ensures ParseRange(Window(ColLetter(col), lo, hi)) == Some(GridRange(lo - 1, hi, col, col + 1))
  {
    assert Window(ColLetter(col), lo, hi) == CellRef(col, lo) + ":" + CellRef(col, hi);
    RangeFrom(Window(ColLetter(col), lo, hi), col, lo, col, hi);
  }

  /** The sheet rows a parity formula adds up: those of its window with the given parity. */
  ghost function SummedRows(lo: int, hi: int, parity: int): set<int>
  {
    set r | lo <= r <= hi && r % 2 == parity
  }

  /** The even window shifted one row down pairs each summed odd row with the
      row right below it: every "first measurement" row has its partner. */
  lemma ParityWindowsPair(lo: int, hi: int)
    ensures SummedRows(lo + 1, hi + 1, 0) == set r | r in SummedRows(lo, hi, 1) :: r + 1
  {
    var odd := SummedRows(lo, hi, 1);
    var even := SummedRows(lo + 1, hi + 1, 0);
    forall r | r in even ensures r in set q | q in odd :: q + 1 {
      assert r - 1 in odd;
    }
  }

  /** The formulas for columns D.. of a `numCols`-wide table (one per column
      index 3..numCols-1, in order): the list comprehensions of Zip_20.py and
      Zip_c.py and the append loop of Mt_20.py. */
  function FormulaRow(numCols: int, lo: nat, hi: nat, parity: nat): (r: seq<Cell>)
    ensures |r| == if numCols <= StartCol then 0 else numCols - StartCol
  {
    seq(if numCols <= StartCol then 0 else numCols - StartCol,
        k requires 0 <= k => Str(ParityFormula(k + StartCol, lo, hi, parity)))
  }

  /** One more column adds that column's formula at the end of the row. */
  lemma FormulaRowSnoc(numCols: int, lo: nat, hi: nat, parity: nat)
    requires numCols >= StartCol
    ensures FormulaRow(numCols + 1, lo, hi, parity) == FormulaRow(numCols, lo, hi, parity) + [Str(ParityFormula(numCols, lo, hi, parity))]
  {
    var a, b := FormulaRow(numCols + 1, lo, hi, parity), FormulaRow(numCols, lo, hi, parity);
    assert forall k :: 0 <= k < |b| ==> a[k] == b[k];
  }

  /** `[""] * n` */
  function Blank(n: nat): (r: seq<Cell>)
    ensures |r| == n && forall i :: 0 <= i < n ==> r[i] == Str("")
  {
    seq(n, _ => Str(""))
  }

  /** A run of capital letters between a prefix and a non-letter is read back whole. */
  lemma LettersBetween(pre: string, l: string, rest: string)
    requires AllUpper(l) && |rest| >= 1 && !IsUpper(rest[0])
    ensures LetterRun(pre + l + rest, |pre|) == |pre| + |l|
    ensures (pre + l + rest)[|pre|..|pre| + |l|] == l
  {
    var t := pre + l + rest;
    assert forall k :: |pre| <= k < |pre| + |l| ==> t[k] == l[k - |pre|];
    assert t[|pre| + |l|] == rest[0];
    LetterRunStopsAt(t, |pre|, |pre| + |l|);
    assert t[|pre|..|pre| + |l|] == l;
  }

  /** The formula's column can be read back from the formula text. */
  lemma FormulaColumn(col: nat, lo: nat, hi: nat, parity: nat)
    ensures var f := ParityFormula(col, lo, hi, parity);
            21 <= LetterRun(f, 21) <= |f| && ColIndex(f[21..LetterRun(f, 21)]) == col
  {
    var l := ColLetter(col);
    var tail := FormulaTail(l, Decimal(lo), Decimal(hi), Decimal(parity));
    FormulaSplit(l, Decimal(lo), Decimal(hi), Decimal(parity));
    assert tail[0] == Decimal(lo)[0];
    LettersBetween("=SUMPRODUCT((MOD(ROW(", l, tail);
    ColIndexOfColLetter(col);
  }

  /** What follows the first column letters of a formula. */
  function FormulaTail(l: string, d1: string, d2: string, p: string): string
  {
    d1 + ":" + l + d2 + "),2)=" + p + ")*" + (l + d1 + ":" + l + d2) + ")"
  }

  lemma FormulaSplit(l: string, d1: string, d2: string, p: string)
    ensures SumProduct(l + d1 + ":" + l + d2, p)
         == "=SUMPRODUCT((MOD(ROW(" + l + FormulaTail(l, d1, d2, p)
  {
  }

  /** Distinct columns get distinct formulas. */
  lemma FormulaRowInjective(numCols: int, lo: nat, hi: nat, parity: nat, k1: nat, k2: nat)
    requires k1 < k2 < |FormulaRow(numCols, lo, hi, parity)|
    ensures FormulaRow(numCols, lo, hi, parity)[k1] != FormulaRow(numCols, lo, hi, parity)[k2]
  {
    var row := FormulaRow(numCols, lo, hi, parity);
    assert row[k1] == Str(ParityFormula(k1 + StartCol, lo, hi, parity));
    assert row[k2] == Str(ParityFormula(k2 + StartCol, lo, hi, parity));
    ParityFormulaInjective(k1 + StartCol, k2 + StartCol, lo, hi, parity);
  }

  lemma ParityFormulaInjective(c1: nat, c2: nat, lo: nat, hi: nat, parity: nat)
    requires c1 != c2
    ensures ParityFormula(c1, lo, hi, parity) != ParityFormula(c2, lo, hi, parity)
  {
    FormulaColumn(c1, lo, hi, parity);
    FormulaColumn(c2, lo, hi, parity);
  }

  /** The example of a 47-row window: the odd formula for column D. */
  lemma FormulaExample()
    ensures ParityFormula(3, 7, 47, 1) == "=SUMPRODUCT((MOD(ROW(D7:D47),2)=1)*D7:D47)"
    ensures ParityFormula(3, 8, 48, 0) == "=SUMPRODUCT((MOD(ROW(D8:D48),2)=0)*D8:D48)"
  {
    assert ColLetter(3) == "D";
    DecimalExamples();
    WindowExamples();
    SumProductExamples();
  }

  lemma SumProductExamples()
    ensures SumProduct("D7:D47", "1") == "=SUMPRODUCT((MOD(ROW(D7:D47),2)=1)*D7:D47)"
    ensures SumProduct("D8:D48", "0") == "=SUMPRODUCT((MOD(ROW(D8:D48),2)=0)*D8:D48)"
  {
  }

  lemma DecimalExamples()
    ensures Decimal(0) == "0" && Decimal(1) == "1" && Decimal(7) == "7" && Decimal(8) == "8"
    ensures Decimal(47) == "47" && Decimal(48) == "48"
  {
  }

  lemma WindowExamples()
    ensures Window("D", 7, 47) == "D7:D47" && Window("D", 8, 48) == "D8:D48"
  {
    DecimalExamples();
  }

  // ---------------------------------------------------------------------
  // The Zip_20.py grid and its chunks
  // ---------------------------------------------------------------------

  /** Rows before the formula rows in the Zip_20.py grid. */
  const PadTo: nat := 84
  /** Rows per `ws.update` call in Zip_20.py. */
  const ChunkSize: nat := 200

  /** The grid of Zip_20.py lines 304-318: the header, the data rows, blank
      rows of width `num_cols` up to 84 rows, then 3 blanks followed by the
      odd formulas (window 7..80) and 3 blanks followed by the even ones
      (window 8..81). `num_cols` is the header's width. */
  predicate Zip20GridShape(values: Rows, header: seq<Cell>, rows: Rows)
  {
    && |values| == (if 1 + |rows| < PadTo then PadTo else 1 + |rows|) + 2
    && values[0] == header
    && values[1..1 + |rows|] == rows
    && (forall i :: 1 + |rows| <= i < |values| - 2 ==> values[i] == Blank(|header|))
    && values[|values| - 2] == Blank(StartCol) + FormulaRow(|header|, 7, 80, 1)
    && values[|values| - 1] == Blank(StartCol) + FormulaRow(|header|, 8, 81, 0)
  }

  /** Builds the grid: 86 rows when the data fits in 80. */
  method Zip20Grid(header: seq<Cell>, rows: Rows) returns (values: Rows)
    ensures Zip20GridShape(values, header, rows)
    ensures |rows| <= 80 ==> |values| == 86
  {
    var numCols := |header|;
    var odd := FormulaRow(numCols, 7, 80, 1);
    var even := FormulaRow(numCols, 8, 81, 0);
    values := [header] + rows;
    var fullOdd := Blank(StartCol) + odd;
    var fullEven := Blank(StartCol) + even;
    var pad := if |values| < PadTo then PadTo - |values| else 0;
    values := values + seq(pad, _ => Blank(numCols));
    values := values + [fullOdd];
    values := values + [fullEven];
  }

  /** `A{start+1}:{last}{start+len}`: the range of a chunk of `len` rows that begins after `start` rows. */
  function ChunkRange(start: nat, len: nat, last: string): string
  {
    "A" + Decimal(start + 1) + ":" + last + Decimal(start + len)
  }

  /** How many chunks `range(0, n, 200)` makes: ceil(n / 200). */
  function ChunkCount(n: nat): nat
  {
    (n + ChunkSize - 1) / ChunkSize
  }

  /** Chunk `k` starts inside the grid exactly when k is below the chunk count. */
  lemma ChunkCountSpec(n: nat, k: nat)
    ensures k < ChunkCount(n) <==> k * ChunkSize < n
  {
    var q := ChunkCount(n);
    assert q * ChunkSize <= n + ChunkSize - 1 < (q + 1) * ChunkSize;
    if k < q {
      assert k * ChunkSize <= (q - 1) * ChunkSize;
    } else {
      assert k * ChunkSize >= q * ChunkSize;
    }
  }

  /** The write of the chunk `values[start:start+200]`. */
  function ChunkAt(values: Rows, start: nat, last: string): SheetOp
    requires start < |values|
  {
    var end := if start + ChunkSize < |values| then start + ChunkSize else |values|;
    Update(ChunkRange(start, end - start, last), values[start..end], UserEntered)
  }

  /** The `ws.update` calls the chunk loop of Zip_20.py lines 336-341 plans:
      one per chunk start 0, 200, 400, ... below the grid height. */
  function ChunkWrites(values: Rows, last: string): (ws: seq<SheetOp>)
    ensures |ws| == ChunkCount(|values|)
  {
    seq(ChunkCount(|values|), k requires 0 <= k < ChunkCount(|values|) =>
      ChunkCountSpec(|values|, k);
      ChunkAt(values, k * ChunkSize, last))
  }

  /** All rows written by a sequence of writes, in order. */
  function Written(ws: seq<SheetOp>): Rows
  {
    if |ws| == 0 then []
    else (if ws[0].Update? then ws[0].values else []) + Written(ws[1..])
  }

  lemma WrittenAppend(a: seq<SheetOp>, b: seq<SheetOp>)
    ensures Written(a + b) == Written(a) + Written(b)
  {
    if |a| == 0 {
      assert a + b == b;
    } else {
      assert (a + b)[0] == a[0];
      assert (a + b)[1..] == a[1..] + b;
      WrittenAppend(a[1..], b);
    }
  }

  lemma WrittenSingle(op: SheetOp)
    ensures Written([op]) == if op.Update? then op.values else []
  {
    assert [op][1..] == [];
  }

  lemma WrittenSnoc(ws: seq<SheetOp>, m: nat)
    requires 1 <= m <= |ws|
    ensures Written(ws[..m]) == Written(ws[..m - 1]) + (if ws[m - 1].Update? then ws[m - 1].values else [])
  {
    assert ws[..m] == ws[..m - 1] + [ws[m - 1]];
    WrittenAppend(ws[..m - 1], [ws[m - 1]]);
    WrittenSingle(ws[m - 1]);
  }

  /** Chunk `k` writes rows [200k, min(200k + 200, n)). */
  lemma ChunkWritesAt(values: Rows, last: string, k: nat)
    requires k < ChunkCount(|values|)
    ensures k * ChunkSize < |values|
    ensures var s := k * ChunkSize;
            var e := if s + ChunkSize < |values| then s + ChunkSize else |values|;
            ChunkWrites(values, last)[k] == Update(ChunkRange(s, e - s, last), values[s..e], UserEntered)
  {
    ChunkCountSpec(|values|, k);
  }

  /** How many rows the first `m` chunks of `n` rows cover: 200·m, or all `n`. */
  function Covered(m: nat, n: nat): (r: nat)
    ensures r <= n
    ensures r == n || r == m * ChunkSize
  {
    if m * ChunkSize < n then m * ChunkSize else n
  }

  /** Appending the next slice to a prefix gives the longer prefix. */
  lemma PrefixExtend(values: Rows, s: nat, e: nat)
    requires s <= e <= |values|
    ensures values[..s] + values[s..e] == values[..e]
  {
  }

  /** The first `m` chunks write the first 200·m rows (or all of them). */
  lemma {:induction false} WrittenPrefix(values: Rows, last: string, m: nat)
    requires m <= ChunkCount(|values|)
    ensures Written(ChunkWrites(values, last)[..m]) == values[..Covered(m, |values|)]
  {
    var ws := ChunkWrites(values, last);
    if m == 0 {
      assert ws[..0] == [];
    } else {
      var s := (m - 1) * ChunkSize;
      var e := if s + ChunkSize < |values| then s + ChunkSize else |values|;
      ChunkWritesAt(values, last, m - 1);
      assert Covered(m - 1, |values|) == s;
      assert Covered(m, |values|) == e;
      WrittenPrefix(values, last, m - 1);
      WrittenSnoc(ws, m);
      PrefixExtend(values, s, e);
    }
  }

  /** The chunks are `USER_ENTERED` writes of 1 to 200 rows; together they
      write every row exactly once, in order; and each chunk's range starts
      on the row after the previous chunk's last row and spans as many rows
      as it holds. */
  lemma ChunksCover(values: Rows, last: string)
    ensures var ws := ChunkWrites(values, last);
      && Written(ws) == values
      && (forall k :: 0 <= k < |ws| ==>
            ws[k].Update? && ws[k].mode == UserEntered && 1 <= |ws[k].values| <= ChunkSize
            && ws[k].range == ChunkRange(|Written(ws[..k])|, |ws[k].values|, last))
  {
    var ws := ChunkWrites(values, last);
    var n := ChunkCount(|values|);
    WrittenPrefix(values, last, n);
    ChunkCountSpec(|values|, n);
    assert ws[..n] == ws;
    assert values[..|values|] == values;
    forall k | 0 <= k < |ws|
      ensures ws[k].Update? && ws[k].mode == UserEntered && 1 <= |ws[k].values| <= ChunkSize
      ensures ws[k].range == ChunkRange(|Written(ws[..k])|, |ws[k].values|, last)
    {
      ChunkWritesAt(values, last, k);
      WrittenPrefix(values, last, k);
      assert Covered(k, |values|) == k * ChunkSize;
    }
  }

  lemma ChunkRangeCells(start: nat, len: nat, col: nat)
    ensures ChunkRange(start, len, ColLetter(col)) == CellRef(0, start + 1) + ":" + CellRef(col, start + len)
  {
    assert CellRef(0, start + 1) == "A" + Decimal(start + 1);
  }

  /** A chunk's range names exactly the block of its rows across columns A to `num_cols - 1`. */
  lemma ChunkRangeBlock(start: nat, len: nat, numCols: nat)
    requires numCols >= 1
    ensures ParseRange(ChunkRange(start, len, ColLetter(numCols - 1))) == Some(GridRange(start, start + len, 0, numCols))
  {
    var c := numCols - 1;
    ChunkRangeCells(start, len, c);
    RangeFrom(ChunkRange(start, len, ColLetter(c)), 0, start + 1, c, start + len);
  }

  /** The 86-row Zip_20.py grid goes out as a single write of all rows to `A1:{last}86`. */
  lemma Zip20SingleChunk(values: Rows, last: string)
    requires |values| == 86
    ensures ChunkWrites(values, last) == [Update("A1:" + last + "86", values, UserEntered)]
  {
    var ws := ChunkWrites(values, last);
    assert |ws| == 1;
    assert ws[0] == ChunkAt(values, 0, last);
    assert values[0..86] == values;
    assert Decimal(1) == "1";
    assert Decimal(86) == "86";
    assert ChunkRange(0, 86, last) == "A1:" + last + "86";
  }

  // ---------------------------------------------------------------------
  // Other ranges
  // ---------------------------------------------------------------------

  /** `f"D4:{last}4"`, row 4 from column D, as Zip_20.py line 345, Zip_c.py
      lines 241-243 (with `start = col_letter(3)`) and Zip_21.py line 155 build it. */
  function Row4Range(last: string): string
  {
    "D4:" + last + "4"
  }

  /** The `repeatCell` bounds of Zip_c.py lines 329-332. */
  function Row4Grid(numCols: int): GridRange
  {
    GridRange(3, 4, StartCol, numCols)
  }

  /** Row 4 from D to the last column, written as a range name, covers
      exactly the cells of the `repeatCell` request. */
  lemma Row4RangeIsRepeatCellGrid(numCols: nat)
    requires numCols > StartCol
    ensures Row4Range(ColLetter(numCols - 1)) == CellRef(StartCol, 4) + ":" + CellRef(numCols - 1, 4)
    ensures ParseRange(Row4Range(ColLetter(numCols - 1))) == Some(Row4Grid(numCols))
  {
    var c := numCols - 1;
    assert ColLetter(3) == "D";
    assert Decimal(4) == "4";
    RangeFrom(Row4Range(ColLetter(c)), StartCol, 4, c, 4);
  }

  /** A formula range `D{top}:{last}{bottom}` from column D down to column `last`. */
  function FormulaBlockRange(last: string, top: nat, bottom: nat): string
  {
    "D" + Decimal(top) + ":" + last + Decimal(bottom)
  }

  /** The two-row formula block of Zip_c.py line 318: `D84:{last}85`. */
  function ZipCFormulaRange(last: string): string
  {
    FormulaBlockRange(last, 84, 85)
  }

  /** The single-row formula ranges of Mt_20.py lines 291-292: `D51:{last}51`, `D52:{last}52`. */
  function MtFormulaRange(last: string, row: nat): string
  {
    FormulaBlockRange(last, row, row)
  }

  /** A formula range ending in the column of the last header spans rows
      top..bottom over columns D..num_cols-1. */
  lemma FormulaBlockFits(numCols: nat, top: nat, bottom: nat)
    requires numCols > StartCol
    ensures ParseRange(FormulaBlockRange(ColLetter(numCols - 1), top, bottom)) == Some(GridRange(top - 1, bottom, StartCol, numCols))
  {
    var c := numCols - 1;
    assert ColLetter(StartCol) == "D";
    assert FormulaBlockRange(ColLetter(c), top, bottom) == CellRef(StartCol, top) + ":" + CellRef(c, bottom);
    RangeFrom(FormulaBlockRange(ColLetter(c), top, bottom), StartCol, top, c, bottom);
  }

  /** The Zip_c.py formula block range spans exactly the two formula rows
      84-85 over columns D..num_cols-1, one cell per formula. */
  lemma ZipCFormulaBlockFits(numCols: nat)
    requires numCols > StartCol
    ensures ParseRange(ZipCFormulaRange(ColLetter(numCols - 1))) == Some(GridRange(83, 85, StartCol, numCols))
  {
    FormulaBlockFits(numCols, 84, 85);
  }

  /** A Mt_20.py formula range spans the single row `row` over columns D..num_cols-1. */
  lemma MtFormulaRangeFits(numCols: nat, row: nat)
    requires numCols > StartCol
    ensures ParseRange(MtFormulaRange(ColLetter(numCols - 1), row)) == Some(GridRange(row - 1, row, StartCol, numCols))
  {
    FormulaBlockFits(numCols, row, row);
  }
}
