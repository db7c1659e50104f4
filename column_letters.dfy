/** Spreadsheet column names: the bijective base-26 code in which the
    zero-based column index 0 is "A", 25 is "Z", 26 is "AA" and 27 is "AB".
    Three implementations of it appear in the scripts: a `divmod` loop
    (Zip_20.py, twice in Zip_c.py), an `idx // 26 - 1` loop (Mt_20.py, twice)
    and the single-character shortcut `chr(64 + num_cols)` (Zip_21.py). */
module ColumnLetters {

  import opened Outcomes

  predicate IsUpper(c: char)
  {
    'A' <= c <= 'Z'
  }

  predicate AllUpper(s: string)
  {
    forall i :: 0 <= i < |s| ==> IsUpper(s[i])
  }

  /** The letter for a base-26 digit: `chr(65 + d)`. */
  function Letter(d: nat): (c: char)
    requires d < 26
    ensures IsUpper(c)
  {
    (65 + d) as char
  }

  /** The name of the column with zero-based index `idx`. */
  function ColLetter(idx: nat): (s: string)
    ensures 1 <= |s| && AllUpper(s)
    ensures (|s| == 1) == (idx < 26)
  {
    if idx < 26 then [Letter(idx)] else ColLetter(idx / 26 - 1) + [Letter(idx % 26)]
  }

  /** What the scripts' `col_letter(idx)` returns for any integer: both loops
      return the empty string for a negative index (their loop body never runs). */
  function ColName(idx: int): string
  {
    if idx < 0 then "" else ColLetter(idx)
  }

  /** Decoding: the zero-based index a name stands for (-1 for the empty name). */
  function ColIndex(s: string): int
    requires AllUpper(s)
  {
    if |s| == 0 then -1
    else (ColIndex(s[..|s| - 1]) + 1) * 26 + (s[|s| - 1] as int - 65)
  }

  /** Every index is recovered from its name. */
  lemma {:induction false} ColIndexOfColLetter(idx: nat)
    ensures ColIndex(ColLetter(idx)) == idx
  {
    if idx >= 26 {
      ColIndexOfColLetter(idx / 26 - 1);
      var s := ColLetter(idx);
      assert s[..|s| - 1] == ColLetter(idx / 26 - 1);
    }
  }

  /** Every non-empty string of capital letters is the name of the column it
      decodes to: the encoding is onto. */
  lemma {:induction false} ColLetterOfColIndex(s: string)
    requires 1 <= |s| && AllUpper(s)
    ensures ColIndex(s) >= 0 && ColLetter(ColIndex(s)) == s
    decreases |s|
  {
    var p := s[..|s| - 1];
    var d := s[|s| - 1] as int - 65;
    if |p| == 0 {
      assert s == [Letter(d)];
    } else {
      ColLetterOfColIndex(p);
      var m := ColIndex(p);
      var n := (m + 1) * 26 + d;
      assert ColIndex(s) == n;
      assert n / 26 - 1 == m && n % 26 == d;
      assert s == p + [Letter(d)];
    }
  }

  /** The first names of the sequence: A, Z, AA, AB, AZ, BA, ZZ, AAA. */
  lemma ColLetterExamples()
    ensures ColLetter(0) == "A" && ColLetter(25) == "Z"
    ensures ColLetter(26) == "AA" && ColLetter(27) == "AB"
    ensures ColLetter(51) == "AZ" && ColLetter(52) == "BA"
    ensures ColLetter(701) == "ZZ" && ColLetter(702) == "AAA"
  {
  }

  /** Distinct columns have distinct names: the encoding is one-to-one. */
  lemma ColLetterInjective(i: nat, j: nat)
    requires ColLetter(i) == ColLetter(j)
    ensures i == j
  {
    ColIndexOfColLetter(i);
    ColIndexOfColLetter(j);
  }

  /** Both loops peel the last letter off a name: what remains names
      `idx / 26 - 1` (nothing when that is -1). */
  lemma ColLetterPeel(idx: nat, rest: string)
    ensures ColName(idx / 26 - 1) + ([Letter(idx % 26)] + rest) == ColLetter(idx) + rest
  {
    var front := ColName(idx / 26 - 1);
    assert front + [Letter(idx % 26)] == ColLetter(idx);
    assert front + ([Letter(idx % 26)] + rest) == (front + [Letter(idx % 26)]) + rest;
  }

  /** The `divmod` loop of Zip_20.py and Zip_c.py:
        result = ""; idx += 1
        while idx > 0: idx, rem = divmod(idx - 1, 26); result = chr(65 + rem) + result */
  method ColLetterDivmod(idx0: int) returns (result: string)
    ensures result == ColName(idx0)
    ensures idx0 >= 0 ==> 1 <= |result| && AllUpper(result) && ColIndex(result) == idx0
  {
    result := "";
    var idx := idx0 + 1;
    while idx > 0
      invariant idx0 >= 0 ==> 0 <= idx
      invariant idx0 < 0 ==> idx <= 0 && result == ""
      invariant idx0 >= 0 ==> ColName(idx - 1) + result == ColLetter(idx0)
      decreases idx
    {
      var q, rem := (idx - 1) / 26, (idx - 1) % 26;
      ColLetterPeel(idx - 1, result);
      idx := q;
      result := [Letter(rem)] + result;
    }
    if idx0 >= 0 {
      ColIndexOfColLetter(idx0);
    }
  }

  /** The loop of Mt_20.py:
        while idx >= 0: result = chr(idx % 26 + ord('A')) + result; idx = idx // 26 - 1
      Inside the loop `idx` is non-negative, where Python's `//` and `%`
      coincide with Dafny's. */
  method ColLetterFloorDiv(idx0: int) returns (result: string)
    ensures result == ColName(idx0)
    ensures idx0 >= 0 ==> 1 <= |result| && AllUpper(result) && ColIndex(result) == idx0
  {
    result := "";
    var idx := idx0;
    while idx >= 0
      invariant idx0 >= 0 ==> idx >= -1
      invariant idx0 < 0 ==> idx == idx0 && result == ""
      invariant idx0 >= 0 ==> ColName(idx) + result == ColLetter(idx0)
      decreases idx + 1
    {
      ColLetterPeel(idx, result);
      result := [Letter(idx % 26)] + result;
      idx := idx / 26 - 1;
    }
    if idx0 >= 0 {
      ColIndexOfColLetter(idx0);
    }
  }

  /** Zip_21.py's end column `chr(64 + num_cols)`. Python's `chr` would also
      give characters from U+D800 on; this model represents the result only
      where it is a character Dafny can hold (None beyond). */
  function ShortcutEndLetter(numCols: nat): (c: Option<char>)
    ensures c.Some? <==> 64 + numCols < 0xD800
  {
    if 64 + numCols < 0xD800 then Some((64 + numCols) as char) else None
  }

  /** The shortcut names the last column correctly for 1..26 columns. */
  lemma ShortcutAgreesUpTo26(numCols: nat)
    requires 1 <= numCols <= 26
    ensures ShortcutEndLetter(numCols) == Some(ColLetter(numCols - 1)[0])
    ensures ColLetter(numCols - 1) == [ShortcutEndLetter(numCols).value]
  {
  }

  /** Beyond 26 columns (and for 0 columns) the shortcut is not a capital
      letter (from 33 to 58 columns it is a lower-case one), while the real
      last-column name has two or more letters. */
  lemma {:induction false} ShortcutFailsBeyond26(numCols: nat)
    requires numCols == 0 || numCols > 26
    ensures ShortcutEndLetter(numCols).Some? ==> !IsUpper(ShortcutEndLetter(numCols).value)
    ensures numCols > 26 ==> |ColLetter(numCols - 1)| >= 2
    ensures numCols > 26 && ShortcutEndLetter(numCols).Some? ==>
              [ShortcutEndLetter(numCols).value] != ColLetter(numCols - 1)
  {
  }
}
