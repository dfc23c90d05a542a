/**
  The destination range that DataArrayToGoogleSpreadSheet writes to, and a reader for
  range expressions of that shape, so that what the expression encodes can be stated.
*/
module RangeBuilder {
  import opened Wrappers
  import opened ColumnAddress
  import opened Decimal

  /**
    One cell coordinate: the column letters as written, and the row number. It never
    holds a range separator, '!' or ':'.
  */
  function CellAddress(col: int, row: int): (r: string)
    ensures |r| >= 1
    ensures '!' !in r && ':' !in r
  {
    ColAddress(col) + Itoa(row)
  }

  /**
    `destSheet!<start cell>:<end cell>`: the start cell is (destCol, destRow); the end
    cell adds the column and row counts to them, so it lies one column right of and one
    row below the last cell of the data. What the text encodes is stated by
    `DestinationRangeRoundTrip` and `DestinationRangeCovers`.
  */
  function DestinationRange(destSheet: string, destRow: int, destCol: int, nbRows: int, nbCols: int): string {
    destSheet + "!" + CellAddress(destCol, destRow) + ":" + CellAddress(destCol + nbCols, destRow + nbRows)
  }

  /** What a range expression names: a sheet and two cells, columns kept as letters. */
  datatype CellRange = CellRange(sheet: string, startCol: string, startRow: int, endCol: string, endRow: int)

  /** The last position below `n` that holds `c`, scanning leftwards. */
  function LastIndexBelow(s: string, c: char, n: nat): (r: Option<nat>)
    requires n <= |s|
    ensures r.Some? ==> r.value < n && s[r.value] == c && forall k :: r.value < k < n ==> s[k] != c
    ensures r.None? ==> forall k :: 0 <= k < n ==> s[k] != c
  {
    if n == 0 then None else if s[n - 1] == c then Some(n - 1) else LastIndexBelow(s, c, n - 1)
  }

  /** The first position at or after `k` that holds `c`, scanning rightwards. */
  function IndexFrom(s: string, c: char, k: nat): (r: Option<nat>)
    requires k <= |s|
    ensures r.Some? ==> k <= r.value < |s| && s[r.value] == c && forall m :: k <= m < r.value ==> s[m] != c
    ensures r.None? ==> forall m :: k <= m < |s| ==> s[m] != c
    decreases |s| - k
  {
    if k == |s| then None else if s[k] == c then Some(k) else IndexFrom(s, c, k + 1)
  }

  /** The length of the longest prefix of `s` made of column characters. */
  function LettersPrefix(s: string): (n: nat)
    ensures n <= |s|
    ensures forall i :: 0 <= i < n ==> IsColumnChar(s[i])
    ensures n < |s| ==> !IsColumnChar(s[n])
  {
    if |s| == 0 || !IsColumnChar(s[0]) then 0 else 1 + LettersPrefix(s[1..])
  }

  /** Reads "<letters><row>": the letters as they stand, the rest as a signed numeral. */
  function ParseCell(s: string): Option<(string, int)> {
    var n := LettersPrefix(s);
    match Atoi(s[n..])
    case None => None
    case Some(row) => Some((s[..n], row))
  }

  /** Reads a range expression: its sheet, then its start and end cells. */
  function ParseRange(s: string): Option<CellRange> {
    match SplitRange(s)
    case None => None
    case Some(parts) => ParseCells(parts.0, parts.1, parts.2)
  }

  /** Splits at the last '!' (a sheet name may itself contain '!'), then at the ':' after it. */
  function SplitRange(s: string): Option<(string, string, string)> {
    match LastIndexBelow(s, '!', |s|)
    case None => None
    case Some(i) =>
      match IndexFrom(s, ':', i + 1)
      case None => None
      case Some(j) => Some((s[..i], s[i + 1..j], s[j + 1..]))
  }

  /** The sheet name and the two cell texts on either side of the ':'. */
  function ParseCells(sheet: string, start: string, end: string): Option<CellRange> {
    match (ParseCell(start), ParseCell(end))
    case (Some(a), Some(b)) => Some(CellRange(sheet, a.0, a.1, b.0, b.1))
    case _ => None
  }

  lemma ParseCellAddress(col: int, row: int)
    ensures ParseCell(CellAddress(col, row)) == Some((ColAddress(col), row))
  {
    var a, t := ColAddress(col), Itoa(row);
    var s := a + t;
    assert LettersPrefix(s) == |a|;
    assert s[..|a|] == a && s[|a|..] == t;
    ItoaRoundTrip(row);
  }

  /** `s` splits at `i` and `j` when `s[i]` is its last '!' and `s[j]` the first ':' after it. */
  lemma SplitRangeAt(s: string, i: nat, j: nat)
    requires i < j < |s| && s[i] == '!' && s[j] == ':'
    requires forall k :: i < k < |s| ==> s[k] != '!'
    requires forall k :: i < k < j ==> s[k] != ':'
    ensures SplitRange(s) == Some((s[..i], s[i + 1..j], s[j + 1..]))
  {
    assert LastIndexBelow(s, '!', |s|) == Some(i);
    assert IndexFrom(s, ':', i + 1) == Some(j);
  }

  /** A range "sheet!start:end" splits back into its parts when neither cell holds '!' or ':'. */
  lemma ParseRangeSplit(sheet: string, start: string, end: string)
    requires '!' !in start && '!' !in end && ':' !in start && ':' !in end
    ensures SplitRange(sheet + "!" + start + ":" + end) == Some((sheet, start, end))
  {
    var s := sheet + "!" + start + ":" + end;
    var i, j := |sheet|, |sheet| + 1 + |start|;
    forall k | i < k < |s|
      ensures s[k] != '!' && (k < j ==> s[k] != ':')
    {
      if k < j { assert s[k] == start[k - i - 1]; }
      else if k > j { assert s[k] == end[k - j - 1]; }
    }
    SplitRangeAt(s, i, j);
    assert s[..i] == sheet && s[i + 1..j] == start && s[j + 1..] == end;
  }

  /** A range that splits into a sheet and two cells that parse reads back as those parts. */
  lemma ParseRangeOf(s: string, sheet: string, start: string, end: string, a: (string, int), b: (string, int))
    requires SplitRange(s) == Some((sheet, start, end))
    requires ParseCell(start) == Some(a) && ParseCell(end) == Some(b)
    ensures ParseRange(s) == Some(CellRange(sheet, a.0, a.1, b.0, b.1))
  {
  }

  /** "sheet!start:end" reads back as its parts when both cells parse and hold no separator. */
  lemma RangeOfCells(sheet: string, start: string, end: string, a: (string, int), b: (string, int))
    requires '!' !in start && '!' !in end && ':' !in start && ':' !in end
    requires ParseCell(start) == Some(a) && ParseCell(end) == Some(b)
    ensures ParseRange(sheet + "!" + start + ":" + end) == Some(CellRange(sheet, a.0, a.1, b.0, b.1))
  {
    ParseRangeSplit(sheet, start, end);
    ParseRangeOf(sheet + "!" + start + ":" + end, sheet, start, end, a, b);
  }

  /**
    The range expression is unambiguous whatever the sheet name: it reads back as the
    sheet, the start cell (destCol, destRow) and the end cell (destCol + nbCols,
    destRow + nbRows).
  */
  lemma DestinationRangeRoundTrip(destSheet: string, destRow: int, destCol: int, nbRows: int, nbCols: int)
    ensures ParseRange(DestinationRange(destSheet, destRow, destCol, nbRows, nbCols))
         == Some(CellRange(destSheet, ColAddress(destCol), destRow, ColAddress(destCol + nbCols), destRow + nbRows))
  {
    var start, end := CellAddress(destCol, destRow), CellAddress(destCol + nbCols, destRow + nbRows);
    assert DestinationRange(destSheet, destRow, destCol, nbRows, nbCols) == destSheet + "!" + start + ":" + end;
    ParseCellAddress(destCol, destRow);
    ParseCellAddress(destCol + nbCols, destRow + nbRows);
    RangeOfCells(destSheet, start, end, (ColAddress(destCol), destRow), (ColAddress(destCol + nbCols), destRow + nbRows));
  }

  /**
    For columns in range the end column is the start column plus the column count, and
    the end row the start row plus the row count: the range covers one column and one
    row more than the data.
  */
  lemma DestinationRangeCovers(destSheet: string, destRow: int, destCol: int, nbRows: int, nbCols: int)
    requires 1 <= destCol && destCol + nbCols < 675 && 0 <= nbCols
    ensures ParseRange(DestinationRange(destSheet, destRow, destCol, nbRows, nbCols)).Some?
    ensures var r := ParseRange(DestinationRange(destSheet, destRow, destCol, nbRows, nbCols)).value;
            && r.sheet == destSheet
            && ColIndex(r.startCol) == Some(destCol) && r.startRow == destRow
            && ColIndex(r.endCol) == Some(destCol + nbCols) && r.endRow == destRow + nbRows
  {
    var r := CellRange(destSheet, ColAddress(destCol), destRow, ColAddress(destCol + nbCols), destRow + nbRows);
    DestinationRangeRoundTrip(destSheet, destRow, destCol, nbRows, nbCols);
    assert ParseRange(DestinationRange(destSheet, destRow, destCol, nbRows, nbCols)) == Some(r);
    ColAddressRoundTrip(destCol);
    ColAddressRoundTrip(destCol + nbCols);
  }

  /** Three rows and two columns written at B2 reach up to D5. */
  lemma DestinationRangeExample()
    ensures DestinationRange("Sheet1", 2, 2, 3, 2) == "Sheet1!B2:D5"
  {
  }
}
