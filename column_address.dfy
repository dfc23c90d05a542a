/**
  The column-letter codec `ColAddress` of googlespreadsheet.go.

  It is a direct arithmetic mapping, not bijective base-26: columns 1..26 get one
  letter, columns 27..674 get the letters for `col / 26` and `col % 26`, so that at a
  multiple of 26 the second character is the one before 'A', which is '@'.
*/
module ColumnAddress {
  import opened Wrappers

  /** Go's `string(int('A') + offset)` for the offsets that occur here (-1 gives '@'). */
  function Letter(offset: int): (ch: char)
    requires -1 <= offset <= 25
    ensures ch as int == 'A' as int + offset
  {
    ('A' as int + offset) as char
  }

  /** The characters ColAddress may produce: '@' (64) and 'A'..'Z' (65..90). */
  predicate IsColumnChar(ch: char) {
    '@' <= ch <= 'Z'
  }

  /**
    ColAddress(col): "" outside [1, 674]; one letter for 1..26; otherwise two letters
    from the quotient and remainder of `col` by 26. For the positive operands that reach
    the two-letter branch, Go's truncating `/` and `%` agree with Dafny's.
  */
  function ColAddress(col: int): (r: string)
    ensures r == "" <==> col < 1 || col >= 675
    ensures |r| <= 2
    ensures forall i :: 0 <= i < |r| ==> IsColumnChar(r[i])
    ensures |r| == 1 <==> 1 <= col <= 26
  {
    if col >= 675 || col < 1 then ""
    else if col <= 26 then [Letter(col - 1)]
    else [Letter(col / 26 - 1), Letter(col % 26 - 1)]
  }

  /** The one-letter branch: 1 gives "A", 26 gives "Z", each column its own letter. */
  lemma SingleLetter(col: int)
    requires 1 <= col <= 26
    ensures ColAddress(col) == [('A' as int + col - 1) as char]
    ensures col == 1 ==> ColAddress(col) == "A"
    ensures col == 26 ==> ColAddress(col) == "Z"
  {
  }

  /**
    The two-letter branch: the first letter lies in 'A'..'Y' and encodes `col / 26`;
    the second encodes `col % 26` and is '@' exactly at the multiples of 26.
  */
  lemma TwoLetters(col: int)
    requires 27 <= col <= 674
    ensures |ColAddress(col)| == 2
    ensures ColAddress(col)[0] as int == 'A' as int + col / 26 - 1
    ensures 'A' <= ColAddress(col)[0] <= 'Y'
    ensures ColAddress(col)[1] as int == 'A' as int + col % 26 - 1
    ensures ColAddress(col)[1] == '@' <==> col % 26 == 0
  {
  }

  /**
    The upper bound is exclusive: 674 is the last column with an address, and 675,
    which the same arithmetic would write as "YY", gets none.
  */
  lemma UpperBound()
    ensures ColAddress(674) == "YX"
    ensures ColAddress(675) == ""
    ensures [Letter(675 / 26 - 1), Letter(675 % 26 - 1)] == "YY"
  {
  }

  /** Reads a column address back to its index: the inverse partner of ColAddress. */
  function ColIndex(s: string): (r: Option<int>)
    ensures r.Some? ==> 1 <= r.value <= 676
  {
    if |s| == 1 && 'A' <= s[0] <= 'Z' then
      Some(s[0] as int - 'A' as int + 1)
    else if |s| == 2 && 'A' <= s[0] <= 'Y' && IsColumnChar(s[1]) then
      Some((s[0] as int - 'A' as int + 1) * 26 + (s[1] as int - 'A' as int + 1))
    else
      None
  }

  /** Every column in range is recovered from its address, and "" reads back as no column. */
  lemma ColAddressRoundTrip(col: int)
    ensures 1 <= col < 675 ==> ColIndex(ColAddress(col)) == Some(col)
    ensures !(1 <= col < 675) ==> ColIndex(ColAddress(col)) == None
  {
  }

  /** Hence two in-range columns never share an address. */
  lemma ColAddressInjective(a: int, b: int)
    requires ColAddress(a) == ColAddress(b) != ""
    ensures a == b
  {
  }

  /** Spreadsheet column names as bijective base-26 ("A".."Z", "AA".."AZ", "BA", ...). */
  function Bijective26(col: nat): (r: string)
    requires col >= 1
    ensures |r| >= 1
    decreases col
  {
    if col <= 26 then [Letter(col - 1)]
    else Bijective26((col - 1) / 26) + [Letter((col - 1) % 26)]
  }

  /**
    ColAddress names a column the way spreadsheets do exactly when the column is not a
    multiple of 26 beyond the first letter block; at 52, 78, ..., 650 it answers
    "B@", "C@", ..., "Y@" where the spreadsheet name is "AZ", "BZ", ..., "XZ".
  */
  lemma AgreesWithBijective26(col: int)
    requires 1 <= col < 675
    ensures ColAddress(col) == Bijective26(col) <==> col <= 26 || col % 26 != 0
    ensures col > 26 && col % 26 == 0 ==> ColAddress(col)[1] == '@' && Bijective26(col)[1] == 'Z'
  {
  }
}
