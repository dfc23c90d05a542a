# googlespreadsheet in Dafny

A model of the Go package `googlespreadsheet`, a thin helper that moves tabular data
between Go values and a Google spreadsheet. The package's own logic is small and
deterministic:

- `ColAddress` turns a column index into column letters.
- `DataArrayToGoogleSpreadSheet` skips empty data and builds the destination range
  `sheet!<start cell>:<end cell>`.
- `DataMapToGoogleSpreadsheet` shapes map-form rows into a positional array. The first
  row's keys are sorted and become a header row. Every row then becomes one row of cells
  rendered as text.

Everything else is calls into the Google client libraries. Those calls are modelled as
parameters and returned values.

Modules, one per component:

- `Wrappers` (wrappers.dfy): `Option` and `Result`.
- `ColumnAddress` (column_address.dfy): `ColAddress`, the decoder `ColIndex`, and
  spreadsheet-style bijective base-26 names as a reference.
- `Decimal` (decimal.dfy): `strconv.Itoa` as `Itoa`, and the parser `Atoi` that reads it
  back.
- `RangeBuilder` (range_builder.dfy): the destination range, plus a reader of range
  expressions that shows what the range encodes.
- `StringOrder` (string_order.dfy): Go's string order and an in-place sort with the
  contract of `sort.Strings`.
- `Values` (values.dfy): cell values and their rendering to text.
- `DataShaper` (data_shaper.dfy): the key collection, the sort and the array-filling
  loops of `DataMapToGoogleSpreadsheet`, on arrays, as in the source.
- `Transfer` (transfer.dfy): `Config` with its lazily cached client, and the five
  exported operations. Each write is written as guard, then shape (for map rows only),
  then build the range, then authorise and send; reads and clears only authorise and
  send.

Behaviour kept exactly as the code has it:

- `ColAddress` is not bijective base-26. At a multiple of 26 above 26 the second
  character is `'@'`: 52 gives "B@" where a spreadsheet says "AZ".
  `AgreesWithBijective26` proves that these columns are exactly the ones where the two
  differ.
- The doc comment of `ColAddress` puts the upper bound above 675 (`>675`). The code
  also rejects 675 (`col >= 675`), and the model follows the code (`UpperBound`).
- The destination range ends at `destCol + nbCols` and `destRow + nbRows`. That is one
  column right of and one row below the last cell of the data.
- `nbCols` is read from the first row only. Later rows are sent as they are.
- A write with no rows, or with an empty first row, returns success and does nothing
  else. A read that returns no rows is the error "Empty template".

## Model

| member | source | states |
|---|---|---|
| ColumnAddress.Letter | googlespreadsheet.go:39-41 | Go's `string(int('A') + offset)`: the character whose code is 'A' plus the offset, so -1 gives '@' |
| ColumnAddress.ColAddress | googlespreadsheet.go:32-42 | the result is "" exactly when col < 1 or col >= 675; it has one character exactly for 1..26 and never more than two; every character is '@' or a capital letter |
| ColumnAddress.SingleLetter | googlespreadsheet.go:38-40 | for 1..26 the address is the single letter 'A' + col - 1, so 1 gives "A" and 26 gives "Z" |
| ColumnAddress.TwoLetters | googlespreadsheet.go:41 | for 27..674 the address has two characters; the first is 'A' + col/26 - 1 and lies in 'A'..'Y'; the second is 'A' + col%26 - 1 and is '@' exactly when col is a multiple of 26 |
| ColumnAddress.UpperBound | googlespreadsheet.go:32-37 | 674 is the last column with an address ("YX"); 675 gets "" although the same arithmetic would give "YY" |
| ColumnAddress.ColIndex | googlespreadsheet.go:34-42 | decodes an address of one or two characters to an index in 1..676 |
| ColumnAddress.ColAddressRoundTrip | googlespreadsheet.go:34-42 | decoding the address of any column in 1..674 gives that column back; an address outside that range decodes to no column |
| ColumnAddress.ColAddressInjective | googlespreadsheet.go:34-42 | two columns with the same non-empty address are the same column |
| ColumnAddress.Bijective26 | googlespreadsheet.go:32 | the reference: spreadsheet column names ("A".."Z", "AA", ...), never empty |
| ColumnAddress.AgreesWithBijective26 | googlespreadsheet.go:32-42 | on 1..674 the address equals the spreadsheet name exactly when col <= 26 or col is not a multiple of 26; at the other columns the address ends in '@' where the name ends in 'Z' |
| Decimal.NatToDecimal | googlespreadsheet.go:121-123 | the numeral of a natural number has only digits and no leading zero, and 0 is "0" |
| Decimal.Itoa | googlespreadsheet.go:121-123 | the row text is non-empty, made of digits and '-', and starts with '-' exactly for negative rows |
| Decimal.NatToDecimalRoundTrip | googlespreadsheet.go:121-123 | the value of the numeral of n is n |
| Decimal.ItoaRoundTrip | googlespreadsheet.go:121-123 | parsing the text of any integer row gives that integer back |
| Decimal.ItoaInjective | googlespreadsheet.go:121-123 | different rows are written differently |
| RangeBuilder.LastIndexBelow | googlespreadsheet.go:120 | finds the last '!' of a range, the separator after the sheet name: it holds '!' and nothing after it does; without one, no position holds '!' |
| RangeBuilder.IndexFrom | googlespreadsheet.go:122 | finds the first ':' after the sheet part, the separator between the two cells: it holds ':' and nothing between does; without one, no position there holds ':' |
| RangeBuilder.SplitRangeAt | googlespreadsheet.go:120-123 | a range whose last '!' is at i and whose first ':' after it is at j splits into the text before i, the text between, and the text after j |
| RangeBuilder.LettersPrefix | googlespreadsheet.go:121 | measures the column letters at the start of a cell: all of them, and no more |
| RangeBuilder.CellAddress | googlespreadsheet.go:121-123 | the column letters followed by `strconv.Itoa` of the row: never empty, and never containing '!' or ':', so the separators of the range are unambiguous |
| RangeBuilder.ParseCellAddress | googlespreadsheet.go:121-123 | a cell address reads back as its column letters and its row |
| RangeBuilder.ParseRangeSplit | googlespreadsheet.go:120-123 | "sheet!start:end" splits back into the sheet, start and end for any sheet name, including one that contains '!' or ':' |
| RangeBuilder.RangeOfCells | googlespreadsheet.go:120-123 | "sheet!start:end" reads back as the sheet and the two parsed cells whenever neither cell contains a separator |
| RangeBuilder.DestinationRange | googlespreadsheet.go:120-123 | the range text `destSheet!<col><row>:<col + nbCols><row + nbRows>`; what it encodes is fixed by DestinationRangeRoundTrip and DestinationRangeCovers |
| RangeBuilder.DestinationRangeRoundTrip | googlespreadsheet.go:112-123 | for all inputs, the range reads back as the sheet, the start cell (ColAddress(destCol), destRow) and the end cell (ColAddress(destCol + nbCols), destRow + nbRows) |
| RangeBuilder.DestinationRangeCovers | googlespreadsheet.go:116-123 | when the columns are in range, the start column decodes to destCol and the end column to destCol + nbCols; the end row is destRow + nbRows: the range covers one column and one row more than the data |
| RangeBuilder.DestinationRangeExample | googlespreadsheet.go:120-123 | three rows and two columns written at row 2, column 2 of "Sheet1" give "Sheet1!B2:D5" |
| StringOrder.BelowIrreflexive | googlespreadsheet.go:85 | no string sorts before itself |
| StringOrder.BelowTransitive | googlespreadsheet.go:85 | the string order is transitive |
| StringOrder.BelowTotal | googlespreadsheet.go:85 | any two different strings are ordered one way or the other |
| StringOrder.BelowAsymmetric | googlespreadsheet.go:85 | if a sorts before b, b does not sort before a |
| StringOrder.AtMostTransitive | googlespreadsheet.go:85 | "sorts no later than" is transitive |
| StringOrder.SortedDistinct | googlespreadsheet.go:85 | a sorted sequence with no repeated element is strictly ascending |
| StringOrder.StrictlySortedUnique | googlespreadsheet.go:85 | two strictly ascending sequences with the same elements are equal |
| StringOrder.SortStrings | googlespreadsheet.go:85 | after the in-place sort the array is in ascending order and is a permutation of what it held |
| StringOrder.InsertInto | googlespreadsheet.go:85 | inserting a[i] into the sorted prefix a[..i] leaves a[..i+1] sorted, the array a permutation of itself, and a[i+1..] as it was |
| StringOrder.SwapDown | googlespreadsheet.go:85 | exchanges two neighbouring elements and changes nothing else |
| Values.Render | googlespreadsheet.go:99-101 | the scanned text of nil is "" and of a string is the string itself |
| DataShaper.Lookup | googlespreadsheet.go:100 | a key present in the row gives its value; an absent key gives nil |
| DataShaper.HeaderCells | googlespreadsheet.go:87-93 | the header row has one cell per key, cell c holding key c |
| DataShaper.RowCells | googlespreadsheet.go:96-103 | a data row has one cell per key; the cell of a key in the row is the rendering of its value; the cell of an absent key or a nil value is "" |
| DataShaper.ColumnOrderUnique | googlespreadsheet.go:79-85 | the column order is determined by the first row's key set alone, whatever order the map yields the keys in |
| DataShaper.RowCellsIgnoreOtherKeys | googlespreadsheet.go:96-103 | keys that a row has but the column order lacks never reach the output: the row shapes as if they were removed |
| DataShaper.SortedKeysAreColumnOrder | googlespreadsheet.go:79-85 | a sorted listing of exactly the first row's keys is strictly ascending and holds each key once |
| DataShaper.NoRepeats | googlespreadsheet.go:79-84 | a sequence with the multiset of a set of keys holds no key twice |
| DataShaper.CollectKeys | googlespreadsheet.go:79-84 | the keys array has len(data[0]) entries and holds each key of the first row exactly once |
| DataShaper.ColumnNames | googlespreadsheet.go:79-85 | after collection and sort.Strings the keys are the first row's keys, strictly ascending |
| DataShaper.ShapeMapRows | googlespreadsheet.go:69-103 | the shaped array has len(data)+1 rows; row 0 is the sorted keys; row r+1 holds, in key order, the rendering of data[r] under each key, "" for absent or nil values; the array and every row are newly allocated |
| DataShaper.FillValueData | googlespreadsheet.go:86-103 | the allocated array holds the header row of the keys, then one shaped row per input row; the array and every row are newly allocated |
| DataShaper.HeaderRow | googlespreadsheet.go:87-93 | the header row holds the sorted keys, in order |
| DataShaper.ShapeRow | googlespreadsheet.go:97-102 | row r+1 is filled cell by cell with the rendered values of data[r] in key order |
| DataShaper.ShapeExample | googlespreadsheet.go:79-103 | {"b": 1, "a": 2} shapes into the header ["a", "b"] and the row ["2", "1"] |
| Transfer.Config.constructor | googlespreadsheet.go:25-30 | a new configuration holds the credentials and the spreadsheet id, and no client |
| Transfer.Authorize | googlespreadsheet.go:130-136 | a cached client is kept and never replaced; without one, a successful authorisation is cached and a failed one is returned as the error; afterwards there is a client exactly when there is no error |
| Transfer.Width | googlespreadsheet.go:116 | Go's `len(data[0])`, where a nil first row counts as 0; WriteArray's contract states the guard and the range it feeds |
| Transfer.UpdateOutcome | googlespreadsheet.go:147-155 | an update succeeds exactly when the call returned no error and a status in [200, 299]; a status outside that range is the "Wrong http return code" error carrying the status |
| Transfer.ReadOutcome | googlespreadsheet.go:172-182 | a read succeeds exactly when the call returned at least one row, and then it returns the rows unchanged; zero rows is the "Empty template" error |
| Transfer.WriteArray | googlespreadsheet.go:109-156 | no rows or an empty first row: success, no client created, nothing sent; otherwise an authorisation failure is returned before anything is sent, or the data is sent as an update of DestinationRange(destSheet, destRow, destCol, len(data), len(data[0])) and the reply decides the error |
| Transfer.WriteMap | googlespreadsheet.go:67-106 | the same guard on the map rows; otherwise the update sent holds the shaped array (sorted header, one rendered row per input row) at the range of len(data)+1 rows and len(data[0]) columns |
| Transfer.ReadArray | googlespreadsheet.go:159-183 | after authorisation the caller's range is read; the result is the rows received, an "Empty template" error for zero rows, or the call's error |
| Transfer.ClearRange | googlespreadsheet.go:45-64 | after authorisation a clear request for the caller's range is sent, and the call's error is returned unchanged |
| Transfer.ClearSheet | googlespreadsheet.go:186-207 | the same clear request and error behaviour as ClearRange |

## Left out

- googleAuth and the JWT/OAuth2 credential parsing (googlespreadsheet.go:16-23) are calls into the Google libraries. What they yield for the stored credentials is the `auth` parameter of each operation.
- `sheets.New` and the `Update`, `Get` and `Clear` calls are network I/O. The request that would be sent is returned as a `Request` value. The service's answer is a parameter: an error or a status for an update, an error or rows for a read, an error or nothing for a clear.
- Transfer.ClearRange: the error check on `sheets.New` (googlespreadsheet.go:55-57) is not modelled, because that constructor's failure is outside this model.
- The check-then-set race on `Config.Client` when several goroutines share one configuration is not modelled. Every operation here runs alone.
- The `fmt.Printf` diagnostics, the "USER_ENTERED" input option and the "ROWS" major dimension are logging and wire options with no logic. They are not modelled.
- Values.Render: only nil and strings are rendered by the model. How `sql.NullString.Scan` formats numbers, booleans and times is not computed; such a value carries its text as given. The error that Scan returns and the code ignores is not modelled.
- StringOrder.SortStrings: the model sorts by insertion sort, not by the library's algorithm. Only the library's promise is modelled: the result is sorted and is a permutation of the input. Strings are compared as sequences of characters. For valid UTF-8 this is the byte order Go uses; invalid UTF-8 is not modelled.
- The random iteration order of the first row's map is modelled by an arbitrary choice of the next key. After the sort it cannot be observed (DataShaper.ColumnOrderUnique).
- Integers are unbounded. The 64-bit wrap-around of `destCol + nbCols` and `destRow + nbRows` in Go is not modelled.
