/**
  The map-rows to positional-array shaping of DataMapToGoogleSpreadsheet: the first
  row's keys, sorted, become a header row, and each input row becomes one row of
  rendered cells in that column order.
*/
module DataShaper {
  import opened Values
  import opened StringOrder

  /** Go's `row[key]`: an absent key reads as nil. */
  function Lookup(row: map<string, Value>, key: string): (v: Value)
    ensures key in row ==> v == row[key]
    ensures key !in row ==> v == Nil
  {
    if key in row then row[key] else Nil
  }

  /** The header row: each column name as a string cell. */
  function HeaderCells(keys: seq<string>): (r: seq<Value>)
    ensures |r| == |keys|
    ensures forall c :: 0 <= c < |keys| ==> r[c] == Str(keys[c])
  {
    seq(|keys|, c requires 0 <= c < |keys| => Str(keys[c]))
  }

  /**
    One shaped row: for each column name, the rendered value of `row` under that name,
    the empty string when the name is absent from `row` or its value is nil.
  */
  function RowCells(row: map<string, Value>, keys: seq<string>): (r: seq<Value>)
    ensures |r| == |keys|
    ensures forall c :: 0 <= c < |keys| && keys[c] in row ==> r[c] == Str(Render(row[keys[c]]))
    ensures forall c :: 0 <= c < |keys| && (keys[c] !in row || row[keys[c]] == Nil) ==> r[c] == Str("")
  {
    seq(|keys|, c requires 0 <= c < |keys| => Str(Render(Lookup(row, keys[c]))))
  }

  /** `keys` lists the keys of `first`, each once, in ascending order. */
  ghost predicate IsColumnOrder(keys: seq<string>, first: map<string, Value>) {
    && |keys| == |first|
    && StrictlySorted(keys)
    && (forall k :: k in keys <==> k in first)
  }

  /** The column order is determined by the first row alone. */
  lemma ColumnOrderUnique(keys: seq<string>, keys': seq<string>, first: map<string, Value>)
    requires IsColumnOrder(keys, first) && IsColumnOrder(keys', first)
    ensures keys == keys'
  {
    StrictlySortedUnique(keys, keys');
  }

  /**
    Entries of a row under names outside the column order never reach the output: the
    shaped row is the same as that of the row cut down to those names.
  */
  lemma RowCellsIgnoreOtherKeys(row: map<string, Value>, keys: seq<string>)
    ensures RowCells(row, keys) == RowCells(map k | k in row && k in keys :: row[k], keys)
  {
  }

  /** A sorted listing of exactly the keys of `first` is its column order. */
  lemma SortedKeysAreColumnOrder(keys: seq<string>, first: map<string, Value>)
    requires |keys| == |first|
    requires Sorted(keys)
    requires multiset(keys) == multiset(first.Keys)
    ensures IsColumnOrder(keys, first)
  {
    forall i, j | 0 <= i < j < |keys| ensures keys[i] != keys[j] {
      NoRepeats(keys, first.Keys, i, j);
    }
    SortedDistinct(keys);
    forall k ensures k in keys <==> k in first {
      assert k in keys <==> k in multiset(keys);
      assert k in first <==> k in multiset(first.Keys);
    }
  }

  /** A sequence with the multiset of a set holds no element twice. */
  lemma NoRepeats(s: seq<string>, keySet: set<string>, i: nat, j: nat)
    requires multiset(s) == multiset(keySet)
    requires i < j < |s|
    ensures s[i] != s[j]
  {
    var x, y := s[i], s[j];
    assert s == s[..i + 1] + s[i + 1..];
    assert x in multiset(s[..i + 1]);
    assert y == s[i + 1..][j - i - 1];
    assert y in multiset(s[i + 1..]);
    assert multiset(s)[y] == multiset(s[..i + 1])[y] + multiset(s[i + 1..])[y];
    assert multiset(keySet)[y] <= 1;
  }

  /** Go's `for k := range first { keys[i] = k; i++ }`: the keys, in whatever order the map yields them. */
  method CollectKeys(first: map<string, Value>) returns (keys: array<string>)
    ensures fresh(keys)
    ensures keys.Length == |first|
    ensures multiset(keys[..]) == multiset(first.Keys)
  {
    keys := new string[|first|];
    var remaining := first.Keys;
    var i := 0;
    while remaining != {}
      invariant remaining <= first.Keys
      invariant i + |remaining| == |first|
      invariant multiset(keys[..i]) + multiset(remaining) == multiset(first.Keys)
      decreases |remaining|
    {
      var k :| k in remaining;
      keys[i] := k;
      assert keys[..i + 1] == keys[..i] + [k];
      remaining := remaining - {k};
      i := i + 1;
    }
    assert keys[..] == keys[..i];
  }

  /** Go's `keys` after `sort.Strings(keys)`: the column order of the first row. */
  method ColumnNames(first: map<string, Value>) returns (names: array<string>)
    ensures fresh(names)
    ensures IsColumnOrder(names[..], first)
  {
    names := CollectKeys(first);
    SortStrings(names);
    SortedKeysAreColumnOrder(names[..], first);
  }

  /** Row `k` of `valueData` is present and holds the shaped cells of `row`. */
  ghost predicate ShapedAt(valueData: array<array?<Value>>, k: nat, row: map<string, Value>, keys: seq<string>)
    reads valueData, if k < valueData.Length then {valueData[k]} else {}
  {
    k < valueData.Length && valueData[k] != null && valueData[k][..] == RowCells(row, keys)
  }

  /**
    Shapes map-form rows into a header row followed by one row per input row. `keys`
    names the column order the result uses.
  */
  method ShapeMapRows(data: seq<map<string, Value>>) returns (valueData: array<array?<Value>>, ghost keys: seq<string>)
    requires |data| > 0
    ensures fresh(valueData) && forall k :: 0 <= k < valueData.Length ==> fresh(valueData[k])
    ensures IsColumnOrder(keys, data[0])
    ensures valueData.Length == |data| + 1
    ensures valueData[0] != null && valueData[0][..] == HeaderCells(keys)
    ensures forall r :: 0 <= r < |data| ==> ShapedAt(valueData, r + 1, data[r], keys)
  {
    var names := ColumnNames(data[0]);
    keys := names[..];
    valueData := FillValueData(data, names);
  }

  /**
    Go's `valueData`: allocated with one row more than `data`, the header row of
    `names` first, then one shaped row per row of `data`.
  */
  method FillValueData(data: seq<map<string, Value>>, names: array<string>) returns (valueData: array<array?<Value>>)
    ensures fresh(valueData) && forall k :: 0 <= k < valueData.Length ==> fresh(valueData[k])
    ensures valueData.Length == |data| + 1
    ensures valueData[0] != null && valueData[0][..] == HeaderCells(names[..])
    ensures forall r :: 0 <= r < |data| ==> ShapedAt(valueData, r + 1, data[r], names[..])
  {
    var nbRows := |data|;
    valueData := new array?<Value>[nbRows + 1];
    var header := HeaderRow(names);
    valueData[0] := header;

    ghost var lines: seq<array<Value>> := [];
    for r := 0 to nbRows
      modifies valueData
      invariant valueData[0] == header
      invariant |lines| == r
      invariant fresh(header) && forall q :: 0 <= q < r ==> fresh(lines[q])
      invariant forall q :: 0 <= q < r ==> valueData[q + 1] == lines[q]
      invariant forall q :: 0 <= q < r ==> lines[q][..] == RowCells(data[q], names[..])
    {
      var line := ShapeRow(data[r], names);
      valueData[r + 1] := line;
      lines := lines + [line];
    }
    assert forall k :: 1 <= k < valueData.Length ==> valueData[k] == lines[k - 1];
  }

  /** The header row `valueData[0]`, filled name by name. */
  method HeaderRow(names: array<string>) returns (header: array<Value>)
    ensures fresh(header)
    ensures header[..] == HeaderCells(names[..])
  {
    header := new Value[names.Length];
    for c := 0 to names.Length
      modifies header
      invariant header[..c] == HeaderCells(names[..])[..c]
    {
      header[c] := Str(names[c]);
    }
    assert header[..] == header[..names.Length];
  }

  /** One data row, filled cell by cell from `row` in the column order `names`. */
  method ShapeRow(row: map<string, Value>, names: array<string>) returns (line: array<Value>)
    ensures fresh(line)
    ensures line[..] == RowCells(row, names[..])
  {
    line := new Value[names.Length];
    for c := 0 to names.Length
      modifies line
      invariant line[..c] == RowCells(row, names[..])[..c]
    {
      line[c] := Str(Render(Lookup(row, names[c])));
    }
    assert line[..] == line[..names.Length];
  }

  /**
    A single row {"b": 1, "a": 2} is shaped into the header ["a", "b"] and the data
    row ["2", "1"], whatever order the map yields its keys in.
  */
  lemma ShapeExample(keys: seq<string>)
    requires IsColumnOrder(keys, map["b" := Other("1"), "a" := Other("2")])
    ensures keys == ["a", "b"]
    ensures HeaderCells(keys) == [Str("a"), Str("b")]
    ensures RowCells(map["b" := Other("1"), "a" := Other("2")], keys) == [Str("2"), Str("1")]
  {
    var first := map["b" := Other("1"), "a" := Other("2")];
    assert Below("a", "b");
    assert IsColumnOrder(["a", "b"], first);
    ColumnOrderUnique(keys, ["a", "b"], first);
  }
}
