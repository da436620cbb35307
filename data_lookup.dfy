/**
 * `extract_data`: look up a cell, a row, a column or the whole table,
 * depending on which of the row and the column are given. The lookups that
 * raise `KeyError` or `IndexError` return `None` instead.
 *
 * The table has the default row labels 0, 1, ..., n - 1, so a row label and
 * a row position name the same row when both are in range; they differ for
 * negative numbers, which only positions accept.
 */
module DataLookup {
  import opened Wrappers

  /** A table: column names and rows of cells, one cell per column. */
  datatype Frame<V> = Frame(columns: seq<string>, rows: seq<seq<V>>)

  /** Column names are distinct and every row has one cell per column. */
  ghost predicate WellFormed<V>(df: Frame<V>)
  {
    && (forall i, j :: 0 <= i < j < |df.columns| ==> df.columns[i] != df.columns[j])
    && (forall r :: 0 <= r < |df.rows| ==> |df.rows[r]| == |df.columns|)
  }

  /** What a lookup returns. */
  datatype Extracted<V> =
    | Cell(value: V)                                               // `df.loc[row, column]`
    | RowSeries(rowLabel: nat, index: seq<string>, values: seq<V>) // `df.iloc[row]`
    | ColumnSeries(name: string, labels: seq<nat>, values: seq<V>) // `df[column]`
    | WholeFrame(frame: Frame<V>)                                  // `df`

  /** Where a column is, or `None` when the table has no such column. */
  function ColumnPosition(columns: seq<string>, name: string): (p: Option<nat>)
    ensures p.None? <==> name !in columns
    ensures p.Some? ==> p.value < |columns| && columns[p.value] == name
    ensures p.Some? ==> forall j :: 0 <= j < p.value ==> columns[j] != name
  {
    if columns == [] then None
    else if columns[0] == name then Some(0)
    else match ColumnPosition(columns[1..], name)
      case None => None
      case Some(q) => Some(q + 1)
  }

  /** The row labels `0 .. n - 1`. */
  function RowLabels(n: nat): (ls: seq<nat>)
    ensures |ls| == n && forall i :: 0 <= i < n ==> ls[i] == i
  {
    seq(n, i requires 0 <= i < n => i)
  }

  /** The cells of column `c`, top to bottom. */
  function ColumnValues<V>(df: Frame<V>, c: nat): (vs: seq<V>)
    requires WellFormed(df) && c < |df.columns|
    ensures |vs| == |df.rows| && forall r :: 0 <= r < |df.rows| ==> vs[r] == df.rows[r][c]
  {
    seq(|df.rows|, r requires 0 <= r < |df.rows| && WellFormed(df) && c < |df.columns| => df.rows[r][c])
  }

  /** `iloc`: a position from the front, or, when negative, from the back; `None` out of range. */
  function RowAt(n: nat, position: int): (r: Option<nat>)
    ensures r.Some? <==> -(n as int) <= position < n
    ensures r.Some? ==> r.value < n && (r.value == position || r.value == n + position)
  {
    if 0 <= position < n then Some(position)
    else if -(n as int) <= position < 0 then Some(n + position)
    else None
  }

  function ExtractData<V>(df: Frame<V>, row: Option<int>, column: Option<string>): (r: Option<Extracted<V>>)
    requires WellFormed(df)
    // Both given: the cell at that row label and column; an absent label or column gives None.
    ensures row.Some? && column.Some? ==>
      (r.Some? <==> 0 <= row.value < |df.rows| && column.value in df.columns)
    ensures row.Some? && column.Some? && r.Some? ==>
      exists c :: 0 <= c < |df.columns| && df.columns[c] == column.value
                  && r.value == Cell(df.rows[row.value][c])
    // Only a row: that row by position, negative positions from the end.
    ensures row.Some? && column.None? ==>
      (r.Some? <==> -|df.rows| <= row.value < |df.rows|)
    ensures row.Some? && column.None? && r.Some? ==>
      var k := if row.value < 0 then |df.rows| + row.value else row.value;
      0 <= k < |df.rows| && r.value == RowSeries(k, df.columns, df.rows[k])
    // Only a column: that whole column, or None when it is absent.
    ensures row.None? && column.Some? ==> (r.Some? <==> column.value in df.columns)
    ensures row.None? && column.Some? && r.Some? ==>
      exists c :: 0 <= c < |df.columns| && df.columns[c] == column.value
                  && r.value == ColumnSeries(column.value, RowLabels(|df.rows|), ColumnValues(df, c))
    // Neither: the table itself.
    ensures row.None? && column.None? ==> r == Some(WholeFrame(df))
  {
    if row.Some? && column.Some? then
      var c := ColumnPosition(df.columns, column.value);
      if c.Some? && 0 <= row.value < |df.rows| then Some(Cell(df.rows[row.value][c.value])) else None
    else if row.Some? then
      var k := RowAt(|df.rows|, row.value);
      if k.Some? then Some(RowSeries(k.value, df.columns, df.rows[k.value])) else None
    else if column.Some? then
      var c := ColumnPosition(df.columns, column.value);
      if c.Some? then Some(ColumnSeries(column.value, RowLabels(|df.rows|), ColumnValues(df, c.value))) else None
    else Some(WholeFrame(df))
  }

  /**
   * The cell found by row and column is the entry at that column of the row
   * found by position, and the entry at that row of the column found by name.
   */
  lemma CellMatchesRowAndColumn<V>(df: Frame<V>, row: nat, column: string)
    requires WellFormed(df)
    requires row < |df.rows| && column in df.columns
    ensures var cell := ExtractData(df, Some(row), Some(column));
            var line := ExtractData(df, Some(row), None);
            var col := ExtractData(df, None, Some(column));
      && cell.Some? && line.Some? && col.Some?
      && (exists c :: 0 <= c < |line.value.index| && line.value.index[c] == column
                      && cell.value.value == line.value.values[c])
      && cell.value.value == col.value.values[row]
  {
    var c := ColumnPosition(df.columns, column).value;
    assert ExtractData(df, Some(row), None).value.index[c] == column;
  }

  /** A negative position `-k` reads the same row as the position `n - k`. */
  lemma NegativePositionFromEnd<V>(df: Frame<V>, k: nat)
    requires WellFormed(df)
    requires 1 <= k <= |df.rows|
    ensures ExtractData(df, Some(-(k as int)), None) == ExtractData(df, Some(|df.rows| - k), None)
    ensures ExtractData(df, Some(-(k as int)), None).Some?
  {
  }

  /**
   * With a column given, a negative row is a label, not a position: no row
   * carries it, so the lookup yields None even where the row alone would not.
   */
  lemma NegativeLabelMissing<V>(df: Frame<V>, k: nat, column: string)
    requires WellFormed(df)
    requires 1 <= k <= |df.rows|
    ensures ExtractData(df, Some(-(k as int)), Some(column)) == None
    ensures ExtractData(df, Some(-(k as int)), None).Some?
  {
  }

  /** Naming an absent column yields None whether or not a row is given. */
  lemma MissingColumnIsNone<V>(df: Frame<V>, row: Option<int>, column: string)
    requires WellFormed(df)
    requires column !in df.columns
    ensures ExtractData(df, row, Some(column)) == None
  {
  }
}
