/** The pandas DataFrame operations the script uses, as a value (Table) and
    as an object updated in place (Frame). */
module Frames {
  import opened Values

  /** One row: every column label of the table mapped to the row's cell. */
  type Row = map<string, Value>

  /** A DataFrame: its column labels, its rows in order, and its index. */
  datatype Table = Table(columns: set<string>, rows: seq<Row>, index: seq<int>)

  /** One index label per row, and every row has exactly the table's columns. */
  predicate WellFormed(t: Table)
  {
    |t.index| == |t.rows| && forall i :: 0 <= i < |t.rows| ==> t.rows[i].Keys == t.columns
  }

  /** lo, lo+1, ..., lo+n-1: a RangeIndex. */
  function Range(lo: int, n: nat): seq<int>
  {
    seq(n, i => lo + i)
  }

  /** One input file: its stem (the source name) and the cells read_csv reads from it. */
  datatype CsvFile = CsvFile(stem: string, columns: set<string>, rows: seq<Row>)

  /** What read_csv guarantees: a header with at least one column (a file
      without one raises EmptyDataError), and every row has every column. */
  predicate ValidFile(f: CsvFile)
  {
    && f.columns != {}
    && forall i :: 0 <= i < |f.rows| ==> f.rows[i].Keys == f.columns
  }

  /** pd.read_csv: the cells as read, with the default index 0..n-1. */
  function ReadCsv(columns: set<string>, rows: seq<Row>): (t: Table)
    ensures (forall i :: 0 <= i < |rows| ==> rows[i].Keys == columns) ==> WellFormed(t)
  {
    Table(columns, rows, Range(0, |rows|))
  }

  /** df[col] = v for a scalar v: every row gets v in that column, which is
      added if it was absent. */
  function WithColumn(t: Table, col: string, v: Value): (r: Table)
    ensures WellFormed(t) ==> WellFormed(r)
  {
    Table(t.columns + {col}, seq(|t.rows|, i requires 0 <= i < |t.rows| => t.rows[i][col := v]), t.index)
  }

  /** df[col] = series: row i gets vals[i]. */
  function WithColumnValues(t: Table, col: string, vals: seq<Value>): (r: Table)
    requires |vals| == |t.rows|
    ensures WellFormed(t) ==> WellFormed(r)
  {
    Table(t.columns + {col}, seq(|t.rows|, i requires 0 <= i < |t.rows| => t.rows[i][col := vals[i]]), t.index)
  }

  /** df[col]: the column's cells in row order. */
  function ColumnValues(t: Table, col: string): (vals: seq<Value>)
    requires WellFormed(t) && col in t.columns
    ensures |vals| == |t.rows|
  {
    seq(|t.rows|, i requires 0 <= i < |t.rows| => t.rows[i][col])
  }

  /** df.index = df.index + 1. */
  function ShiftedIndex(t: Table): (r: Table)
    ensures WellFormed(t) ==> WellFormed(r)
  {
    Table(t.columns, t.rows, seq(|t.index|, i requires 0 <= i < |t.index| => t.index[i] + 1))
  }

  /** Every column label of the tables. */
  function AllColumns(ts: seq<Table>): (cols: set<string>)
    ensures forall k :: 0 <= k < |ts| ==> ts[k].columns <= cols
  {
    if ts == [] then {} else AllColumns(ts[..|ts| - 1]) + ts[|ts| - 1].columns
  }

  /** NaN in every one of the columns. */
  function NaNRow(cols: set<string>): (r: Row)
    ensures r.Keys == cols
    ensures forall c | c in cols :: r[c] == NaN
  {
    map c | c in cols :: NaN
  }

  /** A row of a concatenation: NaN in every column its own table lacks. */
  function Fill(r: Row, cols: set<string>): Row
  {
    NaNRow(cols) + r
  }

  function ConcatRows(ts: seq<Table>, cols: set<string>): (rows: seq<Row>)
  {
    if ts == [] then []
    else
      var last := ts[|ts| - 1];
      ConcatRows(ts[..|ts| - 1], cols) + seq(|last.rows|, i requires 0 <= i < |last.rows| => Fill(last.rows[i], cols))
  }

  /** pd.concat(tables, ignore_index=True): the rows of every table in order,
      the columns of all of them, and a fresh index 0..N-1. */
  function Concat(ts: seq<Table>): (r: Table)
  {
    var cols := AllColumns(ts);
    var rows := ConcatRows(ts, cols);
    Table(cols, rows, Range(0, |rows|))
  }

  /** A DataFrame object; the script's `df[...] = ...` and `df.index = ...`
      statements change it in place. */
  class Frame {
    var columns: set<string>
    var rows: seq<Row>
    var index: seq<int>

    /** The frame's current contents. */
    function Data(): Table
      reads this
    {
      Table(columns, rows, index)
    }

    constructor (t: Table)
      ensures Data() == t
    {
      columns, rows, index := t.columns, t.rows, t.index;
    }

    /** df[col] = v. */
    method SetColumn(col: string, v: Value)
      modifies this
      ensures Data() == WithColumn(old(Data()), col, v)
    {
      var before := rows;
      rows := seq(|before|, i requires 0 <= i < |before| => before[i][col := v]);
      columns := columns + {col};
    }

    /** df[col] = series. */
    method SetColumnValues(col: string, vals: seq<Value>)
      requires |vals| == |rows|
      modifies this
      ensures Data() == WithColumnValues(old(Data()), col, vals)
    {
      var before := rows;
      rows := seq(|before|, i requires 0 <= i < |before| => before[i][col := vals[i]]);
      columns := columns + {col};
    }

    /** df.index = df.index + 1. */
    method ShiftIndex()
      modifies this
      ensures Data() == ShiftedIndex(old(Data()))
    {
      var before := index;
      index := seq(|before|, i requires 0 <= i < |before| => before[i] + 1);
    }
  }

  /** After pd.concat every row has exactly the united columns. */
  lemma {:induction false} ConcatWellFormed(ts: seq<Table>)
    requires forall k :: 0 <= k < |ts| ==> WellFormed(ts[k])
    ensures WellFormed(Concat(ts))
  {
    ConcatRowsKeys(ts, AllColumns(ts));
  }

  lemma {:induction false} ConcatRowsKeys(ts: seq<Table>, cols: set<string>)
    requires forall k :: 0 <= k < |ts| ==> WellFormed(ts[k]) && ts[k].columns <= cols
    ensures forall i :: 0 <= i < |ConcatRows(ts, cols)| ==> ConcatRows(ts, cols)[i].Keys == cols
  {
    if ts != [] {
      ConcatRowsKeys(ts[..|ts| - 1], cols);
    }
  }
}
