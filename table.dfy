/** The dataset as the tools see it: named columns, each of a kind of dtype, over a sequence
    of rows. It stands in for a pandas `DataFrame`; only what the service's own checks
    inspect is represented (column names, the dtype tests, emptiness, the row order). */
module Tables {
  import opened Common

  /** A cell: a number, a text, or a missing value (`NaN`/`None`). */
  datatype Cell = Num(value: real) | Text(text: string) | Null

  /** The dtype of a column, as far as the two tests the tools use tell dtypes apart:
      `is_numeric_dtype` holds for numbers and booleans; `select_dtypes(include='number')`
      keeps numbers only. */
  datatype Kind = Number | Boolean | NonNumeric

  datatype Column = Column(name: string, kind: Kind)

  type Row = seq<Cell>

  datatype Table = Table(columns: seq<Column>, rows: seq<Row>)

  /** `df.empty`: a frame without rows or without columns. */
  predicate IsEmpty(t: Table)
  {
    |t.columns| == 0 || |t.rows| == 0
  }

  /** `name in df.columns` */
  predicate HasColumn(t: Table, name: string)
  {
    exists i :: 0 <= i < |t.columns| && t.columns[i].name == name
  }

  /** The position of the first column called `name`. */
  function ColumnIndex(columns: seq<Column>, name: string): (r: Option<nat>)
    ensures r.Some? ==> r.value < |columns| && columns[r.value].name == name
    ensures r.Some? ==> forall j :: 0 <= j < r.value ==> columns[j].name != name
    ensures r.None? ==> forall j :: 0 <= j < |columns| ==> columns[j].name != name
  {
    if columns == [] then None
    else if columns[0].name == name then Some(0)
    else
      match ColumnIndex(columns[1..], name)
      case None => None
      case Some(i) => Some(i + 1)
  }

  /** `pd.api.types.is_numeric_dtype(df[name])` for a column that exists: true for a
      boolean column too. */
  predicate IsNumericColumn(t: Table, name: string)
  {
    var i := ColumnIndex(t.columns, name);
    i.Some? && t.columns[i.value].kind in {Number, Boolean}
  }

  /** Which columns have a number dtype. */
  function NumberMask(columns: seq<Column>): (m: seq<bool>)
    ensures |m| == |columns|
    ensures forall k :: 0 <= k < |m| ==> (m[k] <==> columns[k].kind == Number)
  {
    seq(|columns|, k requires 0 <= k < |columns| => columns[k].kind == Number)
  }

  /** The columns `df.select_dtypes(include='number')` keeps: the number columns, in their
      order, each once; boolean columns are dropped. */
  function NumericColumns(columns: seq<Column>): (r: seq<Column>)
    ensures IsSelection(columns, NumberMask(columns), r)
    ensures |r| == |set k: nat | k < |columns| && columns[k].kind == Number|
    ensures forall c :: c in r ==> c in columns && c.kind == Number
  {
    SelectIsSelection(columns, NumberMask(columns));
    NumberPositions(columns);
    Select(columns, NumberMask(columns))
  }

  lemma NumberPositions(columns: seq<Column>)
    ensures TrueSet(NumberMask(columns)) == set k: nat | k < |columns| && columns[k].kind == Number
  {
    var m := NumberMask(columns);
    forall k: nat
      ensures k in TrueSet(m) <==> k < |columns| && columns[k].kind == Number
    {
    }
  }

  /** A boolean column passes the numeric test of the column tools but is not among the
      columns the correlation tools keep. */
  lemma BooleanColumnsDiffer(t: Table, name: string)
    requires HasColumn(t, name)
    requires forall k :: 0 <= k < |t.columns| && t.columns[k].name == name ==> t.columns[k].kind == Boolean
    ensures IsNumericColumn(t, name)
    ensures forall c :: c in NumericColumns(t.columns) ==> c.name != name
  {
  }

  /** The cell of a row in a column position; a short row reads as missing. */
  function CellAt(row: Row, i: nat): Cell
  {
    if i < |row| then row[i] else Null
  }

  /** `df.head(n)` */
  function Head(t: Table, n: nat): (r: Table)
    ensures r.columns == t.columns
    ensures |r.rows| == Min(n, |t.rows|)
    ensures forall i :: 0 <= i < |r.rows| ==> r.rows[i] == t.rows[i]
  {
    Table(t.columns, t.rows[..Min(n, |t.rows|)])
  }

  /** `df.tail(n)` */
  function Tail(t: Table, n: nat): (r: Table)
    ensures r.columns == t.columns
    ensures |r.rows| == Min(n, |t.rows|)
    ensures forall i :: 0 <= i < |r.rows| ==> r.rows[i] == t.rows[|t.rows| - |r.rows| + i]
  {
    Table(t.columns, t.rows[|t.rows| - Min(n, |t.rows|)..])
  }
}
