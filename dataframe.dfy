/** A value model of the single-row pandas DataFrame the app builds: its
    columns seen by name, and the few pandas operations applied to it
    (column selection, column assignment, one-hot expansion). */
module DataFrame {

  /** A cell holds a string (object dtype) or a number.  Integers, floats
      and the booleans of one-hot indicator columns are all numbers here. */
  datatype Cell = Str(s: string) | Num(x: real)

  /** A one-row frame, by column name.  Column names of a frame are unique. */
  type Row = map<string, Cell>

  const Zero: Cell := Num(0.0)
  const One: Cell := Num(1.0)

  /** A one-row frame with its columns in a fixed order, as `df[cols]` returns it. */
  datatype Table = Table(columns: seq<string>, cells: seq<Cell>)

  /** The cells of the named columns, in the order the names are given. */
  function Select(row: Row, cols: seq<string>): (r: seq<Cell>)
    requires forall c | c in cols :: c in row
    ensures |r| == |cols|
    ensures forall i | 0 <= i < |cols| :: r[i] == row[cols[i]]
  {
    seq(|cols|, i requires 0 <= i < |cols| => row[cols[i]])
  }

  /** `df[cols]`: the frame restricted to, and reordered by, `cols`. */
  function Project(row: Row, cols: seq<string>): (t: Table)
    requires forall c | c in cols :: c in row
    ensures t.columns == cols && |t.cells| == |cols|
    ensures forall i | 0 <= i < |cols| :: t.cells[i] == row[cols[i]]
  {
    Table(cols, Select(row, cols))
  }

  /** `df[cols] = vals`: the named columns receive the new numbers, one by
      one, so that a name given twice keeps the later value. */
  function Assign(row: Row, cols: seq<string>, vals: seq<real>): (r: Row)
    requires |cols| == |vals|
    ensures r.Keys == row.Keys + set c | c in cols
    ensures forall c | c in row && c !in cols :: r[c] == row[c]
    ensures forall i | 0 <= i < |cols| && cols[i] !in cols[i + 1..] :: r[cols[i]] == Num(vals[i])
    decreases |cols|
  {
    if cols == [] then row
    else
      var row' := row[cols[0] := Num(vals[0])];
      var r := Assign(row', cols[1..], vals[1..]);
      AssignStep(cols, vals, row', r);
      r
  }

  /** The step of Assign's induction: what the rest of the assignment gives
      and the first name's value, combined. */
  lemma AssignStep(cols: seq<string>, vals: seq<real>, row': Row, r: Row)
    requires |cols| == |vals| && cols != []
    requires cols[0] in row' && row'[cols[0]] == Num(vals[0])
    requires r.Keys == row'.Keys + set c | c in cols[1..]
    requires forall c | c in row' && c !in cols[1..] :: r[c] == row'[c]
    requires forall i | 0 <= i < |cols| - 1 && cols[1..][i] !in cols[1..][i + 1..] :: r[cols[1..][i]] == Num(vals[1..][i])
    ensures r.Keys == row'.Keys + set c | c in cols
    ensures forall i | 0 <= i < |cols| && cols[i] !in cols[i + 1..] :: r[cols[i]] == Num(vals[i])
  {
    forall i | 0 <= i < |cols| && cols[i] !in cols[i + 1..] ensures r[cols[i]] == Num(vals[i]) {
      if i > 0 {
        assert cols[1..][i - 1] == cols[i] && cols[1..][i..] == cols[i + 1..];
      }
    }
  }

  /** The name `pd.get_dummies` gives to the indicator of value `v` in column `c`. */
  function DummyName(c: string, v: string): (d: string)
    ensures |d| == |c| + 1 + |v|
    ensures d[..|c|] == c && d[|c|] == '_' && d[|c| + 1..] == v
  {
    c + "_" + v
  }

  /** The columns of `row` that hold numbers. */
  function NumericColumns(row: Row): set<string> {
    set c | c in row && row[c].Num?
  }

  /** The indicator columns that the string columns of `row` give rise to. */
  function DummyColumns(row: Row): set<string> {
    set c | c in row && row[c].Str? :: DummyName(c, row[c].s)
  }

  /** `pd.get_dummies(df)` on a one-row frame: numeric columns pass through;
      a string column `c` holding `v` is replaced by the indicator column
      `c_v`, set to 1.  Where an indicator name coincides with a numeric
      column, the numeric column is kept. */
  function GetDummies(row: Row): (r: Row)
    ensures r.Keys == NumericColumns(row) + DummyColumns(row)
    ensures forall c | c in row && row[c].Num? :: r[c] == row[c]
    ensures forall c | c in row && row[c].Str? ::
      var d := DummyName(c, row[c].s);
      d in r && (d !in NumericColumns(row) ==> r[d] == One)
    ensures forall c | c in r :: r[c].Num?
  {
    map k | k in NumericColumns(row) + DummyColumns(row) ::
      if k in row && row[k].Num? then row[k] else One
  }

  /** Every column name that occurs twice in `t` holds the same cell twice,
      as in a projection of a frame. */
  predicate Coherent(t: Table) {
    && |t.columns| == |t.cells|
    && forall i, j | 0 <= i < |t.columns| && 0 <= j < |t.columns| && t.columns[i] == t.columns[j] ::
         t.cells[i] == t.cells[j]
  }

  /** A table read back by column name; for a repeated name the first cell wins. */
  function ToRow(t: Table): (r: Row)
    requires |t.columns| == |t.cells|
    ensures r.Keys == set c | c in t.columns
    decreases |t.columns|
  {
    if t.columns == [] then map[]
    else ToRow(Table(t.columns[1..], t.cells[1..]))[t.columns[0] := t.cells[0]]
  }

  /** Reading a coherent table by name gives back every one of its cells. */
  lemma {:induction false} ToRowAt(t: Table)
    requires Coherent(t)
    ensures forall i | 0 <= i < |t.columns| :: ToRow(t)[t.columns[i]] == t.cells[i]
    decreases |t.columns|
  {
    if t.columns != [] {
      var rest := Table(t.columns[1..], t.cells[1..]);
      assert Coherent(rest) by {
        forall i, j | 0 <= i < |rest.columns| && 0 <= j < |rest.columns| && rest.columns[i] == rest.columns[j]
          ensures rest.cells[i] == rest.cells[j]
        {
          assert t.columns[i + 1] == t.columns[j + 1];
        }
      }
      ToRowAt(rest);
      forall i | 0 <= i < |t.columns| ensures ToRow(t)[t.columns[i]] == t.cells[i] {
        if i > 0 && t.columns[i] != t.columns[0] {
          assert rest.columns[i - 1] == t.columns[i];
        }
      }
    }
  }
}
