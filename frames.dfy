/** The pandas DataFrame operations the prediction pipeline applies to a batch: dropping
    columns, assigning a whole column, and replacing the values of a column by a mapping. */
module Frames {
  import opened Outcomes
  import opened Lists

  /** One cell of a frame; `Missing` is pandas' NaN. */
  datatype Cell = Num(x: real) | Text(s: string) | Missing

  /** A DataFrame: its column labels in order, the cells of each column, and its row count. */
  datatype Table = Table(columns: seq<string>, data: map<string, seq<Cell>>, rows: nat)

  /** Distinct labels, one column of cells per label, every column as long as the index. */
  ghost predicate WellFormed(t: Table)
  {
    && Distinct(t.columns)
    && (forall c :: c in t.data <==> c in t.columns)
    && (forall c :: c in t.data ==> |t.data[c]| == t.rows)
  }

  /** `df.drop(labels, axis=1)`: a new frame without those columns, the others untouched and
      in their order; when some label is not a column, `KeyError` naming the absent labels in
      the order they were given. */
  function DropColumns(t: Table, labels: seq<string>): (r: Result<Table>)
    requires WellFormed(t)
    ensures r.Failure? <==> exists l :: l in labels && l !in t.columns
    ensures r.Failure? ==> r.error == KeyError(Without(labels, t.columns))
    ensures r.Success? ==>
      && WellFormed(r.value)
      && r.value.rows == t.rows
      && r.value.columns == Without(t.columns, labels)
      && (forall c :: c in r.value.data ==> c in t.data && c !in labels && r.value.data[c] == t.data[c])
  {
    WithoutEmpty(labels, t.columns);
    if Without(labels, t.columns) != [] then Failure(KeyError(Without(labels, t.columns)))
    else
      var kept := Without(t.columns, labels);
      WithoutMembers(t.columns, labels);
      WithoutDistinct(t.columns, labels);
      Success(Table(kept, map c | c in t.data && c !in labels :: t.data[c], t.rows))
  }

  /** Dropping keeps exactly the columns that were not named. */
  lemma DropKeepsTheRest(t: Table, labels: seq<string>)
    requires WellFormed(t) && DropColumns(t, labels).Success?
    ensures forall c :: c in DropColumns(t, labels).value.columns <==> c in t.columns && c !in labels
  {
    WithoutMembers(t.columns, labels);
  }

  /** `df[name] = values`.  A column of that name is overwritten where it stands, otherwise
      the column is appended.  Values of another length raise `ValueError`, except on a frame
      with an empty index, which takes its index from the values (filling the columns it
      already had with NaN). */
  function SetColumn(t: Table, name: string, values: seq<Cell>): (r: Result<Table>)
    requires WellFormed(t)
    ensures r.Failure? <==> |values| != t.rows && !(t.rows == 0 && |values| > 0)
    ensures r.Success? ==>
      && WellFormed(r.value)
      && r.value.rows == |values|
      && name in r.value.data && r.value.data[name] == values
      && r.value.columns == (if name in t.columns then t.columns else t.columns + [name])
    ensures r.Success? && t.rows > 0 ==>
      forall c :: c in t.data && c != name ==> r.value.data[c] == t.data[c]
  {
    var columns := if name in t.columns then t.columns else t.columns + [name];
    if t.rows == 0 && |values| > 0 then
      var filled := map c | c in t.data :: seq(|values|, _ => Missing);
      Success(Table(columns, filled[name := values], |values|))
    else if |values| != t.rows then
      Failure(ValueError("Length of values does not match length of index"))
    else
      Success(Table(columns, t.data[name := values], t.rows))
  }

  function ReplaceCell(c: Cell, mapping: map<Cell, Cell>): Cell
  {
    if c in mapping then mapping[c] else c
  }

  /** `series.replace(mapping)` with a dict: every cell that is a key becomes its value, in
      one pass (a replaced value is not looked up again). */
  function Replace(cells: seq<Cell>, mapping: map<Cell, Cell>): seq<Cell>
  {
    seq(|cells|, i requires 0 <= i < |cells| => ReplaceCell(cells[i], mapping))
  }

  /** Replacing with a mapping and then with its inverse gives back the original cells, for
      cells the mapping covers: a label encoded by a mapping is decoded by its reverse. */
  lemma ReplaceRoundTrip(cells: seq<Cell>, forward: map<Cell, Cell>, reverse: map<Cell, Cell>)
    requires forall c :: c in forward ==> forward[c] in reverse && reverse[forward[c]] == c
    requires forall i :: 0 <= i < |cells| ==> cells[i] in forward
    ensures Replace(Replace(cells, forward), reverse) == cells
  {
  }

  /** Cells the mapping does not cover pass through unchanged. */
  lemma ReplaceKeepsUncovered(cells: seq<Cell>, mapping: map<Cell, Cell>, i: nat)
    requires i < |cells| && cells[i] !in mapping
    ensures |Replace(cells, mapping)| == |cells| && Replace(cells, mapping)[i] == cells[i]
  {
  }
}
