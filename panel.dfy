/**
 * The input tables of the model: one row per asset, one column per period.
 * `list(zip(*rows))` turns the rows into columns; the columns stop where the
 * shortest row stops, and there are none at all when there is no row.
 */
module Panel {

  /** What a computation on the panel yields: a value, or Python's IndexError. */
  datatype Result<T> = Ok(value: T) | IndexError

  /** Length of the shortest row of a non-empty table. */
  function MinWidth(rows: seq<seq<real>>): (w: nat)
    requires rows != []
    ensures forall i :: 0 <= i < |rows| ==> w <= |rows[i]|
    ensures exists i :: 0 <= i < |rows| && w == |rows[i]|
  {
    if |rows| == 1 then |rows[0]|
    else
      var rest := MinWidth(rows[1..]);
      assert forall i :: 1 <= i < |rows| ==> rows[1..][i - 1] == rows[i];
      if |rows[0]| <= rest then |rows[0]| else rest
  }

  /** Column `c` of a table, one entry per row. */
  function Column(rows: seq<seq<real>>, c: nat): seq<real>
    requires forall i :: 0 <= i < |rows| ==> c < |rows[i]|
  {
    seq(|rows|, i requires 0 <= i < |rows| => rows[i][c])
  }

  /** `list(zip(*rows))`: the columns that every row reaches. */
  function Transpose(rows: seq<seq<real>>): (cols: seq<seq<real>>)
  {
    if rows == [] then []
    else seq(MinWidth(rows), c requires 0 <= c < MinWidth(rows) => Column(rows, c))
  }

  /** Every row has an entry at position `c`, and there is at least one row. */
  predicate HasColumn(rows: seq<seq<real>>, c: nat)
  {
    rows != [] && forall i :: 0 <= i < |rows| ==> c < |rows[i]|
  }

  /**
   * Column `c` of `zip(*rows)` exists exactly when every row is longer than
   * `c` and there is a row; entry `i` of that column is `rows[i][c]`.
   */
  lemma TransposeColumn(rows: seq<seq<real>>, c: nat)
    ensures c < |Transpose(rows)| <==> HasColumn(rows, c)
    ensures c < |Transpose(rows)| ==>
      |Transpose(rows)[c]| == |rows| &&
      forall i :: 0 <= i < |rows| ==> Transpose(rows)[c][i] == rows[i][c]
  {
    if rows != [] {
      var w := MinWidth(rows);
      if HasColumn(rows, c) {
        var i :| 0 <= i < |rows| && w == |rows[i]|;
        assert c < w;
      }
    }
  }
}
