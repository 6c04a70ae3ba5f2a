/**
  Dense value tables: the Q table and the reward model R of the learner are
  `num_states x num_actions` matrices of reals. This module holds their shape
  predicate, the zero-filled constructor, numpy's first-max `argmax`, and the
  single-cell write every update performs.
 */
module Tables {

  type Row = seq<real>
  type Table = seq<Row>

  /** `t` has exactly `rows` rows, each of exactly `cols` entries. */
  predicate Shaped(t: Table, rows: nat, cols: nat) {
    |t| == rows && forall i :: 0 <= i < |t| ==> |t[i]| == cols
  }

  /** `t'` equals `t` at every in-range cell outside `written`. */
  predicate Agree(t: Table, t': Table, rows: nat, cols: nat, written: set<(nat, nat)>)
    requires Shaped(t, rows, cols) && Shaped(t', rows, cols)
  {
    forall x, y :: 0 <= x < rows && 0 <= y < cols && (x, y) !in written ==> t'[x][y] == t[x][y]
  }

  /** Cells left alone by two successive writes are left alone by both together. */
  lemma AgreeChain(t1: Table, t2: Table, t3: Table, rows: nat, cols: nat, w1: set<(nat, nat)>, w2: set<(nat, nat)>)
    requires Shaped(t1, rows, cols) && Shaped(t2, rows, cols) && Shaped(t3, rows, cols)
    requires Agree(t1, t2, rows, cols, w1) && Agree(t2, t3, rows, cols, w2)
    ensures Agree(t1, t3, rows, cols, w1 + w2)
  {
  }

  /** A zero-filled table of `rows` rows and `cols` columns. */
  function Zeros(rows: nat, cols: nat): (t: Table)
    ensures Shaped(t, rows, cols)
    ensures forall i, j :: 0 <= i < rows && 0 <= j < cols ==> t[i][j] == 0.0
  {
    seq(rows, _ => seq(cols, _ => 0.0))
  }

  /** `k` is the lowest index at which `row` attains its maximum. */
  predicate IsFirstMax(row: Row, k: nat) {
    && k < |row|
    && (forall j :: 0 <= j < |row| ==> row[j] <= row[k])
    && (forall j :: 0 <= j < k ==> row[j] < row[k])
  }

  /** numpy's `argmax` on a non-empty row: ties go to the lowest index. */
  function Argmax(row: Row): (k: nat)
    requires |row| > 0
    ensures IsFirstMax(row, k)
    decreases |row|
  {
    if |row| == 1 then 0
    else
      var k := Argmax(row[..|row| - 1]);
      if row[|row| - 1] > row[k] then |row| - 1 else k
  }

  /** The value at the first-max index: the largest entry of a non-empty row. */
  function MaxOf(row: Row): (m: real)
    requires |row| > 0
    ensures m in row
    ensures forall j :: 0 <= j < |row| ==> row[j] <= m
  {
    row[Argmax(row)]
  }

  /** The assignment `t[i, j] = v`. */
  function SetCell(t: Table, i: nat, j: nat, v: real): (t': Table)
    requires i < |t| && j < |t[i]|
    ensures |t'| == |t| && forall x :: 0 <= x < |t| ==> |t'[x]| == |t[x]|
    ensures t'[i][j] == v
    ensures forall x, y :: 0 <= x < |t| && 0 <= y < |t[x]| && (x != i || y != j) ==> t'[x][y] == t[x][y]
  {
    t[i := t[i][j := v]]
  }

  /** Exponential smoothing `(1 - alpha) * prior + alpha * target`, the shape of every update. */
  function Blend(alpha: real, prior: real, target: real): real {
    (1.0 - alpha) * prior + alpha * target
  }
}
