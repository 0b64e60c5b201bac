/** Row-major flat indices `r * cols + c`, shared by every bitmap of the display. */
module GridIndex {

  lemma DivModUnique(q1: int, m1: int, q2: int, m2: int, w: int)
    requires w > 0 && 0 <= m1 < w && 0 <= m2 < w
    requires q1 * w + m1 == q2 * w + m2
    ensures q1 == q2 && m1 == m2
  {
    var d := q2 - q1;
    assert d * w == q2 * w - q1 * w;
    assert m1 - m2 == d * w;
    if d >= 1 {
      MulAtLeast(d, w);
    } else if d <= -1 {
      MulAtLeast(-d, w);
    }
  }

  lemma MulAtLeast(d: int, w: int)
    requires d >= 1 && w > 0
    ensures d * w >= w
  {
    assert d * w == (d - 1) * w + w;
  }

  lemma MulMono(a: int, b: int, w: int)
    requires a >= b && w >= 0
    ensures a * w >= b * w
  {
    assert a * w == b * w + (a - b) * w;
  }

  /** Cell (r, c) of a rows x cols grid sits at flat index r * cols + c, inside the grid. */
  lemma FlatIndex(r: nat, c: nat, rows: nat, cols: nat)
    requires r < rows && c < cols
    ensures 0 <= r * cols + c < rows * cols
    ensures (r * cols + c) / cols == r && (r * cols + c) % cols == c
  {
    assert r * cols + c < r * cols + cols == (r + 1) * cols;
    assert (r + 1) * cols <= rows * cols;
    var k := r * cols + c;
    DivModUnique(k / cols, k % cols, r, c, cols);
  }

  /** Flat index k of a rows x cols grid names the cell (k / cols, k % cols). */
  lemma CellOfIndex(k: nat, rows: nat, cols: nat)
    requires k < rows * cols
    ensures cols > 0 && k / cols < rows && k % cols < cols
    ensures (k / cols) * cols + k % cols == k
  {
    assert (k / cols) * cols + k % cols == k;
    var q := k / cols;
    if q >= rows {
      MulMono(q, rows, cols);
    }
  }

  /** Distinct flat indices name distinct cells. */
  lemma CellsOfDistinctIndices(i: nat, j: nat, cols: nat)
    requires cols > 0 && i != j
    ensures i / cols != j / cols || i % cols != j % cols
  {
    assert i == (i / cols) * cols + i % cols && j == (j / cols) * cols + j % cols;
  }
}
