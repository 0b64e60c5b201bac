/**
 * The DOM grid view: one FlipDot element per cell, in row-major order, and one
 * column-flip click per column whenever new data arrives.
 */
module DisplayGrid {
  import opened Decimal
  import opened GridIndex

  /** The props handed to one FlipDot element. */
  datatype FlipDotProps = FlipDotProps(key: string, active: bool, colorFront: string, colorBack: string,
                                       transitionDelay: real)

  /** The React key `${r}-${c}`. */
  function CellKey(r: nat, c: nat): string {
    Dec(r) + "-" + Dec(c)
  }

  /** The element of flat cell k: cell (k / cols, k % cols), active iff the bitmap holds exactly 1 at k. */
  function CellItem(data: seq<int>, cols: nat, colorFront: string, colorBack: string, columnDelay: real,
                    k: nat): FlipDotProps
    requires cols > 0
  {
    FlipDotProps(CellKey(k / cols, k % cols), k < |data| && data[k] == 1, colorFront, colorBack,
                 (k % cols) as real * columnDelay)
  }

  /**
   * `items` holds, in row-major order, the element of every cell: item k is
   * cell (k / cols, k % cols), active iff the bitmap holds exactly 1 at k (a
   * missing entry is inactive), delayed by its column's transition delay.
   */
  predicate IsGridOf(items: seq<FlipDotProps>, rows: nat, cols: nat, data: seq<int>, colorFront: string,
                     colorBack: string, columnDelay: real)
  {
    && |items| == rows * cols
    && (|items| == 0 || cols > 0)
    && IsGridPrefix(items, data, cols, colorFront, colorBack, columnDelay)
  }

  /** The `gridItems` construction: nested loops pushing one element per cell. */
  method GridItems(rows: nat, cols: nat, data: seq<int>, colorFront: string, colorBack: string, columnDelay: real)
    returns (items: seq<FlipDotProps>)
    ensures IsGridOf(items, rows, cols, data, colorFront, colorBack, columnDelay)
  {
    items := [];
    var r := 0;
    while r < rows
      invariant 0 <= r <= rows
      invariant |items| == r * cols && (|items| == 0 || cols > 0)
      invariant IsGridPrefix(items, data, cols, colorFront, colorBack, columnDelay)
    {
      var c := 0;
      while c < cols
        invariant 0 <= c <= cols
        invariant |items| == r * cols + c && (|items| == 0 || cols > 0)
        invariant IsGridPrefix(items, data, cols, colorFront, colorBack, columnDelay)
      {
        FlatIndex(r, c, rows, cols);
        var index := r * cols + c;
        var isActive := index < |data| && data[index] == 1;
        var item := FlipDotProps(CellKey(r, c), isActive, colorFront, colorBack, c as real * columnDelay);
        CellItemAt(data, cols, colorFront, colorBack, columnDelay, r, c, index);
        GridPrefixGrows(items, item, data, cols, colorFront, colorBack, columnDelay);
        items := items + [item];
        c := c + 1;
      }
      assert r * cols + cols == (r + 1) * cols;
      r := r + 1;
    }
  }

  /** Flat index r * cols + c builds the element of cell (r, c). */
  lemma CellItemAt(data: seq<int>, cols: nat, colorFront: string, colorBack: string, columnDelay: real,
                   r: nat, c: nat, k: nat)
    requires c < cols && k == r * cols + c
    ensures CellItem(data, cols, colorFront, colorBack, columnDelay, k)
         == FlipDotProps(CellKey(r, c), k < |data| && data[k] == 1, colorFront, colorBack, c as real * columnDelay)
  {
    DivModUnique(k / cols, k % cols, r, c, cols);
  }

  /** The first |items| elements of the grid are in place. */
  predicate IsGridPrefix(items: seq<FlipDotProps>, data: seq<int>, cols: nat, colorFront: string,
                         colorBack: string, columnDelay: real)
    requires |items| == 0 || cols > 0
  {
    forall k :: 0 <= k < |items| ==> items[k] == CellItem(data, cols, colorFront, colorBack, columnDelay, k)
  }

  lemma GridPrefixGrows(items: seq<FlipDotProps>, item: FlipDotProps, data: seq<int>, cols: nat, colorFront: string,
                        colorBack: string, columnDelay: real)
    requires cols > 0 && IsGridPrefix(items, data, cols, colorFront, colorBack, columnDelay)
    requires item == CellItem(data, cols, colorFront, colorBack, columnDelay, |items|)
    ensures IsGridPrefix(items + [item], data, cols, colorFront, colorBack, columnDelay)
  {
  }

  /** In "r-c" the first dash sits right after the digits of r. */
  lemma DashAfterRow(r: nat, c: nat)
    ensures |Dec(r)| < |CellKey(r, c)| && CellKey(r, c)[|Dec(r)|] == '-'
    ensures forall i :: 0 <= i < |Dec(r)| ==> CellKey(r, c)[i] != '-'
  {
    var s := CellKey(r, c);
    forall i | 0 <= i < |Dec(r)| ensures s[i] != '-' {
      assert s[i] == Dec(r)[i];
    }
  }

  /** Distinct cells get distinct keys. */
  lemma CellKeyInjective(r1: nat, c1: nat, r2: nat, c2: nat)
    requires CellKey(r1, c1) == CellKey(r2, c2)
    ensures r1 == r2 && c1 == c2
  {
    var s := CellKey(r1, c1);
    DashAfterRow(r1, c1);
    DashAfterRow(r2, c2);
    var n := |Dec(r1)|;
    assert n == |Dec(r2)|;
    assert Dec(r1) == s[..n] == Dec(r2);
    assert Dec(c1) == s[n + 1..] == Dec(c2);
    DecInjective(r1, r2);
    DecInjective(c1, c2);
  }

  /** Item r * cols + c is cell (r, c): key "r-c", its own bitmap entry, and a delay set by its column alone. */
  lemma ItemOfCell(items: seq<FlipDotProps>, rows: nat, cols: nat, data: seq<int>, colorFront: string,
                   colorBack: string, columnDelay: real, r: nat, c: nat)
    requires IsGridOf(items, rows, cols, data, colorFront, colorBack, columnDelay)
    requires r < rows && c < cols
    ensures r * cols + c < |items|
    ensures items[r * cols + c].key == CellKey(r, c)
    ensures items[r * cols + c].active <==> r * cols + c < |data| && data[r * cols + c] == 1
    ensures items[r * cols + c].transitionDelay == c as real * columnDelay
  {
    FlatIndex(r, c, rows, cols);
  }

  /** No two elements of the grid share a React key. */
  lemma KeysDistinct(items: seq<FlipDotProps>, rows: nat, cols: nat, data: seq<int>, colorFront: string,
                     colorBack: string, columnDelay: real, i: nat, j: nat)
    requires IsGridOf(items, rows, cols, data, colorFront, colorBack, columnDelay)
    requires i < j < |items|
    ensures items[i].key != items[j].key
  {
    CellOfIndex(j, rows, cols);
    assert items[i] == CellItem(data, cols, colorFront, colorBack, columnDelay, i);
    assert items[j] == CellItem(data, cols, colorFront, colorBack, columnDelay, j);
    FlatKeysDistinct(i, j, cols);
  }

  /** Distinct flat indices of a grid with cols columns have distinct keys. */
  lemma FlatKeysDistinct(i: nat, j: nat, cols: nat)
    requires cols > 0 && i != j
    ensures CellKey(i / cols, i % cols) != CellKey(j / cols, j % cols)
  {
    CellsOfDistinctIndices(i, j, cols);
    CellKeysDiffer(i / cols, i % cols, j / cols, j % cols);
  }

  lemma CellKeysDiffer(r1: nat, c1: nat, r2: nat, c2: nat)
    requires r1 != r2 || c1 != c2
    ensures CellKey(r1, c1) != CellKey(r2, c2)
  {
    if CellKey(r1, c1) == CellKey(r2, c2) {
      CellKeyInjective(r1, c1, r2, c2);
    }
  }

  /**
   * The sound effect on new data: nothing for an empty bitmap, otherwise one
   * `playColumnFlip` per column, delayed by that column's transition delay.
   * The result is the sequence of delays passed, in call order.
   */
  method ColumnFlipDelays(data: seq<int>, cols: nat, columnDelay: real) returns (delays: seq<real>)
    ensures |data| == 0 ==> delays == []
    ensures |data| > 0 ==> |delays| == cols && forall c :: 0 <= c < cols ==> delays[c] == c as real * columnDelay
  {
    delays := [];
    if |data| == 0 {
      return;
    }
    var c := 0;
    while c < cols
      invariant 0 <= c <= cols
      invariant |delays| == c && forall j :: 0 <= j < c ==> delays[j] == j as real * columnDelay
    {
      delays := delays + [c as real * columnDelay];
      c := c + 1;
    }
  }
}
