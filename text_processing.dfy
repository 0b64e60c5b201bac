/**
 * The text sampler: text is drawn on a canvas 10 times the grid size, the font
 * is shrunk until the text fits 95% of the width, and each dot reads the red
 * byte of the pixel at the centre of its 10 x 10 block. Rasterisation is not
 * modelled: the text width at each font size and the rendered RGBA buffer are
 * parameters.
 */
module TextProcessing {
  import opened GridIndex
  import opened Wrappers

  const Scale: nat := 10

  /** 95% of the canvas width, the widest the text may be. */
  function MaxWidth(cols: nat): real {
    (cols * Scale) as real * 0.95
  }

  /**
   * The font-shrink loop: start at the canvas height and step down by one while
   * the text is too wide and the size is above 1. The result is the largest
   * size up to the height that fits, or 1 when none does.
   */
  method FitFontSize(rows: nat, cols: nat, textWidth: int -> real) returns (fontSize: int)
    ensures fontSize <= rows * Scale
    ensures rows >= 1 ==> fontSize >= 1
    ensures rows == 0 ==> fontSize == 0
    ensures textWidth(fontSize) <= MaxWidth(cols) || fontSize <= 1
    ensures forall f :: fontSize < f <= rows * Scale ==> textWidth(f) > MaxWidth(cols)
  {
    fontSize := rows * Scale;
    while textWidth(fontSize) > MaxWidth(cols) && fontSize > 1
      invariant fontSize <= rows * Scale
      invariant rows >= 1 ==> fontSize >= 1
      invariant rows == 0 ==> fontSize == 0
      invariant forall f :: fontSize < f <= rows * Scale ==> textWidth(f) > MaxWidth(cols)
      decreases fontSize
    {
      fontSize := fontSize - 1;
    }
  }

  /** Byte offset of the red channel of the centre pixel of cell (r, c). */
  function SampleIndex(r: nat, c: nat, cols: nat): nat {
    ((r * Scale + Scale / 2) * (cols * Scale) + (c * Scale + Scale / 2)) * 4
  }

  /** The dot value read for cell (r, c); a byte past the buffer reads as off. */
  function CenterBit(pixels: seq<int>, cols: nat, r: nat, c: nat): (bit: int)
    ensures bit == 0 || bit == 1
  {
    var i := SampleIndex(r, c, cols);
    if i < |pixels| && pixels[i] > 128 then 1 else 0
  }

  /**
   * The centre-sampling loops: a zero-filled grid whose cell r * cols + c is
   * written from the centre pixel of that cell.
   */
  method SampleCells(pixels: seq<int>, rows: nat, cols: nat) returns (grid: seq<int>)
    ensures |grid| == rows * cols
    ensures forall k :: 0 <= k < |grid| ==> grid[k] == CenterBit(pixels, cols, k / cols, k % cols)
  {
    var cells := new int[rows * cols](_ => 0);
    var k := 0;
    var r := 0;
    while r < rows
      invariant 0 <= r <= rows && k == r * cols
      invariant k <= cells.Length
      invariant forall j :: 0 <= j < k ==> cells[j] == CenterBit(pixels, cols, j / cols, j % cols)
    {
      var c := 0;
      while c < cols
        invariant 0 <= c <= cols && k == r * cols + c
        invariant k <= cells.Length
        invariant forall j :: 0 <= j < k ==> cells[j] == CenterBit(pixels, cols, j / cols, j % cols)
      {
        FlatIndex(r, c, rows, cols);
        var index := SampleIndex(r, c, cols);
        if index < |pixels| && pixels[index] > 128 {
          cells[k] := 1;
        } else {
          cells[k] := 0;
        }
        k := k + 1;
        c := c + 1;
      }
      r := r + 1;
    }
    grid := cells[..];
  }

  /**
   * `processText`: fit the font, render at that size, sample the cells. The
   * renderer returns the RGBA bytes of a (10 cols) x (10 rows) canvas. Reading
   * back a canvas with no rows or no columns throws (`getImageData` rejects a
   * zero width or height), which is `None` here.
   */
  method ProcessText(rows: nat, cols: nat, textWidth: int -> real, render: int -> seq<int>)
    returns (fontSize: int, grid: Option<seq<int>>)
    ensures rows >= 1 ==> 1 <= fontSize <= rows * Scale
    ensures textWidth(fontSize) <= MaxWidth(cols) || fontSize <= 1
    ensures forall f :: fontSize < f <= rows * Scale ==> textWidth(f) > MaxWidth(cols)
    ensures grid.None? <==> rows == 0 || cols == 0
    ensures grid.Some? ==> |grid.value| == rows * cols
    ensures grid.Some? ==> forall k :: 0 <= k < |grid.value| ==>
      grid.value[k] == CenterBit(render(fontSize), cols, k / cols, k % cols)
  {
    fontSize := FitFontSize(rows, cols, textWidth);
    if rows == 0 || cols == 0 {
      return fontSize, None;
    }
    var cells := SampleCells(render(fontSize), rows, cols);
    grid := Some(cells);
  }

  /** Cell (r, c) reads pixel (10 c + 5, 10 r + 5), the centre of its block, of a 10 cols wide canvas. */
  lemma SampleIsBlockCentre(r: nat, c: nat, cols: nat)
    ensures SampleIndex(r, c, cols) == ((10 * r + 5) * (10 * cols) + (10 * c + 5)) * 4
  {
  }

  /** The sampled offset is a whole pixel inside a buffer of 4 (10 cols) (10 rows) bytes. */
  lemma SampleIndexInRange(r: nat, c: nat, rows: nat, cols: nat)
    requires r < rows && c < cols
    ensures SampleIndex(r, c, cols) % 4 == 0
    ensures SampleIndex(r, c, cols) + 3 < 4 * ((cols * Scale) * (rows * Scale))
  {
    var w := cols * Scale;
    var y := r * Scale + 5;
    var x := c * Scale + 5;
    assert x < w;
    assert y + 1 <= rows * Scale;
    MulMono(rows * Scale, y + 1, w);
    assert y * w + x < (y + 1) * w;
  }

  /** On a buffer of the rendered size every cell reads a real byte. */
  lemma CenterBitReadsBuffer(pixels: seq<int>, r: nat, c: nat, rows: nat, cols: nat)
    requires |pixels| == 4 * ((cols * Scale) * (rows * Scale))
    requires r < rows && c < cols
    ensures SampleIndex(r, c, cols) < |pixels|
    ensures CenterBit(pixels, cols, r, c) == if pixels[SampleIndex(r, c, cols)] > 128 then 1 else 0
  {
    var n := 4 * ((cols * Scale) * (rows * Scale));
    SampleIndexInRange(r, c, rows, cols);
    assert SampleIndex(r, c, cols) < n;
  }

  /** Distinct cells read distinct pixels. */
  lemma SamplesDistinct(r1: nat, c1: nat, r2: nat, c2: nat, cols: nat)
    requires c1 < cols && c2 < cols
    requires SampleIndex(r1, c1, cols) == SampleIndex(r2, c2, cols)
    ensures r1 == r2 && c1 == c2
  {
    var w := cols * Scale;
    DivModUnique(r1 * Scale + 5, c1 * Scale + 5, r2 * Scale + 5, c2 * Scale + 5, w);
  }

  /** Cell (r, c) of the sampled grid is the bit read at its centre. */
  lemma GridCellIsCentre(grid: seq<int>, pixels: seq<int>, rows: nat, cols: nat, r: nat, c: nat)
    requires |grid| == rows * cols
    requires forall k :: 0 <= k < |grid| ==> grid[k] == CenterBit(pixels, cols, k / cols, k % cols)
    requires r < rows && c < cols
    ensures r * cols + c < |grid| && grid[r * cols + c] == CenterBit(pixels, cols, r, c)
  {
    FlatIndex(r, c, rows, cols);
  }
}
