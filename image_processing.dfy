/**
 * The image sampler: the canvas the picture was drawn on has exactly one pixel
 * per dot, and its RGBA bytes are thresholded on alpha and on BT.601 luma
 * (the BT.601 weights 0.299 R + 0.587 G + 0.114 B).
 */
module ImageProcessing {

  type byte = x: int | 0 <= x < 256

  /** A pixel turns its dot on iff it is mostly opaque and bright. */
  predicate IsLit(r: byte, g: byte, b: byte, a: byte) {
    a > 128 && 0.299 * r as real + 0.587 * g as real + 0.114 * b as real > 128.0
  }

  /** The dot value of pixel k of an RGBA buffer. */
  function PixelBit(data: seq<byte>, k: nat): (bit: int)
    requires 4 * k + 3 < |data|
    ensures bit == 0 || bit == 1
  {
    if IsLit(data[4 * k], data[4 * k + 1], data[4 * k + 2], data[4 * k + 3]) then 1 else 0
  }

  /**
   * The threshold loop: the grid starts all zero and the stride-4 loop writes
   * `grid[i / 4]` for every byte offset i of a pixel.
   */
  method ProcessImagePixels(data: seq<byte>, rows: nat, cols: nat) returns (grid: seq<int>)
    requires |data| == 4 * (rows * cols)
    ensures |grid| == rows * cols
    ensures forall k :: 0 <= k < |grid| ==> grid[k] == PixelBit(data, k)
  {
    var cells := new int[rows * cols](_ => 0);
    var i := 0;
    while i < |data|
      invariant 0 <= i <= |data| && i % 4 == 0
      invariant forall k :: 0 <= k < i / 4 ==> cells[k] == PixelBit(data, k)
      invariant forall k :: i / 4 <= k < cells.Length ==> cells[k] == 0
    {
      var r, g, b, a := data[i], data[i + 1], data[i + 2], data[i + 3];
      if IsLit(r, g, b, a) {
        cells[i / 4] := 1;
      } else {
        cells[i / 4] := 0;
      }
      i := i + 4;
    }
    grid := cells[..];
  }

  /** The luma test in integers: 299 R + 587 G + 114 B above 128000. */
  lemma ScaledLuma(r: byte, g: byte, b: byte, a: byte)
    ensures IsLit(r, g, b, a) <==> a > 128 && 299 * r + 587 * g + 114 * b > 128000
  {
    assert 0.299 * r as real + 0.587 * g as real + 0.114 * b as real
        == (299 * r + 587 * g + 114 * b) as real / 1000.0;
  }

  /** A pixel with alpha at most 128 is off whatever its colour. */
  lemma TransparentIsOff(data: seq<byte>, k: nat)
    requires 4 * k + 3 < |data| && data[4 * k + 3] <= 128
    ensures PixelBit(data, k) == 0
  {
  }

  /** All luma weights are positive: raising a channel never turns a lit pixel off. */
  lemma BrighterStaysLit(r: byte, g: byte, b: byte, r': byte, g': byte, b': byte, a: byte)
    requires r <= r' && g <= g' && b <= b'
    requires IsLit(r, g, b, a)
    ensures IsLit(r', g', b', a)
  {
  }

  /** Opaque white is on and opaque black is off; pure red alone is too dark. */
  lemma ThresholdExamples()
    ensures IsLit(255, 255, 255, 255) && !IsLit(0, 0, 0, 255) && !IsLit(255, 0, 0, 255)
    ensures IsLit(0, 255, 0, 255) && !IsLit(255, 255, 255, 128)
  {
  }
}
