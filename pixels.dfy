/** The RGBA8 pixel buffer that the grid simulations upload as a texture. */
module Pixels {

  import Arith

  /** One `unsigned char` of the pixel buffer. */
  newtype byte = x: int | 0 <= x < 256

  /** The four bytes of one pixel, in buffer order. */
  datatype Rgba = Rgba(r: byte, g: byte, b: byte, a: byte)

  /** The pixel whose bytes start at offset 4 * k. */
  function PixelAt(p: seq<byte>, k: int): Rgba
    requires 0 <= k && 4 * k + 3 < |p|
  {
    Rgba(p[4 * k], p[4 * k + 1], p[4 * k + 2], p[4 * k + 3])
  }

  /**
    The colouring loop both lattice simulations run after a step: row by row,
    the cell at flat index idx = y * n + x is painted into bytes 4 * idx to
    4 * idx + 3 with the colour its value maps to.
  */
  method Paint(cells: array<int>, n: int, pixels: array<byte>, colour: int -> Rgba)
    requires n > 0 && cells.Length == n * n && pixels.Length == 4 * (n * n)
    modifies pixels
    ensures forall k :: 0 <= k < n * n ==> PixelAt(pixels[..], k) == colour(cells[k])
  {
    var y := 0;
    while y < n
      invariant 0 <= y <= n
      invariant y * n <= n * n
      invariant forall k :: 0 <= k < y * n ==> PixelAt(pixels[..], k) == colour(cells[k])
    {
      var x := 0;
      while x < n
        invariant 0 <= x <= n
        invariant y * n + x <= n * n
        invariant forall k :: 0 <= k < y * n + x ==> PixelAt(pixels[..], k) == colour(cells[k])
      {
        Arith.CellIndex(x, y, n);
        var idx := y * n + x;
        var pixelIdx := idx * 4;
        var c := colour(cells[idx]);
        ghost var before := pixels[..];
        pixels[pixelIdx + 0] := c.r;
        pixels[pixelIdx + 1] := c.g;
        pixels[pixelIdx + 2] := c.b;
        pixels[pixelIdx + 3] := c.a;
        assert forall k :: 0 <= k < idx ==> PixelAt(pixels[..], k) == PixelAt(before, k);
        assert PixelAt(pixels[..], idx) == c;
        x := x + 1;
      }
      Arith.NextRow(y, n);
      y := y + 1;
    }
  }
}
