/**
 * A 2D pixel surface: a position on screen, a visibility flag and a
 * width-by-height block of 32-bit pixels stored row by row in one flat
 * array (pixel (x, y) at index x + y * width).
 */
module Surfaces {

  /** Where pixel (x, y) lives in the flat pixel array. */
  function PixelIndex(x: int, y: int, width: int): int {
    x + y * width
  }

  /** Every pixel of the surface has an index inside the pixel array. */
  lemma PixelIndexInRange(x: int, y: int, width: int, height: int)
    requires 0 <= x < width && 0 <= y < height
    ensures 0 <= PixelIndex(x, y, width) < width * height
  {
    assert y * width <= (height - 1) * width by {
      MulMonotone(y, height - 1, width);
    }
  }

  lemma MulMonotone(a: int, b: int, c: nat)
    requires a <= b
    ensures a * c <= b * c
  {
  }

  /** The column and row of a flat index are its remainder and quotient by the width. */
  lemma IndexCoordinates(x: int, y: int, width: int)
    requires 0 <= x < width && 0 <= y
    ensures PixelIndex(x, y, width) % width == x
    ensures PixelIndex(x, y, width) / width == y
  {
    var i := PixelIndex(x, y, width);
    var q, r := i / width, i % width;
    assert i == q * width + r;
    assert (y - q) * width == r - x;
    if y - q > 0 {
      MulMonotone(1, y - q, width);
    } else if y - q < 0 {
      MulMonotone(1, q - y, width);
    }
  }

  /** A pixel on the outer frame: the first or last row or column. */
  predicate OnBorder(x: int, y: int, width: int, height: int) {
    x == 0 || x == width - 1 || y == 0 || y == height - 1
  }

  /** The pixels after drawing the frame in the given colour: frame pixels take it, the rest keep theirs. */
  function Outlined(pixels: seq<bv32>, width: int, height: int, color: bv32): (r: seq<bv32>)
    requires width > 0
    ensures |r| == |pixels|
  {
    seq(|pixels|, i requires 0 <= i < |pixels| =>
      if OnBorder(i % width, i / width, width, height) then color else pixels[i])
  }

  /**
   * Outlining, seen pixel by pixel: every frame pixel has the colour and
   * every interior pixel (0 < x < width-1, 0 < y < height-1) is unchanged.
   */
  lemma OutlinedAt(pixels: seq<bv32>, width: int, height: int, color: bv32, x: int, y: int)
    requires width > 0 && height > 0 && |pixels| == width * height
    requires 0 <= x < width && 0 <= y < height
    ensures 0 <= PixelIndex(x, y, width) < |pixels|
    ensures Outlined(pixels, width, height, color)[PixelIndex(x, y, width)] ==
            if OnBorder(x, y, width, height) then color else pixels[PixelIndex(x, y, width)]
  {
    PixelIndexInRange(x, y, width, height);
    IndexCoordinates(x, y, width);
  }

  /** Drawing the same frame twice is drawing it once. */
  lemma OutlinedIdempotent(pixels: seq<bv32>, width: int, height: int, color: bv32)
    requires width > 0
    ensures Outlined(Outlined(pixels, width, height, color), width, height, color) ==
            Outlined(pixels, width, height, color)
  {
  }

  class Surface {
    var x: int
    var y: int
    var visible: bool
    const width: int
    const height: int
    const pixels: array<bv32>

    /** A surface has a positive size and one pixel per cell. */
    ghost predicate Valid()
      reads this
    {
      width > 0 && height > 0 && pixels.Length == width * height
    }

    /** A visible surface of the given size at (x, y). */
    constructor (x: int, y: int, width: int, height: int)
      requires width > 0 && height > 0
      ensures Valid() && fresh(pixels)
      ensures this.x == x && this.y == y && visible
      ensures this.width == width && this.height == height
    {
      this.x := x;
      this.y := y;
      this.width := width;
      this.height := height;
      this.pixels := new bv32[width * height];
      this.visible := true;
    }

    /** A visible surface of the given size at the origin. */
    constructor OfSize(width: int, height: int)
      requires width > 0 && height > 0
      ensures Valid() && fresh(pixels)
      ensures x == 0 && y == 0 && visible
      ensures this.width == width && this.height == height
    {
      this.x := 0;
      this.y := 0;
      this.width := width;
      this.height := height;
      this.pixels := new bv32[width * height];
      this.visible := true;
    }

    /**
     * A new surface at the origin whose pixel i is the i-th colour drawn
     * from the random source: every pixel is written, in index order.
     */
    static method RandomNoise(width: int, height: int, noise: nat -> bv32) returns (s: Surface)
      requires width > 0 && height > 0
      ensures fresh(s) && fresh(s.pixels) && s.Valid()
      ensures s.x == 0 && s.y == 0 && s.visible && s.width == width && s.height == height
      ensures forall i :: 0 <= i < s.pixels.Length ==> s.pixels[i] == noise(i)
    {
      s := new Surface.OfSize(width, height);
      var area := s.width * s.height;
      var i := 0;
      while i < area
        invariant 0 <= i <= area == s.pixels.Length
        invariant s.x == 0 && s.y == 0 && s.visible
        invariant forall k :: 0 <= k < i ==> s.pixels[k] == noise(k)
      {
        s.pixels[i] := noise(i);
        i := i + 1;
      }
    }

    /** Moves the surface horizontally; nothing else changes. */
    method SetX(x: int)
      modifies this
      ensures this.x == x && y == old(y) && visible == old(visible)
    {
      this.x := x;
    }

    /** Moves the surface vertically; nothing else changes. */
    method SetY(y: int)
      modifies this
      ensures this.y == y && x == old(x) && visible == old(visible)
    {
      this.y := y;
    }

    /** Shows or hides the surface; nothing else changes. */
    method SetVisibility(visible: bool)
      modifies this
      ensures this.visible == visible && x == old(x) && y == old(y)
    {
      this.visible := visible;
    }

    /**
     * Draws a one-pixel frame in the given (already mapped) colour: the top
     * and bottom rows first, then the left and right columns of the rows in
     * between.
     */
    method Outline(color: bv32)
      requires Valid()
      modifies pixels
      ensures pixels[..] == Outlined(old(pixels[..]), width, height, color)
    {
      var w := width;
      var h := height;
      ghost var before := pixels[..];

      var col := 0;
      EdgeRowsStart(before, w, h, color);
      while col < w
        invariant 0 <= col <= w
        invariant pixels[..] == EdgeRows(before, w, h, color, col)
      {
        PixelIndexInRange(col, h - 1, w, h);
        EdgeRowsStep(before, w, h, color, col);
        ghost var current := pixels[..];
        pixels[col] := color;
        assert pixels[..] == current[col := color];
        pixels[col + (h - 1) * w] := color;
        assert pixels[..] == current[col := color][col + (h - 1) * w := color];
        col := col + 1;
      }

      var row := 1;
      EdgeColumnsStart(before, w, h, color);
      while row < h - 1
        invariant 1 <= row && (h > 1 ==> row <= h - 1) && (h == 1 ==> row == 1)
        invariant pixels[..] == EdgeColumns(before, w, h, color, row)
      {
        PixelIndexInRange(w - 1, row, w, h);
        EdgeColumnsStep(before, w, h, color, row);
        ghost var current := pixels[..];
        pixels[row * w] := color;
        assert pixels[..] == current[row * w := color];
        pixels[(w - 1) + row * w] := color;
        assert pixels[..] == current[row * w := color][(w - 1) + row * w := color];
        row := row + 1;
      }
      EdgeColumnsDone(before, w, h, color, row);
    }
  }

  /** The pixels once the top and bottom rows are drawn up to (not including) column col. */
  ghost function EdgeRows(before: seq<bv32>, width: int, height: int, color: bv32, col: int): (r: seq<bv32>)
    requires width > 0
    ensures |r| == |before|
  {
    seq(|before|, i requires 0 <= i < |before| =>
      if (i / width == 0 || i / width == height - 1) && i % width < col then color else before[i])
  }

  /** The pixels once, in addition, the side columns of rows 1 to row-1 are drawn. */
  ghost function EdgeColumns(before: seq<bv32>, width: int, height: int, color: bv32, row: int): (r: seq<bv32>)
    requires width > 0
    ensures |r| == |before|
  {
    seq(|before|, i requires 0 <= i < |before| =>
      if i / width == 0 || i / width == height - 1 || (i / width < row && (i % width == 0 || i % width == width - 1))
      then color else before[i])
  }

  /** Drawing column col of the top and bottom rows writes exactly two cells (one when the rows coincide). */
  lemma EdgeRowsStep(before: seq<bv32>, width: int, height: int, color: bv32, col: int)
    requires width > 0 && height > 0 && |before| == width * height
    requires 0 <= col < width
    ensures 0 <= col + (height - 1) * width < |before|
    ensures EdgeRows(before, width, height, color, col + 1) ==
            EdgeRows(before, width, height, color, col)[col := color][col + (height - 1) * width := color]
  {
    PixelIndexInRange(col, 0, width, height);
    PixelIndexInRange(col, height - 1, width, height);
    IndexCoordinates(col, 0, width);
    IndexCoordinates(col, height - 1, width);
    var next := EdgeRows(before, width, height, color, col + 1);
    var written := EdgeRows(before, width, height, color, col)[col := color][col + (height - 1) * width := color];
    forall i | 0 <= i < |before|
      ensures next[i] == written[i]
    {
      IndexOfCoordinates(i, width);
    }
  }

  /** Before anything is drawn the pixels are as they were. */
  lemma EdgeRowsStart(before: seq<bv32>, width: int, height: int, color: bv32)
    requires width > 0
    ensures EdgeRows(before, width, height, color, 0) == before
  {
  }

  /** With both full rows drawn and no column yet, the two stages agree. */
  lemma EdgeColumnsStart(before: seq<bv32>, width: int, height: int, color: bv32)
    requires width > 0 && height > 0 && |before| == width * height
    ensures EdgeRows(before, width, height, color, width) == EdgeColumns(before, width, height, color, 1)
  {
    var a := EdgeRows(before, width, height, color, width);
    var b := EdgeColumns(before, width, height, color, 1);
    forall i | 0 <= i < |before|
      ensures a[i] == b[i]
    {
      RowInRange(i, width, height);
    }
  }

  /** Drawing the side columns of one inner row writes exactly its first and last cell. */
  lemma EdgeColumnsStep(before: seq<bv32>, width: int, height: int, color: bv32, row: int)
    requires width > 0 && height > 0 && |before| == width * height
    requires 1 <= row < height - 1
    ensures 0 <= row * width && (width - 1) + row * width < |before|
    ensures EdgeColumns(before, width, height, color, row + 1) ==
            EdgeColumns(before, width, height, color, row)[row * width := color][(width - 1) + row * width := color]
  {
    PixelIndexInRange(0, row, width, height);
    PixelIndexInRange(width - 1, row, width, height);
    IndexCoordinates(0, row, width);
    IndexCoordinates(width - 1, row, width);
    var next := EdgeColumns(before, width, height, color, row + 1);
    var written := EdgeColumns(before, width, height, color, row)[row * width := color][(width - 1) + row * width := color];
    forall i | 0 <= i < |before|
      ensures next[i] == written[i]
    {
      IndexOfCoordinates(i, width);
    }
  }

  /** Once every inner row has its side columns, the whole frame is drawn. */
  lemma EdgeColumnsDone(before: seq<bv32>, width: int, height: int, color: bv32, row: int)
    requires width > 0 && height > 0 && |before| == width * height
    requires 1 <= row && (height > 1 ==> row == height - 1) && (height <= 1 ==> row == 1)
    ensures EdgeColumns(before, width, height, color, row) == Outlined(before, width, height, color)
  {
    var a := EdgeColumns(before, width, height, color, row);
    var b := Outlined(before, width, height, color);
    forall i | 0 <= i < |before|
      ensures a[i] == b[i]
    {
      RowInRange(i, width, height);
    }
  }

  /** Every flat index is the index of its own column and row. */
  lemma IndexOfCoordinates(i: int, width: int)
    requires width > 0
    ensures i == PixelIndex(i % width, i / width, width)
  {
  }

  /** The row of an index inside the pixel array lies inside the surface. */
  lemma RowInRange(i: int, width: int, height: int)
    requires width > 0 && 0 <= i < width * height
    ensures 0 <= i / width < height
  {
    var q := i / width;
    if q >= height {
      MulMonotone(height, q, width);
    }
  }
}
