/**
 * Pixel buffers as the pipeline sees them.
 *
 * A `Frame` stands for a numpy `uint8` array of shape (height, width, channels)
 * whose bytes lie in row-major order; a `Texture` stands for a Kivy texture
 * reduced to what the pipeline reads and writes: its size and its byte buffer.
 * The camera reshapes a texture's buffer into a frame (`FromBuffer`), may flip
 * its rows (`FlipUD`, numpy's `flipud`), and the image sink turns a frame back
 * into a texture (`ImageReceiver.CreateTexture` in module Receiver).
 */
module Frames {

  type Byte = bv8

  /** Channels per pixel of an RGBA texture buffer. */
  const RGBA: nat := 4

  datatype Frame = Frame(height: nat, width: nat, channels: nat, data: seq<Byte>)

  /** A texture of size (width, height) holding `pixels`, tight-packed RGBA bytes. */
  datatype Texture = Texture(width: nat, height: nat, pixels: seq<Byte>)

  /** Number of bytes in one row of a frame. */
  function RowLen(f: Frame): nat {
    f.width * f.channels
  }

  /** The declared shape of the frame agrees with the length of its data. */
  predicate WellShaped(f: Frame) {
    |f.data| == f.height * RowLen(f)
  }

  /** `reshape((height, width, 4))` succeeds exactly when this holds. */
  predicate Reshapable(t: Texture) {
    |t.pixels| == t.height * t.width * RGBA
  }

  /** Row-major position of element [i, j, k]. */
  function Offset(f: Frame, i: nat, j: nat, k: nat): nat {
    i * RowLen(f) + j * f.channels + k
  }

  lemma MulMonotone(a: nat, b: nat, m: nat)
    requires a <= b
    ensures a * m <= b * m
  {
  }

  /** Every index within a row lies within that row, and every row within the data. */
  lemma CellInRange(rows: nat, rowLen: nat, i: nat, j: nat)
    requires i < rows && j < rowLen
    ensures i * rowLen + j < rows * rowLen
  {
    MulMonotone(i + 1, rows, rowLen);
  }

  lemma OffsetInRange(f: Frame, i: nat, j: nat, k: nat)
    requires WellShaped(f) && i < f.height && j < f.width && k < f.channels
    ensures Offset(f, i, j, k) < |f.data|
  {
    CellInRange(f.width, f.channels, j, k);
    CellInRange(f.height, RowLen(f), i, j * f.channels + k);
  }

  /** Element [i, j, k] of a well-shaped frame. */
  function At(f: Frame, i: nat, j: nat, k: nat): Byte
    requires WellShaped(f) && i < f.height && j < f.width && k < f.channels
  {
    OffsetInRange(f, i, j, k);
    f.data[Offset(f, i, j, k)]
  }

  /**
   * `np.frombuffer(pixels, dtype=np.uint8).reshape((height, width, 4))`:
   * the bytes are kept as they are and given the RGBA shape.
   */
  function FromBuffer(pixels: seq<Byte>, width: nat, height: nat): (f: Frame)
    requires |pixels| == height * width * RGBA
    ensures WellShaped(f) && f.channels == RGBA
    ensures f.height == height && f.width == width
  {
    Frame(height, width, RGBA, pixels)
  }

  /** The rows of `data`, `rows` rows of `rowLen` bytes each, in reverse order. */
  function ReverseRows(data: seq<Byte>, rowLen: nat, rows: nat): (out: seq<Byte>)
    requires |data| == rows * rowLen
    ensures |out| == rows * rowLen
    decreases rows
  {
    if rows == 0 then []
    else
      var last := (rows - 1) * rowLen;
      data[last..] + ReverseRows(data[..last], rowLen, rows - 1)
  }

  /** Byte j of row i of the result is byte j of row `mirror` = rows-1-i of the input. */
  lemma {:induction false} ReverseRowsAt(data: seq<Byte>, rowLen: nat, rows: nat, i: nat, mirror: nat, j: nat)
    requires |data| == rows * rowLen
    requires i + mirror == rows - 1 && i < rows && j < rowLen
    ensures i * rowLen + j < rows * rowLen && mirror * rowLen + j < rows * rowLen
    ensures ReverseRows(data, rowLen, rows)[i * rowLen + j] == data[mirror * rowLen + j]
  {
    CellInRange(rows, rowLen, i, j);
    CellInRange(rows, rowLen, mirror, j);
    var last := (rows - 1) * rowLen;
    var rest := ReverseRows(data[..last], rowLen, rows - 1);
    assert ReverseRows(data, rowLen, rows) == data[last..] + rest;
    assert |data[last..]| == rowLen;
    if i > 0 {
      ReverseRowsAt(data[..last], rowLen, rows - 1, i - 1, mirror, j);
      assert i * rowLen + j == rowLen + ((i - 1) * rowLen + j);
    }
  }

  /** Every position below rows * rowLen is some byte j of some row i. */
  lemma SplitPosition(rows: nat, rowLen: nat, p: nat) returns (i: nat, j: nat)
    requires p < rows * rowLen
    ensures i < rows && j < rowLen && p == i * rowLen + j
  {
    i, j := p / rowLen, p % rowLen;
    if rows <= i {
      MulMonotone(rows, i, rowLen);
    }
  }

  lemma {:induction false} ReverseRowsTwiceAt(data: seq<Byte>, rowLen: nat, rows: nat, p: nat)
    requires |data| == rows * rowLen && p < |data|
    ensures ReverseRows(ReverseRows(data, rowLen, rows), rowLen, rows)[p] == data[p]
  {
    var once := ReverseRows(data, rowLen, rows);
    var i, j := SplitPosition(rows, rowLen, p);
    ReverseRowsAt(once, rowLen, rows, i, rows - 1 - i, j);
    ReverseRowsAt(data, rowLen, rows, rows - 1 - i, i, j);
  }

  /** Reversing the rows twice gives back the original bytes. */
  lemma {:induction false} ReverseRowsTwice(data: seq<Byte>, rowLen: nat, rows: nat)
    requires |data| == rows * rowLen
    ensures ReverseRows(ReverseRows(data, rowLen, rows), rowLen, rows) == data
  {
    var twice := ReverseRows(ReverseRows(data, rowLen, rows), rowLen, rows);
    forall p | 0 <= p < |data|
      ensures twice[p] == data[p]
    {
      ReverseRowsTwiceAt(data, rowLen, rows, p);
    }
  }

  /** numpy's `flipud`: the same shape with the order of the rows reversed. */
  function FlipUD(f: Frame): (r: Frame)
    requires WellShaped(f)
    ensures WellShaped(r)
    ensures r.height == f.height && r.width == f.width && r.channels == f.channels
  {
    Frame(f.height, f.width, f.channels, ReverseRows(f.data, RowLen(f), f.height))
  }

  /** Row i of the flipped frame is row height-1-i of the original, element by element. */
  lemma FlipUDAt(f: Frame, i: nat, j: nat, k: nat)
    requires WellShaped(f) && i < f.height && j < f.width && k < f.channels
    ensures At(FlipUD(f), i, j, k) == At(f, f.height - 1 - i, j, k)
  {
    CellInRange(f.width, f.channels, j, k);
    ReverseRowsAt(f.data, RowLen(f), f.height, i, f.height - 1 - i, j * f.channels + k);
  }

  /** Flipping twice is the identity. */
  lemma FlipUDTwice(f: Frame)
    requires WellShaped(f)
    ensures FlipUD(FlipUD(f)) == f
  {
    ReverseRowsTwice(f.data, RowLen(f), f.height);
  }
}
