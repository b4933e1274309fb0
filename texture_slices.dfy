/** The two byte-buffer helpers of indext.js:779-808: cropping a row-major
    RGBA buffer to a block-aligned size, and cutting the bottom half out of a
    4x4-block-compressed image. */
module TextureSlices {
  import opened Common

  newtype byte = x: int | 0 <= x < 256

  /** `subarray(begin, end)` / `slice(begin, end)` of a typed array, for
      non-negative bounds: both bounds are clamped to the length. */
  function Clamped(s: seq<byte>, begin: nat, end: nat): (r: seq<byte>)
    ensures begin <= end ==> |r| == Min(end, |s|) - Min(begin, |s|) <= end - begin
    ensures begin <= end <= |s| ==> r == s[begin..end]
    ensures begin <= |s| <= end ==> r == s[begin..]
    ensures |s| <= begin || end <= begin ==> r == []
  {
    var b, e := Min(begin, |s|), Min(end, |s|);
    if b < e then s[b..e] else []
  }

  /** The byte a fresh zero-filled buffer ends up holding at index `i` of a
      copy of `data`: the source byte, or 0 past the end of the source. */
  function ByteOrZero(data: seq<byte>, i: int): byte {
    if 0 <= i < |data| then data[i] else 0
  }

  function Zeros(n: nat): seq<byte> {
    seq(n, _ => 0)
  }

  /** One destination row, byte by byte: `rowBytes` bytes of `data` from
      `srcStart` on, with 0 wherever `data` has run out. */
  function PaddedRow(data: seq<byte>, srcStart: nat, rowBytes: nat): seq<byte> {
    seq(rowBytes, c => ByteOrZero(data, srcStart + c))
  }

  /** Copying the clamped source range into the start of a zero-filled row
      of `w` bytes yields the padded row: what `set(subarray(..))` does to
      one row of the fresh buffer. */
  lemma ClampedThenZeros(data: seq<byte>, start: nat, w: nat)
    ensures |Clamped(data, start, start + w)| <= w
    ensures Clamped(data, start, start + w) + Zeros(w - |Clamped(data, start, start + w)|) == PaddedRow(data, start, w)
  {
    var chunk := Clamped(data, start, start + w);
    var row := chunk + Zeros(w - |chunk|);
    forall c | 0 <= c < w
      ensures row[c] == PaddedRow(data, start, w)[c]
    {
      assert PaddedRow(data, start, w)[c] == ByteOrZero(data, start + c);
      if start + w <= |data| {
        assert chunk == data[start..start + w];
        assert row[c] == chunk[c];
      } else if start <= |data| {
        assert chunk == data[start..];
        if c < |chunk| {
          assert row[c] == chunk[c];
        } else {
          assert row[c] == Zeros(w - |chunk|)[c - |chunk|];
        }
      } else {
        assert row[c] == Zeros(w - |chunk|)[c - |chunk|];
      }
    }
  }

  /** `count * stride`, built by repeated addition so that the row-by-row
      arguments below stay linear; `OffsetIsProduct` ties it to `*`. */
  function Offset(count: nat, stride: nat): nat
    decreases count
  {
    if count == 0 then 0 else Offset(count - 1, stride) + stride
  }

  lemma {:induction false} OffsetIsProduct(count: nat, stride: nat)
    ensures Offset(count, stride) == count * stride
  {
    if count > 0 {
      OffsetIsProduct(count - 1, stride);
      assert (count - 1) * stride + stride == count * stride;
    }
  }

  /** Row `a` ends no later than a later row `b` starts. */
  lemma {:induction false} OffsetMono(a: nat, b: nat, stride: nat)
    requires a < b
    ensures Offset(a, stride) + stride <= Offset(b, stride)
    decreases b - a
  {
    if a + 1 < b {
      OffsetMono(a + 1, b, stride);
    }
  }

  /** The first `rows` rows of what `extractSubImageData` returns, for
      source rows `srcStride` bytes apart and destination rows of
      `rowBytes` bytes (textureWidth * 4 and alignedWidth * 4). */
  function SubImage(data: seq<byte>, srcStride: nat, rowBytes: nat, rows: nat): (r: seq<byte>)
    ensures |r| == Offset(rows, rowBytes)
    decreases rows
  {
    if rows == 0 then []
    else SubImage(data, srcStride, rowBytes, rows - 1) + PaddedRow(data, Offset(rows - 1, srcStride), rowBytes)
  }

  /** Adding a row leaves the rows before it alone. */
  lemma SubImageKeepsPrefix(data: seq<byte>, srcStride: nat, rowBytes: nat, rows: nat, i: nat)
    requires rows > 0 && i < |SubImage(data, srcStride, rowBytes, rows - 1)|
    ensures SubImage(data, srcStride, rowBytes, rows)[i] == SubImage(data, srcStride, rowBytes, rows - 1)[i]
  {
  }

  /** The row added last is the padded source row. */
  lemma SubImageLastRow(data: seq<byte>, srcStride: nat, rowBytes: nat, rows: nat, c: nat)
    requires rows > 0 && c < rowBytes
    ensures Offset(rows - 1, rowBytes) + c < |SubImage(data, srcStride, rowBytes, rows)|
    ensures SubImage(data, srcStride, rowBytes, rows)[Offset(rows - 1, rowBytes) + c]
            == ByteOrZero(data, Offset(rows - 1, srcStride) + c)
  {
    var prefix := SubImage(data, srcStride, rowBytes, rows - 1);
    var last := PaddedRow(data, Offset(rows - 1, srcStride), rowBytes);
    assert (prefix + last)[|prefix| + c] == last[c];
  }

  /** Byte `c` of destination row `r` is byte `c` of source row `r`, or 0
      where the source has run out. */
  lemma {:induction false} SubImageAt(data: seq<byte>, srcStride: nat, rowBytes: nat, rows: nat, r: nat, c: nat)
    requires r < rows && c < rowBytes
    ensures Offset(r, rowBytes) + c < |SubImage(data, srcStride, rowBytes, rows)|
    ensures SubImage(data, srcStride, rowBytes, rows)[Offset(r, rowBytes) + c] == ByteOrZero(data, Offset(r, srcStride) + c)
  {
    if r == rows - 1 {
      SubImageLastRow(data, srcStride, rowBytes, rows, c);
    } else {
      SubImageAt(data, srcStride, rowBytes, rows - 1, r, c);
      SubImageKeepsPrefix(data, srcStride, rowBytes, rows, Offset(r, rowBytes) + c);
    }
  }

  /** The same in the terms the source indexes with: destination byte
      r * rowBytes + c comes from source byte r * srcStride + c. */
  lemma SubImageByte(data: seq<byte>, srcStride: nat, rowBytes: nat, rows: nat, r: nat, c: nat)
    requires r < rows && c < rowBytes
    ensures |SubImage(data, srcStride, rowBytes, rows)| == rows * rowBytes
    ensures r * rowBytes + c < rows * rowBytes
    ensures SubImage(data, srcStride, rowBytes, rows)[r * rowBytes + c] == ByteOrZero(data, r * srcStride + c)
  {
    SubImageAt(data, srcStride, rowBytes, rows, r, c);
    OffsetIsProduct(r, rowBytes);
    OffsetIsProduct(r, srcStride);
    OffsetIsProduct(rows, rowBytes);
  }

  /** A destination row whose source row lies wholly inside the input is an
      exact copy of it. */
  lemma SubImageCopiesRow(data: seq<byte>, srcStride: nat, rowBytes: nat, rows: nat, r: nat)
    requires r < rows
    requires Offset(r, srcStride) + rowBytes <= |data|
    ensures var out := SubImage(data, srcStride, rowBytes, rows);
            var dst, src := Offset(r, rowBytes), Offset(r, srcStride);
            dst + rowBytes <= |out| && out[dst .. dst + rowBytes] == data[src .. src + rowBytes]
  {
    var out := SubImage(data, srcStride, rowBytes, rows);
    var dst, src := Offset(r, rowBytes), Offset(r, srcStride);
    OffsetMono(r, rows, rowBytes);
    var copied, original := out[dst .. dst + rowBytes], data[src .. src + rowBytes];
    forall c | 0 <= c < rowBytes
      ensures copied[c] == original[c]
    {
      SubImageAt(data, srcStride, rowBytes, rows, r, c);
    }
    assert copied == original;
  }

  /** `s` with `src` written over it from index `offset` on. */
  function Overwrite(s: seq<byte>, src: seq<byte>, offset: nat): seq<byte>
    requires offset + |src| <= |s|
  {
    s[..offset] + src + s[offset + |src|..]
  }

  /** `TypedArray.prototype.set(src, offset)`; the RangeError it throws past
      the end is never reached by the caller below. */
  method CopyInto(dest: array<byte>, src: seq<byte>, offset: nat)
    requires offset + |src| <= dest.Length
    modifies dest
    ensures dest[..] == Overwrite(old(dest[..]), src, offset)
  {
    forall k | 0 <= k < |src| {
      dest[offset + k] := src[k];
    }
    assert dest[..] == Overwrite(old(dest[..]), src, offset);
  }

  /** One pass of the row loop: writing a (possibly short) chunk at the
      start of the zero-filled part appends a padded row to what is done. */
  lemma CopyRowStep(before: seq<byte>, after: seq<byte>, chunk: seq<byte>, w: nat, done: seq<byte>, rest: nat)
    requires |chunk| <= w
    requires before == done + Zeros(w + rest)
    requires |done| + |chunk| <= |before| && after == Overwrite(before, chunk, |done|)
    ensures after == done + (chunk + Zeros(w - |chunk|)) + Zeros(rest)
  {
    var expected := done + (chunk + Zeros(w - |chunk|)) + Zeros(rest);
    assert |after| == |expected|;
    forall k | 0 <= k < |after|
      ensures after[k] == expected[k]
    {
      if k >= |done| + |chunk| {
        assert after[k] == before[k];
      }
    }
  }

  /** The source row `row` of a buffer with rows `srcStride` bytes apart,
      clamped to the buffer, fits in destination row `row` of `rows` rows
      of `w` bytes. */
  lemma RowFits(data: seq<byte>, srcStride: nat, w: nat, rows: nat, row: nat)
    requires row < rows
    ensures Offset(row, w) + w <= Offset(rows, w)
    ensures Offset(row, w) + |Clamped(data, Offset(row, srcStride), Offset(row, srcStride) + w)| <= Offset(rows, w)
  {
    OffsetMono(row, rows, w);
    ClampedThenZeros(data, Offset(row, srcStride), w);
  }

  /** The row loop's invariant is kept by copying the clamped source row
      into the destination row. */
  lemma RowLoopStep(data: seq<byte>, srcStride: nat, w: nat, rows: nat, row: nat,
                    chunk: seq<byte>, before: seq<byte>, after: seq<byte>)
    requires row < rows && Offset(row, w) + w <= Offset(rows, w)
    requires chunk == Clamped(data, Offset(row, srcStride), Offset(row, srcStride) + w)
    requires before == SubImage(data, srcStride, w, row) + Zeros(Offset(rows, w) - Offset(row, w))
    requires Offset(row, w) + |chunk| <= |before| && after == Overwrite(before, chunk, Offset(row, w))
    ensures Offset(row + 1, w) <= Offset(rows, w)
    ensures after == SubImage(data, srcStride, w, row + 1) + Zeros(Offset(rows, w) - Offset(row + 1, w))
  {
    var done := SubImage(data, srcStride, w, row);
    OffsetMono(row, rows, w);
    ClampedThenZeros(data, Offset(row, srcStride), w);
    CopyRowStep(before, after, chunk, w, done, Offset(rows, w) - Offset(row + 1, w));
  }

  /** `width * height * 4`, the byte size of a `width` x `height` RGBA
      image. */
  method ImageBytes(width: nat, height: nat) returns (size: nat)
    ensures size == Offset(height, width * 4)
  {
    size := width * height * 4;
    assert width * height * 4 == height * (width * 4);
    OffsetIsProduct(height, width * 4);
  }

  /** `row * width * 4`, the byte offset of a row of `width` RGBA pixels. */
  method RowStart(row: nat, width: nat) returns (start: nat)
    ensures start == Offset(row, width * 4)
  {
    start := row * width * 4;
    assert row * width * 4 == row * (width * 4);
    OffsetIsProduct(row, width * 4);
  }

  /** One pass of the row loop of `extractSubImageData` (indext.js:783-788):
      the clamped source row is copied to the start of destination row
      `row`, which turns the first `row` rows into the first `row + 1`. */
  method CopyRow(subImageData: array<byte>, data: seq<byte>, row: nat,
                 alignedWidth: nat, alignedHeight: nat, textureWidth: nat)
    requires row < alignedHeight
    requires subImageData.Length == Offset(alignedHeight, alignedWidth * 4)
    requires Offset(row, alignedWidth * 4) <= subImageData.Length
    requires subImageData[..] == SubImage(data, textureWidth * 4, alignedWidth * 4, row)
                                 + Zeros(subImageData.Length - Offset(row, alignedWidth * 4))
    modifies subImageData
    ensures Offset(row + 1, alignedWidth * 4) <= subImageData.Length
    ensures subImageData[..] == SubImage(data, textureWidth * 4, alignedWidth * 4, row + 1)
                                + Zeros(subImageData.Length - Offset(row + 1, alignedWidth * 4))
  {
    var srcStart := RowStart(row, textureWidth);
    var srcEnd := srcStart + alignedWidth * 4;
    var destStart := RowStart(row, alignedWidth);
    var chunk := Clamped(data, srcStart, srcEnd);
    RowFits(data, textureWidth * 4, alignedWidth * 4, alignedHeight, row);
    ghost var before := subImageData[..];
    CopyInto(subImageData, chunk, destStart);
    RowLoopStep(data, textureWidth * 4, alignedWidth * 4, alignedHeight, row, chunk, before, subImageData[..]);
  }

  /** `extractSubImageData` (indext.js:780-789): a fresh zero-filled buffer
      of alignedWidth * alignedHeight * 4 bytes, filled row by row from
      `data`, which is only read. */
  method ExtractSubImageData(data: seq<byte>, alignedWidth: nat, alignedHeight: nat, textureWidth: nat)
    returns (subImageData: array<byte>)
    ensures fresh(subImageData)
    ensures subImageData[..] == SubImage(data, textureWidth * 4, alignedWidth * 4, alignedHeight)
  {
    var size := ImageBytes(alignedWidth, alignedHeight);
    subImageData := new byte[size](_ => 0);
    assert subImageData[..] == SubImage(data, textureWidth * 4, alignedWidth * 4, 0) + Zeros(size);
    var row := 0;
    while row < alignedHeight
      invariant row <= alignedHeight
      invariant Offset(row, alignedWidth * 4) <= subImageData.Length == size
      invariant subImageData[..] == SubImage(data, textureWidth * 4, alignedWidth * 4, row)
                                    + Zeros(size - Offset(row, alignedWidth * 4))
    {
      CopyRow(subImageData, data, row, alignedWidth, alignedHeight, textureWidth);
      row := row + 1;
    }
  }

  /** First byte index of the bottom half, as indext.js:793-801 computes it:
      JavaScript divides as floating point, and `slice` truncates the
      fractional index toward zero. */
  function BottomHalfStart(width: nat, height: nat, blockSize: nat): int {
    var blocksPerRow := width as real / 4.0;
    var blocksPerColumn := height as real / 4.0;
    var startBlockRow := blocksPerColumn / 2.0;
    (startBlockRow * blocksPerRow * blockSize as real).Floor
  }

  /** End byte index (exclusive) of the bottom half (indext.js:798-802). */
  function BottomHalfEnd(width: nat, height: nat, blockSize: nat): int {
    var blocksPerRow := width as real / 4.0;
    var blocksPerColumn := height as real / 4.0;
    var endBlockRow := blocksPerColumn;
    (endBlockRow * blocksPerRow * blockSize as real).Floor
  }

  /** The two indices in integer terms: a sixteenth and a thirty-second of
      width * height * blockSize, rounded down. */
  lemma BottomHalfIndices(width: nat, height: nat, blockSize: nat)
    ensures BottomHalfStart(width, height, blockSize) == width * height * blockSize / 32
    ensures BottomHalfEnd(width, height, blockSize) == width * height * blockSize / 16
    ensures 0 <= BottomHalfStart(width, height, blockSize) <= BottomHalfEnd(width, height, blockSize)
  {
    var p := width * height * blockSize;
    var x := (height as real / 4.0 / 2.0) * (width as real / 4.0) * blockSize as real;
    var y := (height as real / 4.0) * (width as real / 4.0) * blockSize as real;
    assert x == p as real / 32.0;
    assert y == p as real / 16.0;
    FloorOfQuotient(p, 32);
    FloorOfQuotient(p, 16);
  }

  lemma FloorOfQuotient(p: nat, d: nat)
    requires d > 0
    ensures (p as real / d as real).Floor == p / d
  {
    var q, m := p / d, p % d;
    assert p == q * d + m;
    assert p as real / d as real == q as real + m as real / d as real;
  }

  /** `extractBottomHalfTexture` (indext.js:791-808): the slice between the
      two indices; the input is only read. */
  function ExtractBottomHalfTexture(textureData: seq<byte>, width: nat, height: nat, blockSize: nat): (r: seq<byte>)
    ensures BottomHalfEnd(width, height, blockSize) <= |textureData| ==>
              r == textureData[BottomHalfStart(width, height, blockSize)..BottomHalfEnd(width, height, blockSize)]
    ensures |r| <= |textureData| / 2 + 1
  {
    BottomHalfIndices(width, height, blockSize);
    Clamped(textureData, BottomHalfStart(width, height, blockSize), BottomHalfEnd(width, height, blockSize))
  }

  /** For a width that is a whole number of blocks and a height that is an
      even number of block rows, the start is exactly half the end, and an
      input that is long enough yields height/8 block rows of width/4
      blocks. */
  lemma BottomHalfOfAlignedImage(textureData: seq<byte>, width: nat, height: nat, blockSize: nat)
    requires width % 4 == 0 && height % 8 == 0
    ensures 2 * BottomHalfStart(width, height, blockSize) == BottomHalfEnd(width, height, blockSize)
    ensures BottomHalfStart(width, height, blockSize) == (height / 8) * (width / 4) * blockSize
    ensures BottomHalfEnd(width, height, blockSize) <= |textureData| ==>
              |ExtractBottomHalfTexture(textureData, width, height, blockSize)| == (height / 8) * (width / 4) * blockSize
  {
    BottomHalfIndices(width, height, blockSize);
    var a, b := height / 8, width / 4;
    assert width * height * blockSize == 32 * (a * b * blockSize);
  }
}
