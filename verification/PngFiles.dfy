/** PNG files: chunks in, chunks out, and the pixels surviving the trip. */
module PngFiles {
  import opened Basics
  import opened PngFilters
  import opened PngReaders

  // Compression and checksums, as the readers and writers see them.
  datatype Zlib = Zlib(compress: seq<Byte> -> seq<Byte>, decompress: seq<Byte> -> Option<seq<Byte>>, crc: seq<Byte> -> nat) {
    ghost predicate Valid() {
      && (forall x :: decompress(compress(x)) == Some(x))
      && (forall x :: crc(x) < WORD)
    }
  }

  const WORD := 0x1_0000_0000

  const SIGNATURE: seq<Byte> := [0x89, 0x50, 0x4e, 0x47, 0x0d, 0x0a, 0x1a, 0x0a]
  const IHDR: seq<Byte> := [0x49, 0x48, 0x44, 0x52]
  const PLTE: seq<Byte> := [0x50, 0x4c, 0x54, 0x45]
  const IDAT: seq<Byte> := [0x49, 0x44, 0x41, 0x54]
  const IEND: seq<Byte> := [0x49, 0x45, 0x4e, 0x44]

  // Four bytes, the highest first.
  function Word(n: nat): (b: seq<Byte>)
    requires n < WORD
    ensures |b| == 4
  {
    [n / 0x100_0000, n / 0x1_0000 % 256, n / 256 % 256, n % 256]
  }

  function FromWord(b: seq<Byte>): nat
    requires |b| == 4
  {
    b[0] as int * 0x100_0000 + b[1] as int * 0x1_0000 + b[2] as int * 256 + b[3] as int
  }

  lemma WordComesBack(n: nat)
    requires n < WORD
    ensures FromWord(Word(n)) == n
  {
    assert n / 0x1_0000 == n / 0x100_0000 * 256 + n / 0x1_0000 % 256;
    assert n / 256 == n / 0x1_0000 * 256 + n / 256 % 256;
  }

  // A slice with its bounds cut to what there is.
  function Slice(s: seq<Byte>, lo: nat, hi: nat): seq<Byte>
    requires lo <= hi
  {
    if lo >= |s| then [] else if hi >= |s| then s[lo..] else s[lo..hi]
  }

  // ---- writing ------------------------------------------------------------------

  function Chunk(z: Zlib, kind: seq<Byte>, d: seq<Byte>): seq<Byte>
    requires |d| < WORD && |kind| == 4
  {
    Word(|d|) + kind + d + Word(z.crc(kind + d) % WORD)
  }

  function ColorType(ch: nat): Byte {
    match ch
    case 1 => 0
    case 2 => 4
    case 3 => 2
    case _ => 6
  }

  // Every row unfiltered: a zero and its bytes.
  function RawRows(pixels: seq<Byte>, stride: nat, h: nat): seq<Byte>
    decreases h
  {
    if h == 0 then [] else [0] + Slice(pixels, 0, stride) + RawRows(Slice(pixels, stride, stride + |pixels|), stride, h - 1)
  }

  function HeaderBytes(w: nat, h: nat, ch: nat): (b: seq<Byte>)
    requires w < WORD && h < WORD
    ensures |b| == 13
  {
    Word(w) + Word(h) + [8, ColorType(ch), 0, 0, 0]
  }

  // No file for an unknown channel count or a size that four bytes cannot hold.
  function Written(z: Zlib, w: nat, h: nat, ch: nat, pixels: seq<Byte>): Option<seq<Byte>> {
    var packed := z.compress(RawRows(pixels, w * ch, h));
    if !(1 <= ch <= 4) || w >= WORD || h >= WORD || |packed| >= WORD then None
    else Some(SIGNATURE + Chunk(z, IHDR, HeaderBytes(w, h, ch)) + Chunk(z, IDAT, packed) + Chunk(z, IEND, []))
  }

  method Write(z: Zlib, w: nat, h: nat, ch: nat, pixels: seq<Byte>) returns (file: Option<seq<Byte>>)
    ensures file == Written(z, w, h, ch, pixels)
  {
    hide Chunk, HeaderBytes, RawRows;
    if !(1 <= ch <= 4) {
      return None;
    }
    var raw := RawImage(pixels, w * ch, h);
    var packed := z.compress(raw);
    if w >= WORD || h >= WORD || |packed| >= WORD {
      return None;
    }
    file := Some(SIGNATURE + Chunk(z, IHDR, HeaderBytes(w, h, ch)) + Chunk(z, IDAT, packed) + Chunk(z, IEND, []));
  }

  method RawImage(pixels: seq<Byte>, stride: nat, h: nat) returns (raw: seq<Byte>)
    ensures raw == RawRows(pixels, stride, h)
  {
    hide Slice;
    raw := [];
    ghost var left := pixels;
    WholeSlice(pixels);
    for y := 0 to h
      invariant left == Slice(pixels, y * stride, y * stride + |pixels|)
      invariant raw + RawRows(left, stride, h - y) == RawRows(pixels, stride, h)
    {
      RowSlice(pixels, y, stride);
      raw := raw + [0] + Slice(pixels, y * stride, (y + 1) * stride);
      left := Slice(left, stride, stride + |left|);
    }
  }

  lemma WholeSlice(pixels: seq<Byte>)
    ensures Slice(pixels, 0, |pixels|) == pixels
  {
  }

  lemma RowSlice(pixels: seq<Byte>, y: nat, stride: nat)
    ensures 0 <= y * stride <= (y + 1) * stride
    ensures var left := Slice(pixels, y * stride, y * stride + |pixels|);
            && Slice(left, 0, stride) == Slice(pixels, y * stride, (y + 1) * stride)
            && Slice(left, stride, stride + |left|) == Slice(pixels, (y + 1) * stride, (y + 1) * stride + |pixels|)
  {
    assert (y + 1) * stride == y * stride + stride;
    SliceOfSlice(pixels, y * stride, stride);
  }

  lemma SliceOfSlice(pixels: seq<Byte>, lo: nat, stride: nat)
    ensures var left := Slice(pixels, lo, lo + |pixels|);
            && Slice(left, 0, stride) == Slice(pixels, lo, lo + stride)
            && Slice(left, stride, stride + |left|) == Slice(pixels, lo + stride, lo + stride + |pixels|)
  {
  }

  // ---- reading ------------------------------------------------------------------

  datatype Header = Header(w: nat, h: nat, bitDepth: Byte, colorType: Byte, interlace: Byte)
  datatype Chunks = Chunks(header: Header, palette: Option<seq<Byte>>, idat: seq<Byte>)
  datatype Image = Image(w: nat, h: nat, channels: nat, pixels: seq<Byte>)

  const NO_CHUNKS := Chunks(Header(0, 0, 0, 0, 0), None, [])

  function HeaderOf(chunk: seq<Byte>): Header
    requires |chunk| == 13
  {
    Header(FromWord(chunk[0..4]), FromWord(chunk[4..8]), chunk[8], chunk[9], chunk[12])
  }

  // The chunks from a position on; none if one is cut short where it matters.
  function Parsed(data: seq<Byte>, pos: nat, c: Chunks): Option<Chunks>
    decreases |data| - pos
  {
    if pos >= |data| then Some(c)
    else if pos + 8 > |data| then None
    else
      var length, kind := FromWord(data[pos..pos + 4]), data[pos + 4..pos + 8];
      var chunk, next := Slice(data, pos + 8, pos + 8 + length), pos + 12 + length;
      if kind == IEND then Some(c)
      else if kind == IHDR && |chunk| != 13 then None
      else Parsed(data, next, Taken(c, kind, chunk))
  }

  function Taken(c: Chunks, kind: seq<Byte>, chunk: seq<Byte>): Chunks
    requires kind == IHDR ==> |chunk| == 13
  {
    if kind == IHDR then c.(header := HeaderOf(chunk))
    else if kind == PLTE then c.(palette := Some(chunk))
    else if kind == IDAT then c.(idat := c.idat + chunk)
    else c
  }

  function Channels(colorType: Byte): nat {
    match colorType
    case 0 => 1
    case 2 => 3
    case 3 => 1
    case 4 => 2
    case 6 => 4
    case _ => 0
  }

  // One reader or the other; the vectorised one takes only an exact size.
  function Unfiltered(r: Reader, raw: seq<Byte>, w: nat, h: nat, bpp: nat): Option<seq<Byte>>
    requires bpp > 0
  {
    if r == Plain then PlainRows(raw, w * bpp, bpp, h, Zeros(w * bpp))
    else if |raw| != Size(h, w * bpp + 1) then None
    else Some(DecodeRows(r, raw, w * bpp, bpp, h, Zeros(w * bpp)))
  }

  // Assigning to a slice replaces what there is of it, however long the new bytes.
  function SetSlice(s: seq<Byte>, lo: nat, hi: nat, t: seq<Byte>): seq<Byte>
    requires lo <= hi
  {
    Slice(s, 0, lo) + t + Slice(s, hi, hi + |s|)
  }

  // The colours of the first n pixels painted over black; an index beyond the palette
  // takes bytes away.
  function Painted(palette: seq<Byte>, out: seq<Byte>, n: nat, size: nat): seq<Byte>
    requires n <= |out|
  {
    if n == 0 then Zeros(size)
    else
      var k := out[n - 1] as int * 3;
      SetSlice(Painted(palette, out, n - 1, size), 3 * (n - 1), 3 * n, Slice(palette, k, k + 3))
  }

  function Coloured(palette: seq<Byte>, out: seq<Byte>, n: nat): seq<Byte>
    requires n <= |out|
  {
    if n == 0 then []
    else Coloured(palette, out, n - 1) + Slice(palette, out[n - 1] as int * 3, out[n - 1] as int * 3 + 3)
  }

  predicate InPalette(palette: seq<Byte>, out: seq<Byte>) {
    forall i | 0 <= i < |out| :: out[i] as int * 3 + 3 <= |palette|
  }

  // The image, or none where reading stops with an error.
  function Read(z: Zlib, r: Reader, data: seq<Byte>): Option<Image> {
    if Slice(data, 0, 8) != SIGNATURE then None
    else
      match Parsed(data, 8, NO_CHUNKS)
      case None => None
      case Some(c) =>
        var ch := Channels(c.header.colorType);
        if c.header.bitDepth != 8 || c.header.interlace != 0 || ch == 0 then None
        else
          match z.decompress(c.idat)
          case None => None
          case Some(raw) =>
            match Unfiltered(r, raw, c.header.w, c.header.h, ch)
            case None => None
            case Some(out) => Finished(c, ch, out)
  }

  function Finished(c: Chunks, ch: nat, out: seq<Byte>): Option<Image> {
    var w, h := c.header.w, c.header.h;
    if c.header.colorType != 3 then Some(Image(w, h, ch, out))
    else if w * h == 0 then Some(Image(w, h, 3, []))
    else if c.palette == None || |out| < w * h then None
    else Some(Image(w, h, 3, Painted(c.palette.value, out, w * h, 3 * (w * h))))
  }

  method ReadPng(z: Zlib, r: Reader, data: seq<Byte>) returns (image: Option<Image>)
    ensures image == Read(z, r, data)
  {
    hide FromWord, DecodeRows, HeaderOf, Size, Painted, Parsed, Slice, Unfiltered;
    if Slice(data, 0, 8) != SIGNATURE {
      return None;
    }
    var parsed := ParseChunks(data);
    if parsed == None {
      return None;
    }
    var c := parsed.value;
    var ch := Channels(c.header.colorType);
    if c.header.bitDepth != 8 || c.header.interlace != 0 || ch == 0 {
      return None;
    }
    var packed := z.decompress(c.idat);
    if packed == None {
      return None;
    }
    var unfiltered := Unfilter(r, packed.value, c.header.w, c.header.h, ch);
    if unfiltered == None {
      return None;
    }
    var out := unfiltered.value;
    if c.header.colorType == 3 {
      var rgb := LookUp(c.palette, out, c.header.w * c.header.h);
      return match rgb case None => None case Some(pixels) => Some(Image(c.header.w, c.header.h, 3, pixels));
    }
    image := Some(Image(c.header.w, c.header.h, ch, out));
  }

  method ParseChunks(data: seq<Byte>) returns (parsed: Option<Chunks>)
    ensures parsed == Parsed(data, 8, NO_CHUNKS)
  {
    hide FromWord, Taken, Slice;
    var pos, c := 8, NO_CHUNKS;
    while pos < |data|
      invariant Parsed(data, pos, c) == Parsed(data, 8, NO_CHUNKS)
      decreases |data| - pos
    {
      if pos + 8 > |data| {
        return None;
      }
      var length, kind := FromWord(data[pos..pos + 4]), data[pos + 4..pos + 8];
      var chunk := Slice(data, pos + 8, pos + 8 + length);
      pos := pos + 12 + length;
      if kind == IEND {
        return Some(c);
      }
      if kind == IHDR && |chunk| != 13 {
        return None;
      }
      c := Taken(c, kind, chunk);
    }
    return Some(c);
  }

  method Unfilter(r: Reader, raw: seq<Byte>, w: nat, h: nat, bpp: nat) returns (out: Option<seq<Byte>>)
    requires bpp > 0
    ensures out == Unfiltered(r, raw, w, h, bpp)
  {
    hide DecodeRows, Size;
    if r == Vectorised {
      var ok, rows := UnfilterVectorised(raw, w, h, bpp);
      return if ok then Some(rows) else None;
    }
    out := UnfilterPlain(raw, w, h, bpp);
  }

  method LookUp(palette: Option<seq<Byte>>, out: seq<Byte>, n: nat) returns (rgb: Option<seq<Byte>>)
    ensures rgb == if n == 0 then Some([]) else if palette == None || |out| < n then None else Some(Painted(palette.value, out, n, 3 * n))
  {
    hide Slice, SetSlice;
    var pixels := Zeros(3 * n);
    for i := 0 to n
      invariant i <= |out| && (i > 0 ==> palette.Some?)
      invariant pixels == if palette.Some? then Painted(palette.value, out, i, 3 * n) else Zeros(3 * n)
    {
      if i >= |out| || palette == None {
        return None;
      }
      var k := out[i] as int * 3;
      pixels := SetSlice(pixels, 3 * i, 3 * (i + 1), Slice(palette.value, k, k + 3));
    }
    return Some(pixels);
  }

  // ---- the round trip -------------------------------------------------------------

  // A well-formed chunk is taken whole.
  lemma ChunkParts(z: Zlib, before: seq<Byte>, kind: seq<Byte>, d: seq<Byte>, after: seq<Byte>)
    requires |d| < WORD && |kind| == 4
    ensures var data, pos := before + Chunk(z, kind, d) + after, |before|;
            && pos + 12 + |d| == |before + Chunk(z, kind, d)| <= |data|
            && FromWord(data[pos..pos + 4]) == |d|
            && data[pos + 4..pos + 8] == kind
            && Slice(data, pos + 8, pos + 8 + |d|) == d
  {
    hide Word, FromWord;
    WordComesBack(|d|);
    var data, pos := before + Chunk(z, kind, d) + after, |before|;
    assert data == before + Word(|d|) + kind + d + Word(z.crc(kind + d) % WORD) + after;
    assert data[pos..pos + 4] == Word(|d|);
    assert data[pos + 8..pos + 8 + |d|] == d;
  }

  lemma HeaderComesBack(w: nat, h: nat, ch: nat)
    requires w < WORD && h < WORD
    ensures HeaderOf(HeaderBytes(w, h, ch)) == Header(w, h, 8, ColorType(ch), 0)
  {
    hide Word, FromWord;
    WordComesBack(w);
    WordComesBack(h);
    var b := HeaderBytes(w, h, ch);
    assert b[0..4] == Word(w) && b[4..8] == Word(h);
  }

  lemma WrittenParses(z: Zlib, w: nat, h: nat, ch: nat, packed: seq<Byte>)
    requires w < WORD && h < WORD && |packed| < WORD
    ensures var data := SIGNATURE + Chunk(z, IHDR, HeaderBytes(w, h, ch)) + Chunk(z, IDAT, packed) + Chunk(z, IEND, []);
            && Slice(data, 0, 8) == SIGNATURE
            && Parsed(data, 8, NO_CHUNKS) == Some(Chunks(Header(w, h, 8, ColorType(ch), 0), None, packed))
  {
    hide Chunk, FromWord, HeaderOf, HeaderBytes, Slice, Parsed;
    var one, two, three := Chunk(z, IHDR, HeaderBytes(w, h, ch)), Chunk(z, IDAT, packed), Chunk(z, IEND, []);
    var data := SIGNATURE + one + two + three;
    ChunkParts(z, SIGNATURE, IHDR, HeaderBytes(w, h, ch), two + three);
    assert data == SIGNATURE + one + (two + three);
    HeaderComesBack(w, h, ch);
    ChunkParts(z, SIGNATURE + one, IDAT, packed, three);
    ChunkParts(z, SIGNATURE + one + two, IEND, [], []);
    assert data == SIGNATURE + one + two + three + [];
    SliceFront(SIGNATURE, one + two + three);
    assert data == SIGNATURE + (one + two + three);
    var head := Chunks(Header(w, h, 8, ColorType(ch), 0), None, []);
    assert head.(idat := [] + packed) == head.(idat := packed);
    ParsedOnce(data, |SIGNATURE + one + two|, head.(idat := packed));
    ParsedOnce(data, |SIGNATURE + one|, head);
    ParsedOnce(data, 8, NO_CHUNKS);
  }

  lemma SliceFront(a: seq<Byte>, b: seq<Byte>)
    ensures Slice(a + b, 0, |a|) == a
  {
  }

  // What one chunk adds.
  lemma ParsedOnce(data: seq<Byte>, pos: nat, c: Chunks)
    requires pos + 8 <= |data|
    ensures var length, kind := FromWord(data[pos..pos + 4]), data[pos + 4..pos + 8];
            var chunk := Slice(data, pos + 8, pos + 8 + length);
            && (kind == IEND ==> Parsed(data, pos, c) == Some(c))
            && (kind != IEND && (kind == IHDR ==> |chunk| == 13) ==> Parsed(data, pos, c) == Parsed(data, pos + 12 + length, Taken(c, kind, chunk)))
  {
    hide FromWord, Slice, Taken;
  }

  lemma {:induction false} RawIsEncoded(pixels: seq<Byte>, stride: nat, bpp: nat, h: nat, prev: seq<Byte>)
    requires bpp > 0 && |pixels| == Size(h, stride) && |prev| == stride
    ensures RawRows(pixels, stride, h) == EncodeRows(Zeros(h), pixels, stride, bpp, h, prev)
    decreases h
  {
    if h != 0 {
      var row := pixels[..stride];
      assert Filtered(0, row, prev, bpp) == row;
      assert Zeros(h)[1..] == Zeros(h - 1);
      RawIsEncoded(pixels[stride..], stride, bpp, h - 1, row);
    }
  }

  // Reading a written file gives the same size, channels and pixels, by either reader.
  lemma ReadOfWrite(z: Zlib, r: Reader, w: nat, h: nat, ch: nat, pixels: seq<Byte>)
    requires z.Valid() && 1 <= ch <= 4 && w < WORD && h < WORD && |pixels| == h * (w * ch)
    requires |z.compress(RawRows(pixels, w * ch, h))| < WORD
    ensures Written(z, w, h, ch, pixels).Some?
    ensures Read(z, r, Written(z, w, h, ch, pixels).value) == Some(Image(w, h, ch, pixels))
  {
    hide RawRows, Chunk, Parsed, HeaderBytes, DecodeRows, EncodeRows, Size, Slice;
    var stride := w * ch;
    var raw := RawRows(pixels, stride, h);
    WrittenParses(z, w, h, ch, z.compress(raw));
    SizeIsProduct(h, stride);
    RawIsEncoded(pixels, stride, ch, h, Zeros(stride));
    ReadersInvert(r, Zeros(h), pixels, stride, ch, h, Zeros(stride));
    PlainRowsDecode(raw, stride, ch, h, Zeros(stride));
  }

  lemma {:induction false} ColouredSize(palette: seq<Byte>, out: seq<Byte>, n: nat)
    requires InPalette(palette, out) && n <= |out|
    ensures |Coloured(palette, out, n)| == 3 * n
  {
    if n > 0 {
      ColouredSize(palette, out, n - 1);
      EntrySlice(palette, out[n - 1] as int * 3);
    }
  }

  lemma EntrySlice(palette: seq<Byte>, k: nat)
    requires k + 3 <= |palette|
    ensures Slice(palette, k, k + 3) == palette[k..k + 3]
  {
  }

  // With every index inside the palette, pixel i takes the three bytes of its entry.
  lemma {:induction false} PaletteLooksUp(palette: seq<Byte>, out: seq<Byte>, n: nat, i: nat)
    requires InPalette(palette, out) && i < n <= |out|
    ensures |Coloured(palette, out, n)| == 3 * n
    ensures Coloured(palette, out, n)[3 * i..3 * i + 3] == palette[out[i] as int * 3..out[i] as int * 3 + 3]
  {
    hide Slice;
    var k := out[n - 1] as int * 3;
    ColouredSize(palette, out, n);
    ColouredSize(palette, out, n - 1);
    EntrySlice(palette, k);
    var front, all := Coloured(palette, out, n - 1), Coloured(palette, out, n);
    Parts(front, palette[k..k + 3], 3 * i);
    if i < n - 1 {
      PaletteLooksUp(palette, out, n - 1, i);
    }
  }

  lemma Parts(front: seq<Byte>, last: seq<Byte>, at: nat)
    requires |last| == 3 && (at + 3 <= |front| || at == |front|)
    ensures at + 3 <= |front + last|
    ensures (front + last)[at..at + 3] == if at == |front| then last else front[at..at + 3]
  {
  }

  // With every index inside the palette nothing shifts: the painted pixels are the looked
  // up ones.
  lemma {:induction false} PaintedInPalette(palette: seq<Byte>, out: seq<Byte>, n: nat, size: nat)
    requires InPalette(palette, out) && n <= |out| && 3 * n <= size
    ensures Painted(palette, out, n, size) == Coloured(palette, out, n) + Zeros(size - 3 * n)
  {
    hide Slice, SetSlice, Zeros;
    ColouredSize(palette, out, n);
    if n == 0 {
      assert Coloured(palette, out, 0) + Zeros(size) == Zeros(size);
    } else {
      PaintedInPalette(palette, out, n - 1, size);
      ColouredSize(palette, out, n - 1);
      EntrySlice(palette, out[n - 1] as int * 3);
      PaintOver(Coloured(palette, out, n - 1), size - 3 * (n - 1), palette[out[n - 1] as int * 3..out[n - 1] as int * 3 + 3]);
    }
  }

  lemma PaintOver(done: seq<Byte>, left: nat, entry: seq<Byte>)
    requires |entry| == 3 <= left
    ensures SetSlice(done + Zeros(left), |done|, |done| + 3, entry) == done + entry + Zeros(left - 3)
  {
    var all := done + Zeros(left);
    assert Slice(all, 0, |done|) == done;
    assert Slice(all, |done| + 3, |done| + 3 + |all|) == Zeros(left - 3);
  }

  // So a paletted image with a palette for all its indices is read pixel by pixel.
  lemma PalettedRead(c: Chunks, out: seq<Byte>)
    requires c.header.colorType == 3 && c.palette.Some? && InPalette(c.palette.value, out) && |out| == c.header.w * c.header.h
    ensures Finished(c, 1, out) == Some(Image(c.header.w, c.header.h, 3, Coloured(c.palette.value, out, |out|)))
  {
    PaintedInPalette(c.palette.value, out, |out|, 3 * |out|);
    assert Coloured(c.palette.value, out, |out|) + Zeros(0) == Coloured(c.palette.value, out, |out|);
  }
}
