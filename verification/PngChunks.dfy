/** Reading any PNG file of the kind the tools take: chunks in any number and order. */
module PngChunks {
  import opened Basics
  import opened PngFiles
  import opened PngFilters
  import opened PngReaders

  datatype Piece = Piece(kind: seq<Byte>, body: seq<Byte>)

  // A chunk before the end: four letters, and thirteen bytes if it is a header.
  ghost predicate PieceOk(p: Piece) {
    |p.kind| == 4 && |p.body| < WORD && p.kind != IEND && (p.kind == IHDR ==> |p.body| == 13)
  }

  ghost predicate PiecesOk(pieces: seq<Piece>) {
    forall i | 0 <= i < |pieces| :: PieceOk(pieces[i])
  }

  function PieceBytes(z: Zlib, p: Piece): seq<Byte>
    requires |p.body| < WORD && |p.kind| == 4
  {
    Chunk(z, p.kind, p.body)
  }

  function AllBytes(z: Zlib, pieces: seq<Piece>): seq<Byte>
    requires forall i | 0 <= i < |pieces| :: |pieces[i].body| < WORD && |pieces[i].kind| == 4
  {
    if pieces == [] then [] else PieceBytes(z, pieces[0]) + AllBytes(z, pieces[1..])
  }

  // The body of the last chunk of a kind.
  function LastBody(pieces: seq<Piece>, kind: seq<Byte>): Option<seq<Byte>> {
    if pieces == [] then None
    else
      match LastBody(pieces[1..], kind)
      case Some(body) => Some(body)
      case None => if pieces[0].kind == kind then Some(pieces[0].body) else None
  }

  // The bodies of all data chunks, one after the other.
  function DataOf(pieces: seq<Piece>): seq<Byte> {
    if pieces == [] then []
    else (if pieces[0].kind == IDAT then pieces[0].body else []) + DataOf(pieces[1..])
  }

  // What the chunks say together, over what was known.
  function Gathered(c: Chunks, pieces: seq<Piece>): Chunks
    requires forall i | 0 <= i < |pieces| :: pieces[i].kind == IHDR ==> |pieces[i].body| == 13
  {
    LastOfKind(pieces, IHDR);
    Chunks(match LastBody(pieces, IHDR) case None => c.header case Some(body) => HeaderOf(body),
           match LastBody(pieces, PLTE) case None => c.palette case Some(body) => Some(body),
           c.idat + DataOf(pieces))
  }

  lemma {:induction false} LastOfKind(pieces: seq<Piece>, kind: seq<Byte>)
    ensures LastBody(pieces, kind).Some? ==> Piece(kind, LastBody(pieces, kind).value) in pieces
  {
    if pieces != [] {
      LastOfKind(pieces[1..], kind);
    }
  }

  // The reader gathers a file's chunks up to the end chunk: the last header, the last
  // palette and all the data in order, other kinds passed over and what follows ignored.
  lemma {:induction false} PiecesParse(z: Zlib, before: seq<Byte>, pieces: seq<Piece>, after: seq<Byte>, c: Chunks)
    requires PiecesOk(pieces)
    ensures Parsed(before + AllBytes(z, pieces) + Chunk(z, IEND, []) + after, |before|, c) == Some(Gathered(c, pieces))
    decreases |pieces|
  {
    hide Chunk, Parsed, HeaderOf, Taken, Gathered;
    if pieces == [] {
      assert before + AllBytes(z, []) == before;
      EndStep(z, before, after, c);
    } else {
      var p, rest := pieces[0], pieces[1..];
      var one, more := PieceBytes(z, p), AllBytes(z, rest) + Chunk(z, IEND, []) + after;
      GatheredFirst(c, pieces);
      assert before + AllBytes(z, pieces) + Chunk(z, IEND, []) + after == before + one + more;
      PieceStep(z, before, p, more, c);
      PiecesParse(z, before + one, rest, after, Taken(c, p.kind, p.body));
      assert before + one + more == (before + one) + AllBytes(z, rest) + Chunk(z, IEND, []) + after;
    }
  }

  lemma PieceStep(z: Zlib, before: seq<Byte>, p: Piece, more: seq<Byte>, c: Chunks)
    requires PieceOk(p)
    ensures var one := PieceBytes(z, p);
            Parsed(before + one + more, |before|, c) == Parsed(before + one + more, |before + one|, Taken(c, p.kind, p.body))
  {
    hide Chunk, Parsed, FromWord, Slice, Taken;
    ChunkParts(z, before, p.kind, p.body, more);
    ParsedOnce(before + PieceBytes(z, p) + more, |before|, c);
  }

  lemma EndStep(z: Zlib, before: seq<Byte>, after: seq<Byte>, c: Chunks)
    ensures Parsed(before + Chunk(z, IEND, []) + after, |before|, c) == Some(Gathered(c, []))
  {
    hide Chunk, Parsed, FromWord, HeaderOf, Slice;
    ChunkParts(z, before, IEND, [], after);
    ParsedOnce(before + Chunk(z, IEND, []) + after, |before|, c);
    assert c.idat + [] == c.idat;
  }

  lemma GatheredFirst(c: Chunks, pieces: seq<Piece>)
    requires PiecesOk(pieces) && pieces != []
    ensures PiecesOk(pieces[1..]) && PieceOk(pieces[0]) && Gathered(Taken(c, pieces[0].kind, pieces[0].body), pieces[1..]) == Gathered(c, pieces)
  {
    hide HeaderOf;
    var p, rest := pieces[0], pieces[1..];
    assert PieceOk(p) && forall i | 0 <= i < |rest| :: PieceOk(rest[i]);
    assert (c.idat + p.body) + DataOf(rest) == c.idat + (p.body + DataOf(rest));
    assert [] + DataOf(rest) == DataOf(rest);
  }

  // A whole file of these chunks.
  function FileOf(z: Zlib, pieces: seq<Piece>, after: seq<Byte>): seq<Byte>
    requires forall i | 0 <= i < |pieces| :: |pieces[i].body| < WORD && |pieces[i].kind| == 4
  {
    SIGNATURE + AllBytes(z, pieces) + Chunk(z, IEND, []) + after
  }

  lemma FileParses(z: Zlib, pieces: seq<Piece>, after: seq<Byte>)
    requires PiecesOk(pieces)
    ensures Slice(FileOf(z, pieces, after), 0, 8) == SIGNATURE
    ensures Parsed(FileOf(z, pieces, after), 8, NO_CHUNKS) == Some(Gathered(NO_CHUNKS, pieces))
  {
    hide Chunk, Parsed, Slice;
    PiecesParse(z, SIGNATURE, pieces, after, NO_CHUNKS);
    SliceFront(SIGNATURE, AllBytes(z, pieces) + Chunk(z, IEND, []) + after);
    assert FileOf(z, pieces, after) == SIGNATURE + (AllBytes(z, pieces) + Chunk(z, IEND, []) + after);
  }

  // The header says this size, depth, colours and interlacing.
  ghost predicate HeaderSays(pieces: seq<Piece>, w: nat, h: nat, depth: Byte, colours: Byte, interlace: Byte) {
    w < WORD && h < WORD && exists a: Byte, b: Byte :: LastBody(pieces, IHDR) == Some(Word(w) + Word(h) + [depth, colours, a, b, interlace])
  }

  lemma HeaderRead(pieces: seq<Piece>, w: nat, h: nat, depth: Byte, colours: Byte, interlace: Byte)
    requires PiecesOk(pieces) && HeaderSays(pieces, w, h, depth, colours, interlace)
    ensures Gathered(NO_CHUNKS, pieces) == Chunks(Header(w, h, depth, colours, interlace), LastBody(pieces, PLTE), DataOf(pieces))
  {
    hide Word, FromWord, LastBody;
    var a: Byte, b: Byte :| LastBody(pieces, IHDR) == Some(Word(w) + Word(h) + [depth, colours, a, b, interlace]);
    var body := Word(w) + Word(h) + [depth, colours, a, b, interlace];
    WordComesBack(w);
    WordComesBack(h);
    assert body[0..4] == Word(w) && body[4..8] == Word(h);
    assert [] + DataOf(pieces) == DataOf(pieces);
  }

  // How many bytes a pixel takes by its colour type.
  ghost predicate BytesPerPixel(colours: Byte, ch: nat) {
    (colours == 0 && ch == 1) || (colours == 2 && ch == 3) || (colours == 3 && ch == 1) || (colours == 4 && ch == 2) || (colours == 6 && ch == 4)
  }

  ghost predicate FileHolds(z: Zlib, pieces: seq<Piece>, w: nat, h: nat, colours: Byte, ch: nat, filters: seq<Byte>, pixels: seq<Byte>) {
    && PiecesOk(pieces) && HeaderSays(pieces, w, h, 8, colours, 0) && BytesPerPixel(colours, ch)
    && |filters| == h && (forall f | f in filters :: f <= 4) && |pixels| == Size(h, w * ch)
    && z.decompress(DataOf(pieces)) == Some(EncodeRows(filters, pixels, w * ch, ch, h, Zeros(w * ch)))
  }

  // Whatever filters its rows take, however its data is split and whatever other chunks lie
  // between, a file of 8-bit channels and no interlacing reads as its pixels, by either
  // reader.
  lemma AnyFileReads(z: Zlib, r: Reader, pieces: seq<Piece>, after: seq<Byte>, w: nat, h: nat, colours: Byte, ch: nat, filters: seq<Byte>, pixels: seq<Byte>)
    requires FileHolds(z, pieces, w, h, colours, ch, filters, pixels) && colours != 3
    ensures Read(z, r, FileOf(z, pieces, after)) == Some(Image(w, h, ch, pixels))
  {
    hide FileHolds, FileOf, LastBody, Read;
    Stages(z, r, pieces, after, w, h, colours, ch, filters, pixels);
  }

  // With a palette for all of them, they are looked up.
  lemma AnyPalettedFileReads(z: Zlib, r: Reader, pieces: seq<Piece>, after: seq<Byte>, w: nat, h: nat, filters: seq<Byte>, indices: seq<Byte>)
    requires FileHolds(z, pieces, w, h, 3, 1, filters, indices)
    requires LastBody(pieces, PLTE).Some? && InPalette(LastBody(pieces, PLTE).value, indices)
    ensures Read(z, r, FileOf(z, pieces, after)) == Some(Image(w, h, 3, Coloured(LastBody(pieces, PLTE).value, indices, |indices|)))
  {
    hide FileOf, LastBody, Read, Finished, InPalette, Coloured, HeaderSays, EncodeRows, Size, DataOf;
    Stages(z, r, pieces, after, w, h, 3, 1, filters, indices);
    SizeIsProduct(h, w * 1);
    OneByteEach(w, h, 1);
    PalettedRead(Chunks(Header(w, h, 8, 3, 0), LastBody(pieces, PLTE), DataOf(pieces)), indices);
  }

  lemma Stages(z: Zlib, r: Reader, pieces: seq<Piece>, after: seq<Byte>, w: nat, h: nat, colours: Byte, ch: nat, filters: seq<Byte>, pixels: seq<Byte>)
    requires FileHolds(z, pieces, w, h, colours, ch, filters, pixels)
    ensures PiecesOk(pieces)
    ensures Read(z, r, FileOf(z, pieces, after)) == Finished(Chunks(Header(w, h, 8, colours, 0), LastBody(pieces, PLTE), DataOf(pieces)), ch, pixels)
  {
    hide EncodeRows, Size, FileOf, LastBody, Read, DataOf, HeaderSays, Unfiltered, Slice, Parsed, Gathered, Finished;
    FileParses(z, pieces, after);
    HeaderRead(pieces, w, h, 8, colours, 0);
    RowsRead(r, w, h, ch, filters, pixels);
    var c := Chunks(Header(w, h, 8, colours, 0), LastBody(pieces, PLTE), DataOf(pieces));
    ReadOnce(z, r, FileOf(z, pieces, after), c, EncodeRows(filters, pixels, w * ch, ch, h, Zeros(w * ch)), ch, pixels);
  }

  lemma OneByteEach(w: nat, h: nat, ch: nat)
    requires ch == 1
    ensures h * (w * ch) == w * h
  {
  }

  // Reading, once each of its stages is known.
  lemma ReadOnce(z: Zlib, r: Reader, data: seq<Byte>, c: Chunks, raw: seq<Byte>, ch: nat, out: seq<Byte>)
    requires Slice(data, 0, 8) == SIGNATURE && Parsed(data, 8, NO_CHUNKS) == Some(c)
    requires c.header.bitDepth == 8 && c.header.interlace == 0 && BytesPerPixel(c.header.colorType, ch)
    requires z.decompress(c.idat) == Some(raw) && Unfiltered(r, raw, c.header.w, c.header.h, ch) == Some(out)
    ensures Read(z, r, data) == Finished(c, ch, out)
  {
    hide Parsed, Slice, Unfiltered, Finished;
  }

  lemma RowsRead(r: Reader, w: nat, h: nat, ch: nat, filters: seq<Byte>, pixels: seq<Byte>)
    requires ch > 0 && |filters| == h && (forall f | f in filters :: f <= 4) && |pixels| == Size(h, w * ch)
    ensures Unfiltered(r, EncodeRows(filters, pixels, w * ch, ch, h, Zeros(w * ch)), w, h, ch) == Some(pixels)
  {
    hide DecodeRows, EncodeRows, Size;
    var raw := EncodeRows(filters, pixels, w * ch, ch, h, Zeros(w * ch));
    ReadersInvert(r, filters, pixels, w * ch, ch, h, Zeros(w * ch));
    PlainRowsDecode(raw, w * ch, ch, h, Zeros(w * ch));
  }

  // Any other depth, interlacing or colour type is refused, and so is data that does not
  // decompress.
  lemma OthersRefused(z: Zlib, r: Reader, pieces: seq<Piece>, after: seq<Byte>, w: nat, h: nat, depth: Byte, colours: Byte, interlace: Byte)
    requires PiecesOk(pieces) && HeaderSays(pieces, w, h, depth, colours, interlace)
    requires depth != 8 || interlace != 0 || (forall ch: nat :: !BytesPerPixel(colours, ch)) || z.decompress(DataOf(pieces)) == None
    ensures Read(z, r, FileOf(z, pieces, after)) == None
  {
    hide Parsed, Slice, FileOf, Unfiltered, LastBody, Finished;
    FileParses(z, pieces, after);
    HeaderRead(pieces, w, h, depth, colours, interlace);
    assert Channels(colours) != 0 ==> BytesPerPixel(colours, Channels(colours));
  }
}
