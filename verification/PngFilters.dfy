/** Undoing PNG row filters, twice: a plain loop and a vectorised one. */
module PngFilters {
  import opened Basics

  function Away(x: int): nat {
    if x < 0 then -x else x
  }

  // The neighbour nearest to left + above - corner, ties to the left and then above.
  function Paeth(a: Byte, b: Byte, c: Byte): (pr: Byte) {
    var pa, pb, pc := Away(b - c), Away(a - c), Away(a + b - 2 * c);
    if pa <= pb && pa <= pc then a else if pb <= pc then b else c
  }

  function Predict(kind: nat, a: Byte, b: Byte, c: Byte): Byte {
    match kind
    case 1 => a
    case 2 => b
    case 3 => (a + b) / 2
    case 4 => Paeth(a, b, c)
    case _ => 0
  }

  function Zeros(n: nat): seq<Byte> {
    seq(n, _ => 0)
  }

  // ---- one row ------------------------------------------------------------------

  // Byte i of a row: its neighbours are bpp bytes to the left and in the row above.
  function At(kind: nat, line: seq<Byte>, prev: seq<Byte>, bpp: nat, i: nat): Byte
    requires bpp > 0 && i < |line| && |prev| == |line|
  {
    var a := if i >= bpp then At(kind, line, prev, bpp, i - bpp) else 0;
    (line[i] + Predict(kind, a, prev[i], Corner(prev, bpp, i))) % 256
  }

  function Corner(prev: seq<Byte>, bpp: nat, i: nat): Byte
    requires i < |prev|
  {
    if bpp > 0 && i >= bpp then prev[i - bpp] else 0
  }

  function Row(kind: nat, line: seq<Byte>, prev: seq<Byte>, bpp: nat): seq<Byte>
    requires bpp > 0 && |prev| == |line|
  {
    seq(|line|, i requires 0 <= i < |line| => At(kind, line, prev, bpp, i))
  }

  // The standard's filter: each byte less its prediction from the original neighbours.
  function Filtered(kind: nat, original: seq<Byte>, prev: seq<Byte>, bpp: nat): seq<Byte>
    requires bpp > 0 && |prev| == |original|
  {
    seq(|original|, i requires 0 <= i < |original| =>
      (original[i] - Predict(kind, Corner(original, bpp, i), prev[i], Corner(prev, bpp, i))) % 256)
  }

  lemma AddBack(x: Byte, p: Byte)
    ensures ((x - p) % 256 + p) % 256 == x && ((x + p) % 256 - p) % 256 == x
  {
  }

  lemma {:induction false} AtInverts(kind: nat, original: seq<Byte>, prev: seq<Byte>, bpp: nat, i: nat)
    requires bpp > 0 && |prev| == |original| && i < |original|
    ensures At(kind, Filtered(kind, original, prev, bpp), prev, bpp, i) == original[i]
  {
    hide Predict;
    if i >= bpp {
      AtInverts(kind, original, prev, bpp, i - bpp);
    }
    AddBack(original[i], Predict(kind, Corner(original, bpp, i), prev[i], Corner(prev, bpp, i)));
  }

  // Undoing inverts filtering, and filtering inverts undoing.
  lemma RowInverts(kind: nat, row: seq<Byte>, prev: seq<Byte>, bpp: nat)
    requires bpp > 0 && |prev| == |row|
    ensures Row(kind, Filtered(kind, row, prev, bpp), prev, bpp) == row
    ensures Filtered(kind, Row(kind, row, prev, bpp), prev, bpp) == row
  {
    hide Predict;
    forall i | 0 <= i < |row|
      ensures Row(kind, Filtered(kind, row, prev, bpp), prev, bpp)[i] == row[i]
      ensures Filtered(kind, Row(kind, row, prev, bpp), prev, bpp)[i] == row[i]
    {
      AtInverts(kind, row, prev, bpp, i);
      var done := Row(kind, row, prev, bpp);
      AddBack(row[i], Predict(kind, Corner(done, bpp, i), prev[i], Corner(prev, bpp, i)));
    }
  }

  // The neighbour nearest to where the other two and it would lie on one slope: the left
  // one, if none is nearer; else the one above, if the corner is not nearer.
  ghost predicate Nearest(p: int, left: int, above: int, corner: int) {
    var slope := left + above - corner;
    && (p == left || p == above || p == corner)
    && Away(slope - p) <= Away(slope - left) && Away(slope - p) <= Away(slope - above) && Away(slope - p) <= Away(slope - corner)
    && (p != left ==> Away(slope - p) < Away(slope - left))
    && (p != left && p != above ==> Away(slope - p) < Away(slope - above))
  }

  // What each filter of section 6 of RFC 2083 predicts.
  ghost predicate Predicted(kind: nat, p: int, left: int, above: int, corner: int) {
    match kind
    case 0 => p == 0
    case 1 => p == left
    case 2 => p == above
    case 3 => 2 * p == left + above || 2 * p == left + above - 1
    case _ => Nearest(p, left, above, corner)
  }

  lemma PredictSays(kind: nat, left: Byte, above: Byte, corner: Byte)
    requires kind <= 4
    ensures Predicted(kind, Predict(kind, left, above, corner), left, above, corner)
  {
  }

  // An undone row byte by byte: what was there and the prediction from the bytes undone
  // already and the row above.
  lemma RowSays(kind: nat, line: seq<Byte>, prev: seq<Byte>, bpp: nat, i: nat)
    requires bpp > 0 && |prev| == |line| && i < |line| && kind <= 4
    ensures var row := Row(kind, line, prev, bpp);
            var left: int := if i >= bpp then row[i - bpp] else 0;
            var corner: int := if i >= bpp then prev[i - bpp] else 0;
            exists p :: Predicted(kind, p, left, prev[i], corner) && row[i] as int == (line[i] as int + p) % 256
  {
    hide Paeth, Predicted;
    var row := Row(kind, line, prev, bpp);
    var left := if i >= bpp then row[i - bpp] else 0;
    PredictSays(kind, left, prev[i], Corner(prev, bpp, i));
    var p: int := Predict(kind, left, prev[i], Corner(prev, bpp, i));
    assert row[i] as int == (line[i] as int + p) % 256;
    assert Predicted(kind, p, left, prev[i], if i >= bpp then prev[i - bpp] else 0);
  }

  // ---- whole images ---------------------------------------------------------------

  // Which filter each reader takes a row's type byte for.
  datatype Reader = Plain | Vectorised {
    function Kind(ft: Byte): nat {
      if ft <= 4 then ft else if this == Plain then 0 else 4
    }
  }

  function Size(h: nat, n: nat): nat {
    if h == 0 then 0 else n + Size(h - 1, n)
  }

  // Each row is a type byte and a line; the row above the first is all zeros.
  function DecodeRows(r: Reader, raw: seq<Byte>, stride: nat, bpp: nat, h: nat, prev: seq<Byte>): seq<Byte>
    requires bpp > 0 && |raw| >= Size(h, stride + 1) && |prev| == stride
    decreases h
  {
    if h == 0 then []
    else
      var row := Row(r.Kind(raw[0]), raw[1..1 + stride], prev, bpp);
      row + DecodeRows(r, raw[1 + stride..], stride, bpp, h - 1, row)
  }

  function EncodeRows(types: seq<Byte>, pixels: seq<Byte>, stride: nat, bpp: nat, h: nat, prev: seq<Byte>): seq<Byte>
    requires bpp > 0 && |types| == h && |pixels| == Size(h, stride) && |prev| == stride
    decreases h
  {
    if h == 0 then []
    else
      [types[0]] + Filtered(types[0], pixels[..stride], prev, bpp)
      + EncodeRows(types[1..], pixels[stride..], stride, bpp, h - 1, pixels[..stride])
  }

  lemma {:induction false} EncodedSize(types: seq<Byte>, pixels: seq<Byte>, stride: nat, bpp: nat, h: nat, prev: seq<Byte>)
    requires bpp > 0 && |types| == h && |pixels| == Size(h, stride) && |prev| == stride
    ensures |EncodeRows(types, pixels, stride, bpp, h, prev)| == Size(h, stride + 1)
    decreases h
  {
    if h != 0 {
      EncodedSize(types[1..], pixels[stride..], stride, bpp, h - 1, pixels[..stride]);
    }
  }

  // Either reader inverts the standard's filters, whatever filter each row uses.
  lemma {:induction false} ReadersInvert(r: Reader, types: seq<Byte>, pixels: seq<Byte>, stride: nat, bpp: nat, h: nat, prev: seq<Byte>)
    requires bpp > 0 && |types| == h && |pixels| == Size(h, stride) && |prev| == stride
    requires forall t | t in types :: t <= 4
    ensures |EncodeRows(types, pixels, stride, bpp, h, prev)| == Size(h, stride + 1)
    ensures DecodeRows(r, EncodeRows(types, pixels, stride, bpp, h, prev), stride, bpp, h, prev) == pixels
    decreases h
  {
    hide Row, Filtered;
    EncodedSize(types, pixels, stride, bpp, h, prev);
    if h != 0 {
      var row, raw := pixels[..stride], EncodeRows(types, pixels, stride, bpp, h, prev);
      FilteredSize(types[0], row, prev, bpp);
      RowInverts(types[0], row, prev, bpp);
      assert types[0] in types && forall t | t in types[1..] :: t in types;
      ReadersInvert(r, types[1..], pixels[stride..], stride, bpp, h - 1, row);
      assert raw[1..1 + stride] == Filtered(types[0], row, prev, bpp);
      assert raw[1 + stride..] == EncodeRows(types[1..], pixels[stride..], stride, bpp, h - 1, row);
    }
  }

  lemma FilteredSize(kind: nat, row: seq<Byte>, prev: seq<Byte>, bpp: nat)
    requires bpp > 0 && |prev| == |row|
    ensures |Filtered(kind, row, prev, bpp)| == |row|
  {
  }

  // The type bytes of the rows.
  function Types(raw: seq<Byte>, stride: nat, h: nat): seq<Byte>
    requires |raw| >= Size(h, stride + 1)
    decreases h
  {
    if h == 0 then [] else [raw[0]] + Types(raw[1 + stride..], stride, h - 1)
  }

  // The readers agree on every image that uses the standard's filters.
  lemma {:induction false} ReadersAgree(raw: seq<Byte>, stride: nat, bpp: nat, h: nat, prev: seq<Byte>)
    requires bpp > 0 && |raw| >= Size(h, stride + 1) && |prev| == stride
    requires forall t | t in Types(raw, stride, h) :: t <= 4
    ensures DecodeRows(Plain, raw, stride, bpp, h, prev) == DecodeRows(Vectorised, raw, stride, bpp, h, prev)
    decreases h
  {
    hide Row;
    if h != 0 {
      var types := Types(raw, stride, h);
      assert types[0] in types && types[1..] == Types(raw[1 + stride..], stride, h - 1);
      assert forall t | t in types[1..] :: t in types;
      RowSize(types[0], raw[1..1 + stride], prev, bpp);
      ReadersAgree(raw[1 + stride..], stride, bpp, h - 1, Row(types[0], raw[1..1 + stride], prev, bpp));
    }
  }

  lemma RowSize(kind: nat, row: seq<Byte>, prev: seq<Byte>, bpp: nat)
    requires bpp > 0 && |prev| == |row|
    ensures |Row(kind, row, prev, bpp)| == |row|
  {
  }

  // A row's type is read alike whatever the row holds exactly when it is one of the
  // standard's: from 5 on the plain reader leaves the row as it is and the vectorised one
  // takes it for Paeth.
  lemma TypesReadAlike(ft: Byte)
    ensures (forall line: seq<Byte>, prev: seq<Byte>, bpp: nat | bpp > 0 && |prev| == |line| ::
               Row(Plain.Kind(ft), line, prev, bpp) == Row(Vectorised.Kind(ft), line, prev, bpp))
       <==> ft <= 4
  {
    if ft > 4 {
      var line: seq<Byte>, prev: seq<Byte> := [0], [1];
      assert At(0, line, prev, 1, 0) == 0 && At(4, line, prev, 1, 0) == 1;
      assert Row(Plain.Kind(ft), line, prev, 1)[0] != Row(Vectorised.Kind(ft), line, prev, 1)[0];
    }
  }
}
