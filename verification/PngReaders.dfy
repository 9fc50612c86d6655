/** The two readers as they run: one updates a line byte by byte, one works on whole rows and pixels. */
module PngReaders {
  import opened Basics
  import opened PngFilters

  lemma {:induction false} SizeIsProduct(h: nat, n: nat)
    ensures Size(h, n) == h * n
  {
    if h != 0 {
      SizeIsProduct(h - 1, n);
      assert h * n == (h - 1) * n + n;
    }
  }

  // The low eight bits.
  function Low(x: int): Byte {
    x % 256
  }

  function Half(x: int): int {
    x / 2
  }

  // Bytes below i are undone, the rest are as they came.
  ghost predicate UndoneTo(kind: nat, now: seq<Byte>, line: seq<Byte>, prev: seq<Byte>, bpp: nat, i: nat)
    requires bpp > 0 && |prev| == |line|
  {
    && |now| == |line| && i <= |line|
    && (forall k | 0 <= k < i :: now[k] == At(kind, line, prev, bpp, k))
    && (forall k | i <= k < |line| :: now[k] == line[k])
  }

  method UndoPlain(ft: Byte, line: array<Byte>, prev: seq<Byte>, bpp: nat)
    requires bpp > 0 && |prev| == line.Length
    modifies line
    ensures line[..] == Row(Plain.Kind(ft), old(line[..]), prev, bpp)
  {
    ghost var was := line[..];
    var stride := line.Length;
    if ft == 1 {
      UndoLeft(line, prev, bpp);
    } else if ft == 2 {
      for i := 0 to stride
        invariant UndoneTo(2, line[..], was, prev, bpp, i)
      {
        line[i] := Low(line[i] as int + prev[i] as int);
      }
    } else if ft == 3 {
      for i := 0 to stride
        invariant UndoneTo(3, line[..], was, prev, bpp, i)
      {
        var left := if i >= bpp then line[i - bpp] else 0;
        line[i] := Low(line[i] as int + Half(left as int + prev[i] as int));
      }
    } else if ft == 4 {
      UndoPaeth(line, prev, bpp);
    } else {
      RowOfNone(ft, was, prev, bpp);
    }
  }

  // From the second pixel on, each byte adds the one before.
  method UndoLeft(line: array<Byte>, prev: seq<Byte>, bpp: nat)
    requires bpp > 0 && |prev| == line.Length
    modifies line
    ensures line[..] == Row(1, old(line[..]), prev, bpp)
  {
    ghost var was := line[..];
    var i := bpp;
    while i < line.Length
      invariant bpp <= i
      invariant i <= line.Length ==> UndoneTo(1, line[..], was, prev, bpp, i)
      invariant i > line.Length ==> i == bpp && line[..] == was
    {
      line[i] := Low(line[i] as int + line[i - bpp] as int);
      i := i + 1;
    }
  }

  method UndoPaeth(line: array<Byte>, prev: seq<Byte>, bpp: nat)
    requires bpp > 0 && |prev| == line.Length
    modifies line
    ensures line[..] == Row(4, old(line[..]), prev, bpp)
  {
    hide Paeth;
    ghost var was := line[..];
    for i := 0 to line.Length
      invariant UndoneTo(4, line[..], was, prev, bpp, i)
    {
      var a := if i >= bpp then line[i - bpp] else 0;
      var c := if i >= bpp then prev[i - bpp] else 0;
      line[i] := Low(line[i] as int + Paeth(a, prev[i], c) as int);
    }
  }

  lemma RowOfNone(ft: Byte, line: seq<Byte>, prev: seq<Byte>, bpp: nat)
    requires bpp > 0 && |prev| == |line| && (ft == 0 || ft > 4)
    ensures Row(Plain.Kind(ft), line, prev, bpp) == line
  {
  }

  // The rows from p on are the next row and the rest.
  lemma NextRow(r: Reader, raw: seq<Byte>, p: nat, stride: nat, bpp: nat, left: nat, prev: seq<Byte>)
    requires bpp > 0 && left > 0 && p + Size(left, stride + 1) <= |raw| && |prev| == stride
    ensures Size(left, stride + 1) == stride + 1 + Size(left - 1, stride + 1)
    ensures var row := Row(r.Kind(raw[p]), raw[p + 1..p + 1 + stride], prev, bpp);
            && |row| == stride
            && DecodeRows(r, raw[p..], stride, bpp, left, prev) == row + DecodeRows(r, raw[p + 1 + stride..], stride, bpp, left - 1, row)
  {
    hide Row;
    var rest := raw[p..];
    RowSize(r.Kind(raw[p]), raw[p + 1..p + 1 + stride], prev, bpp);
    assert rest[1..1 + stride] == raw[p + 1..p + 1 + stride] && rest[1 + stride..] == raw[p + 1 + stride..];
  }

  lemma NoRows(r: Reader, raw: seq<Byte>, stride: nat, bpp: nat, prev: seq<Byte>)
    requires bpp > 0 && |prev| == stride
    ensures DecodeRows(r, raw, stride, bpp, 0, prev) == []
  {
  }

  // A line cut short by the end of the data: loops that run over the whole row fail on it,
  // the others leave it short.
  function ShortRow(ft: Byte, line: seq<Byte>, prev: seq<Byte>, stride: nat, bpp: nat): Option<seq<Byte>>
    requires |line| < stride == |prev|
  {
    match ft
    case 1 => if bpp < stride then None else Some(line)
    case 2 => Some(seq(|line|, i requires 0 <= i < |line| => Low(line[i] as int + prev[i] as int)))
    case 3 => None
    case 4 => None
    case _ => Some(line)
  }

  // The plain reader on data of any length: what is left over is ignored, a row without
  // its type byte fails, and only the last row may be cut short.
  function PlainRows(raw: seq<Byte>, stride: nat, bpp: nat, h: nat, prev: seq<Byte>): Option<seq<Byte>>
    requires bpp > 0 && |prev| == stride
    decreases h
  {
    if h == 0 then Some([])
    else if raw == [] then None
    else if |raw| < 1 + stride then (if h == 1 then ShortRow(raw[0], raw[1..], prev, stride, bpp) else None)
    else
      var row := Row(Plain.Kind(raw[0]), raw[1..1 + stride], prev, bpp);
      match PlainRows(raw[1 + stride..], stride, bpp, h - 1, row)
      case None => None
      case Some(rest) => Some(row + rest)
  }

  // With all the data there, that is the decoded image.
  lemma {:induction false} PlainRowsDecode(raw: seq<Byte>, stride: nat, bpp: nat, h: nat, prev: seq<Byte>)
    requires bpp > 0 && |prev| == stride && |raw| >= Size(h, stride + 1)
    ensures PlainRows(raw, stride, bpp, h, prev) == Some(DecodeRows(Plain, raw, stride, bpp, h, prev))
    decreases h
  {
    hide Row;
    if h != 0 {
      RowSize(Plain.Kind(raw[0]), raw[1..1 + stride], prev, bpp);
      PlainRowsDecode(raw[1 + stride..], stride, bpp, h - 1, Row(Plain.Kind(raw[0]), raw[1..1 + stride], prev, bpp));
    }
  }

  // It fails on anything more than one row short, and gives fewer bytes than the image
  // has on anything shorter at all.
  lemma {:induction false} PlainRowsShort(raw: seq<Byte>, stride: nat, bpp: nat, h: nat, prev: seq<Byte>)
    requires bpp > 0 && |prev| == stride && |raw| < Size(h, stride + 1)
    ensures var out := PlainRows(raw, stride, bpp, h, prev);
            out.Some? ==> |raw| + stride >= Size(h, stride + 1) && |out.value| + Size(h, stride + 1) == |raw| + Size(h, stride)
    decreases h
  {
    hide Row;
    if h != 0 && |raw| >= 1 + stride {
      RowSize(Plain.Kind(raw[0]), raw[1..1 + stride], prev, bpp);
      PlainRowsShort(raw[1 + stride..], stride, bpp, h - 1, Row(Plain.Kind(raw[0]), raw[1..1 + stride], prev, bpp));
    }
  }

  method UndoShort(ft: Byte, line: seq<Byte>, prev: seq<Byte>, bpp: nat) returns (cur: Option<seq<Byte>>)
    requires |line| < |prev|
    ensures cur == ShortRow(ft, line, prev, |prev|, bpp)
  {
    if ft == 1 {
      return if bpp < |prev| then None else Some(line);
    } else if ft == 2 {
      return Some(seq(|line|, i requires 0 <= i < |line| => Low(line[i] as int + prev[i] as int)));
    } else if ft == 3 || ft == 4 {
      return None;
    }
    return Some(line);
  }

  lemma NextPlainRow(raw: seq<Byte>, p: nat, stride: nat, bpp: nat, left: nat, prev: seq<Byte>, out: seq<Byte>)
    requires bpp > 0 && left > 0 && p + 1 + stride <= |raw| && |prev| == stride
    ensures var row := Row(Plain.Kind(raw[p]), raw[p + 1..p + 1 + stride], prev, bpp);
            && |row| == stride
            && After(out, PlainRows(raw[p..], stride, bpp, left, prev))
                 == After(out + row, PlainRows(raw[p + 1 + stride..], stride, bpp, left - 1, row))
  {
    hide Row;
    var rest := raw[p..];
    RowSize(Plain.Kind(raw[p]), raw[p + 1..p + 1 + stride], prev, bpp);
    assert rest[1..1 + stride] == raw[p + 1..p + 1 + stride] && rest[1 + stride..] == raw[p + 1 + stride..];
    var row := Row(Plain.Kind(raw[p]), raw[p + 1..p + 1 + stride], prev, bpp);
    var more := PlainRows(raw[p + 1 + stride..], stride, bpp, left - 1, row);
    assert more.Some? ==> out + (row + more.value) == out + row + more.value;
  }

  function After(out: seq<Byte>, rest: Option<seq<Byte>>): Option<seq<Byte>> {
    match rest case None => None case Some(r) => Some(out + r)
  }

  // The rows from p on when the next one is not all there, or there is none to come.
  lemma LastPlainRow(raw: seq<Byte>, p: nat, stride: nat, bpp: nat, left: nat, prev: seq<Byte>, out: seq<Byte>)
    requires bpp > 0 && p <= |raw| && |prev| == stride && (left == 0 || |raw| < p + 1 + stride)
    ensures After(out, PlainRows(raw[p..], stride, bpp, left, prev)) ==
              if left == 0 then Some(out)
              else if p == |raw| || left > 1 then None
              else After(out, ShortRow(raw[p], raw[p + 1..], prev, stride, bpp))
  {
    hide ShortRow;
    assert p < |raw| ==> raw[p..][1..] == raw[p + 1..];
    assert out + [] == out;
  }

  method UnfilterPlain(raw: seq<Byte>, w: nat, h: nat, bpp: nat) returns (out: Option<seq<Byte>>)
    requires bpp > 0
    ensures out == PlainRows(raw, w * bpp, bpp, h, Zeros(w * bpp))
  {
    hide Row, ShortRow, PlainRows, After;
    var stride := w * bpp;
    var done: seq<Byte> := [];
    var prev := Zeros(stride);
    var p := 0;
    assert raw[0..] == raw;
    Nothing(PlainRows(raw, stride, bpp, h, prev));
    for y := 0 to h
      invariant |prev| == stride && p <= |raw|
      invariant After(done, PlainRows(raw[p..], stride, bpp, h - y, prev)) == PlainRows(raw, stride, bpp, h, Zeros(stride))
    {
      if |raw| < p + 1 + stride {
        LastPlainRow(raw, p, stride, bpp, h - y, prev, done);
      }
      if p >= |raw| {
        return None;
      }
      var ft := raw[p];
      if |raw| < p + 1 + stride {
        var cut := UndoShort(ft, raw[p + 1..], prev, bpp);
        return if y + 1 < h then None else After(done, cut);
      }
      NextPlainRow(raw, p, stride, bpp, h - y, prev, done);
      var line := new Byte[stride](i requires 0 <= i < stride => raw[p + 1 + i]);
      assert line[..] == raw[p + 1..p + 1 + stride];
      UndoPlain(ft, line, prev, bpp);
      p := p + 1 + stride;
      done := done + line[..];
      prev := line[..];
    }
    LastPlainRow(raw, p, stride, bpp, 0, prev, done);
    return Some(done);
  }

  lemma Nothing(rest: Option<seq<Byte>>)
    ensures After([], rest) == rest
  {
    assert rest.Some? ==> [] + rest.value == rest.value;
  }

  // ---- whole rows at a time -----------------------------------------------------------

  // A lane is every bpp-th byte; its running sum, not yet cut to a byte.
  function LaneSum(line: seq<Byte>, bpp: nat, i: nat): nat
    requires bpp > 0 && i < |line|
  {
    line[i] + if i >= bpp then LaneSum(line, bpp, i - bpp) else 0
  }

  // Cutting once at the end gives what cutting at every byte does.
  lemma {:induction false} LaneSumMeans(line: seq<Byte>, prev: seq<Byte>, bpp: nat, i: nat)
    requires bpp > 0 && i < |line| && |prev| == |line|
    ensures LaneSum(line, bpp, i) % 256 == At(1, line, prev, bpp, i)
  {
    if i >= bpp {
      LaneSumMeans(line, prev, bpp, i - bpp);
      CutLate(line[i], LaneSum(line, bpp, i - bpp));
    }
  }

  lemma CutLate(x: nat, sum: nat)
    ensures (x + sum) % 256 == (x + sum % 256) % 256
  {
  }

  method UndoVectorised(ft: Byte, line: seq<Byte>, prev: seq<Byte>, w: nat, bpp: nat) returns (cur: seq<Byte>)
    requires bpp > 0 && |line| == |prev| == Size(w, bpp)
    ensures cur == Row(Vectorised.Kind(ft), line, prev, bpp)
  {
    if ft == 0 {
      cur := line;
    } else if ft == 1 {
      cur := seq(|line|, i requires 0 <= i < |line| => Low(LaneSum(line, bpp, i)));
      forall i | 0 <= i < |line|
        ensures cur[i] == At(1, line, prev, bpp, i)
      {
        LaneSumMeans(line, prev, bpp, i);
      }
    } else if ft == 2 {
      cur := seq(|line|, i requires 0 <= i < |line| => Low(line[i] as int + prev[i] as int));
    } else if ft == 3 {
      cur := AveragePixels(line, prev, w, bpp);
    } else {
      var list := new Byte[|line|](i requires 0 <= i < |line| => line[i]);
      assert list[..] == line;
      UndoPaeth(list, prev, bpp);
      cur := list[..];
    }
  }

  function AveragedByte(was: seq<Byte>, prev: seq<Byte>, bpp: nat, i: nat, inner: bool): Byte
    requires i < |was| == |prev| && (inner ==> i >= bpp)
  {
    var left: int := if inner then was[i - bpp] else 0;
    Low(was[i] as int + Half(left + prev[i] as int))
  }

  // A pixel at a time: each adds the halved sum of the pixels to the left and above.
  method AveragePixels(line: seq<Byte>, prev: seq<Byte>, w: nat, bpp: nat) returns (cur: seq<Byte>)
    requires bpp > 0 && |line| == |prev| == Size(w, bpp)
    ensures cur == Row(3, line, prev, bpp)
  {
    cur := line;
    var i := 0;
    ghost var left := w;
    while i < |line|
      invariant i + Size(left, bpp) == |line| && (i == 0 || i >= bpp)
      invariant UndoneTo(3, cur, line, prev, bpp, i)
      decreases left
    {
      var was := cur;
      var pixel := AveragedPixel(was, prev, bpp, i);
      PixelUndone(was, line, prev, bpp, i);
      cur := cur[..i] + pixel + cur[i + bpp..];
      i := i + bpp;
      left := left - 1;
    }
  }

  function AveragedPixel(was: seq<Byte>, prev: seq<Byte>, bpp: nat, i: nat): seq<Byte>
    requires i + bpp <= |was| == |prev| && (i == 0 || i >= bpp)
  {
    seq<Byte>(bpp, k requires 0 <= k < bpp => AveragedByte(was, prev, bpp, i + k, i > 0))
  }

  lemma PixelUndone(was: seq<Byte>, line: seq<Byte>, prev: seq<Byte>, bpp: nat, i: nat)
    requires bpp > 0 && |prev| == |line| && (i == 0 || i >= bpp) && i + bpp <= |line|
    requires UndoneTo(3, was, line, prev, bpp, i)
    ensures UndoneTo(3, was[..i] + AveragedPixel(was, prev, bpp, i) + was[i + bpp..], line, prev, bpp, i + bpp)
  {
    var pixel := AveragedPixel(was, prev, bpp, i);
    var now := was[..i] + pixel + was[i + bpp..];
    forall k | i <= k < i + bpp
      ensures now[k] == At(3, line, prev, bpp, k)
    {
      assert now[k] == pixel[k - i] == AveragedByte(was, prev, bpp, k, i > 0);
    }
  }

  // Whole rows; a buffer of any other size is refused.
  method UnfilterVectorised(raw: seq<Byte>, w: nat, h: nat, bpp: nat) returns (ok: bool, out: seq<Byte>)
    requires bpp > 0
    ensures ok == (|raw| == Size(h, w * bpp + 1))
    ensures ok ==> out == DecodeRows(Vectorised, raw, w * bpp, bpp, h, Zeros(w * bpp))
  {
    hide Row, DecodeRows, Size;
    var stride := w * bpp;
    SizeIsProduct(h, stride + 1);
    SizeIsProduct(w, bpp);
    if |raw| != h * (stride + 1) {
      return false, [];
    }
    ok, out := true, [];
    var prev := Zeros(stride);
    var p := 0;
    assert raw[0..] == raw;
    for y := 0 to h
      invariant 0 <= p <= |raw| && |prev| == stride && p + Size(h - y, stride + 1) == |raw|
      invariant out + DecodeRows(Vectorised, raw[p..], stride, bpp, h - y, prev)
             == DecodeRows(Vectorised, raw, stride, bpp, h, Zeros(stride))
    {
      NextRow(Vectorised, raw, p, stride, bpp, h - y, prev);
      var cur := UndoVectorised(raw[p], raw[p + 1..p + 1 + stride], prev, w, bpp);
      p := p + 1 + stride;
      out := out + cur;
      prev := cur;
    }
    NoRows(Vectorised, raw[p..], stride, bpp, prev);
  }
}
