/** Credential records: hex, decimal, and the line each account takes in the file. */
module AuthRecords {
  import opened Basics

  const MAX_USERS: nat := 256
  const MAX_NAME: nat := 32
  const SALT_LEN: nat := 16
  const HASH_LEN: nat := 32
  const LINE_LEN: nat := 511
  const WORD: nat := 0x1_0000_0000
  const LONG: nat := 0x1_0000_0000_0000_0000

  datatype Entry = Entry(name: string, salt: seq<Byte>, iterations: nat, hash: seq<Byte>) {
    predicate Valid() {
      |salt| == SALT_LEN && |hash| == HASH_LEN && iterations < WORD
    }
  }

  // ---- hex ----------------------------------------------------------------------

  const DIGITS: string := "0123456789abcdef"

  function Digit(v: nat): char
    requires v < 16
  {
    DIGITS[v]
  }

  function HexOf(bytes: seq<Byte>): string {
    if bytes == [] then "" else HexOf(bytes[..|bytes| - 1]) + [Digit(bytes[|bytes| - 1] / 16), Digit(bytes[|bytes| - 1] % 16)]
  }

  // The value of a hex digit of either case, or 16.
  function DigitValue(c: char): nat {
    if '0' <= c <= '9' then c as int - '0' as int
    else if 'a' <= c <= 'f' then c as int - 'a' as int + 10
    else if 'A' <= c <= 'F' then c as int - 'A' as int + 10
    else 16
  }

  predicate IsBlank(c: char) {
    c == ' ' || '\t' <= c <= '\r'
  }

  function SkipBlanks(s: string): string {
    if s != "" && IsBlank(s[0]) then SkipBlanks(s[1..]) else s
  }

  // What "%2x" of section 7.21.6.2 of ISO/IEC 9899:2011 reads from a text: blanks are
  // skipped; then a sign and a digit, two digits, or one digit before anything else. A sign
  // or 0x without a digit after it does not match.
  function HexItem(s: string): Option<int> {
    var t := SkipBlanks(s);
    if t == "" then None
    else
      var first := DigitValue(t[0]);
      var second := if |t| > 1 then DigitValue(t[1]) else 16;
      if t[0] == '-' || t[0] == '+' then (if second == 16 then None else Some(if t[0] == '-' then -second else second))
      else if first == 16 then None
      else if second < 16 then Some(first * 16 + second)
      else if t[0] == '0' && |t| > 1 && (t[1] == 'x' || t[1] == 'X') then None
      else Some(first)
  }

  // The bytes from number i on, each read from its own place on.
  function BytesFrom(hex: string, i: nat, n: nat): (r: Option<seq<Byte>>)
    requires |hex| == 2 * n && i <= n
    ensures r.Some? ==> |r.value| == n - i
    decreases n - i
  {
    if i == n then Some([])
    else
      match HexItem(hex[2 * i..])
      case None => None
      case Some(v) =>
        match BytesFrom(hex, i + 1, n)
        case None => None
        case Some(rest) => Some([v % 256] + rest)
  }

  function Decoded(hex: string, n: nat): Option<seq<Byte>> {
    if |hex| != 2 * n then None else BytesFrom(hex, 0, n)
  }

  // No colons or line ends.
  ghost predicate Plain(s: string) {
    forall i | 0 <= i < |s| :: s[i] != ':' && s[i] != '\n'
  }

  lemma DigitRead(v: nat)
    requires v < 16
    ensures DigitValue(Digit(v)) == v && Digit(v) != ':' && Digit(v) != '\n' && !IsBlank(Digit(v)) && Digit(v) != '-' && Digit(v) != '+'
  {
  }

  // Two digits of its own are read as they are, whatever follows.
  lemma PairRead(s: string, b: Byte)
    requires |s| >= 2 && s[0] == Digit(b / 16) && s[1] == Digit(b % 16)
    ensures HexItem(s) == Some(b)
  {
    hide DigitValue, Digit, IsBlank;
    DigitRead(b / 16);
    DigitRead(b % 16);
    assert SkipBlanks(s) == s;
    assert b / 16 * 16 + b % 16 == b;
  }

  lemma {:induction false} HexDigits(bytes: seq<Byte>)
    ensures |HexOf(bytes)| == 2 * |bytes| && Plain(HexOf(bytes))
    ensures forall i | 0 <= i < |bytes| :: HexOf(bytes)[2 * i] == Digit(bytes[i] / 16) && HexOf(bytes)[2 * i + 1] == Digit(bytes[i] % 16)
  {
    hide Digit;
    if bytes != [] {
      var front, last := bytes[..|bytes| - 1], bytes[|bytes| - 1];
      HexDigits(front);
      DigitRead(last / 16);
      DigitRead(last % 16);
      assert HexOf(bytes) == HexOf(front) + [Digit(last / 16), Digit(last % 16)];
    }
  }

  lemma {:induction false} DigitsReadBack(hex: string, bytes: seq<Byte>, i: nat)
    requires |hex| == 2 * |bytes| && i <= |bytes|
    requires forall k | 0 <= k < |bytes| :: hex[2 * k] == Digit(bytes[k] / 16) && hex[2 * k + 1] == Digit(bytes[k] % 16)
    ensures BytesFrom(hex, i, |bytes|) == Some(bytes[i..])
    decreases |bytes| - i
  {
    hide Digit, HexItem;
    if i < |bytes| {
      PairRead(hex[2 * i..], bytes[i]);
      DigitsReadBack(hex, bytes, i + 1);
      assert bytes[i..] == [bytes[i]] + bytes[i + 1..];
    }
  }

  lemma HexReadsBack(bytes: seq<Byte>)
    ensures |HexOf(bytes)| == 2 * |bytes| && Decoded(HexOf(bytes), |bytes|) == Some(bytes) && Plain(HexOf(bytes))
  {
    hide HexOf, Digit;
    HexDigits(bytes);
    DigitsReadBack(HexOf(bytes), bytes, 0);
  }

  method BytesToHex(bytes: seq<Byte>) returns (hex: string)
    ensures hex == HexOf(bytes)
  {
    hex := "";
    for i := 0 to |bytes|
      invariant hex == HexOf(bytes[..i])
    {
      assert bytes[..i + 1][..i] == bytes[..i];
      hex := hex + [Digit(bytes[i] / 16), Digit(bytes[i] % 16)];
    }
    assert bytes[..|bytes|] == bytes;
  }

  method HexToBytes(hex: string, n: nat) returns (bytes: Option<seq<Byte>>)
    ensures bytes == Decoded(hex, n)
  {
    hide HexItem;
    if |hex| != 2 * n {
      return None;
    }
    var out: seq<Byte> := [];
    for i := 0 to n
      invariant |out| == i && Prefixed([], Decoded(hex, n)) == Prefixed(out, BytesFrom(hex, i, n))
    {
      var item := HexItem(hex[2 * i..]);
      PrefixedMore(out, hex, i, n);
      if item == None {
        PrefixedNone(Decoded(hex, n));
        return None;
      }
      out := out + [item.value % 256];
    }
    PrefixedNone(Decoded(hex, n));
    assert out + [] == out;
    return Some(out);
  }

  function Prefixed(front: seq<Byte>, rest: Option<seq<Byte>>): Option<seq<Byte>> {
    match rest case None => None case Some(r) => Some(front + r)
  }

  lemma PrefixedNone(rest: Option<seq<Byte>>)
    ensures Prefixed([], rest) == rest
  {
    assert rest.Some? ==> [] + rest.value == rest.value;
  }

  lemma PrefixedMore(out: seq<Byte>, hex: string, i: nat, n: nat)
    requires |hex| == 2 * n && i < n
    ensures Prefixed(out, BytesFrom(hex, i, n)) ==
              match HexItem(hex[2 * i..])
              case None => None
              case Some(v) => Prefixed(out + [v % 256], BytesFrom(hex, i + 1, n))
  {
    hide HexItem;
    var item, rest := HexItem(hex[2 * i..]), BytesFrom(hex, i + 1, n);
    if item.Some? && rest.Some? {
      assert out + ([item.value % 256] + rest.value) == out + [item.value % 256] + rest.value;
    }
  }

  // ---- decimal --------------------------------------------------------------------

  function Decimal(n: nat): string {
    if n < 10 then [Digit(n)] else Decimal(n / 10) + [Digit(n % 10)]
  }

  predicate IsDigit(c: char) {
    '0' <= c <= '9'
  }

  // How many digits the text begins with.
  function DigitSpan(s: string): (n: nat)
    ensures n <= |s| && forall i | 0 <= i < n :: IsDigit(s[i])
  {
    if s != "" && IsDigit(s[0]) then 1 + DigitSpan(s[1..]) else 0
  }

  function Number(digits: string): nat
    requires forall i | 0 <= i < |digits| :: IsDigit(digits[i])
  {
    if digits == "" then 0
    else
      assert IsDigit(digits[|digits| - 1]);
      Number(digits[..|digits| - 1]) * 10 + (digits[|digits| - 1] as int - '0' as int)
  }

  // Numbers beyond 64 bits are cut to the largest; then the sign, and what 32 bits keep.
  function ToUnsigned(negative: bool, n: nat): nat {
    var v: int := if n >= LONG then LONG - 1 else if negative then -(n as int) else n;
    v % WORD
  }

  lemma {:induction false} DecimalReadsBack(n: nat)
    ensures |Decimal(n)| > 0 && (forall i | 0 <= i < |Decimal(n)| :: IsDigit(Decimal(n)[i])) && Number(Decimal(n)) == n
  {
    if n >= 10 {
      DecimalReadsBack(n / 10);
      assert Decimal(n)[..|Decimal(n)| - 1] == Decimal(n / 10);
    } else {
      assert Decimal(n)[..0] == "";
    }
  }

  lemma {:induction false} DigitSpanStops(digits: string, rest: string)
    requires (forall i | 0 <= i < |digits| :: IsDigit(digits[i])) && (rest != "" ==> !IsDigit(rest[0]))
    ensures DigitSpan(digits + rest) == |digits|
  {
    if digits == "" {
      assert digits + rest == rest;
    } else {
      DigitSpanStops(digits[1..], rest);
      assert (digits + rest)[1..] == digits[1..] + rest;
    }
  }

  // ---- records ----------------------------------------------------------------------

  function Printed(e: Entry): string {
    e.name + ":" + HexOf(e.salt) + ":" + Decimal(e.iterations) + ":" + HexOf(e.hash) + "\n"
  }

  // How many characters, at most a limit, come before a colon or a line end.
  function Span(s: string, limit: nat): (n: nat)
    ensures n <= |s| && n <= limit && forall i | 0 <= i < n :: s[i] != ':'
  {
    if s == "" || limit == 0 || s[0] == ':' then 0 else 1 + Span(s[1..], limit - 1)
  }

  // A field of 1 to limit characters, and what comes after it.
  function Field(s: string, limit: nat): Option<(string, string)> {
    var n := Span(s, limit);
    if n == 0 then None else Some((s[..n], s[n..]))
  }

  // The same, and the colon after it.
  function FieldColon(s: string, limit: nat): Option<(string, string)> {
    match Field(s, limit)
    case None => None
    case Some(f) => if f.1 == "" || f.1[0] != ':' then None else Some((f.0, f.1[1..]))
  }

  // What "%u:" reads: blanks are skipped, a sign may come first.
  function NumberColon(s: string): Option<(nat, string)> {
    var t := SkipBlanks(s);
    var signed := t != "" && (t[0] == '-' || t[0] == '+');
    var u := if signed then t[1..] else t;
    var n := DigitSpan(u);
    if n == 0 || n == |u| || u[n] != ':' then None else Some((ToUnsigned(signed && t[0] == '-', Number(u[..n])), u[n + 1..]))
  }

  // A line, its line end already cut, as a record.
  function ParsedLine(line: string): Option<Entry> {
    match FieldColon(line, MAX_NAME)
    case None => None
    case Some(name) =>
      match FieldColon(name.1, 2 * SALT_LEN)
      case None => None
      case Some(salt) =>
        match NumberColon(salt.1)
        case None => None
        case Some(number) =>
          match Field(number.1, 2 * HASH_LEN)
          case None => None
          case Some(hash) =>
            match Decoded(salt.0, SALT_LEN)
            case None => None
            case Some(s) =>
              match Decoded(hash.0, HASH_LEN)
              case None => None
              case Some(h) => Some(Entry(name.0, s, number.0, h))
  }

  ghost predicate GoodName(name: string) {
    1 <= |name| <= MAX_NAME && Plain(name)
  }

  lemma {:induction false} SpanStops(field: string, rest: string, limit: nat)
    requires (forall i | 0 <= i < |field| :: field[i] != ':') && |field| <= limit
    requires rest != "" ==> rest[0] == ':'
    ensures Span(field + rest, limit) == |field|
  {
    if field == "" {
      assert field + rest == rest;
    } else {
      SpanStops(field[1..], rest, limit - 1);
      assert (field + rest)[1..] == field[1..] + rest;
    }
  }

  lemma FieldRead(field: string, rest: string, limit: nat)
    requires 1 <= |field| <= limit && Plain(field)
    ensures FieldColon(field + ":" + rest, limit) == Some((field, rest))
    ensures Field(field, limit) == Some((field, ""))
  {
    hide Span;
    SpanStops(field, ":" + rest, limit);
    assert field + ":" + rest == field + (":" + rest);
    SpanStops(field, "", limit);
    assert field + "" == field;
  }

  lemma NumberRead(n: nat, rest: string)
    requires n < WORD
    ensures NumberColon(Decimal(n) + ":" + rest) == Some((n, rest))
  {
    hide Decimal, DigitSpan, Number;
    DecimalReadsBack(n);
    DigitSpanStops(Decimal(n), ":" + rest);
    var s := Decimal(n) + ":" + rest;
    assert s == Decimal(n) + (":" + rest);
    assert IsDigit(s[0]) && SkipBlanks(s) == s;
    assert s[..|Decimal(n)|] == Decimal(n) && s[|Decimal(n)| + 1..] == rest;
  }

  function LineOf(e: Entry): string {
    e.name + ":" + (HexOf(e.salt) + ":" + (Decimal(e.iterations) + ":" + HexOf(e.hash)))
  }

  // A record with a good name reads back as it was.
  lemma LineReadsBack(e: Entry)
    requires e.Valid() && GoodName(e.name)
    ensures Printed(e) == LineOf(e) + "\n" && ParsedLine(LineOf(e)) == Some(e)
    ensures forall i | 0 <= i < |LineOf(e)| :: LineOf(e)[i] != '\n'
    ensures |LineOf(e)| < LINE_LEN
  {
    hide HexOf, Decimal, FieldColon, Field, NumberColon, Decoded;
    HexReadsBack(e.salt);
    HexReadsBack(e.hash);
    FieldRead(e.name, HexOf(e.salt) + ":" + (Decimal(e.iterations) + ":" + HexOf(e.hash)), MAX_NAME);
    FieldRead(HexOf(e.salt), Decimal(e.iterations) + ":" + HexOf(e.hash), 2 * SALT_LEN);
    NumberRead(e.iterations, HexOf(e.hash));
    FieldRead(HexOf(e.hash), "", 2 * HASH_LEN);
    DecimalReadsBack(e.iterations);
    DecimalShort(e.iterations, 10);
  }

  lemma {:induction false} DecimalShort(n: nat, digits: nat)
    requires digits > 0 && n < Tens(digits)
    ensures |Decimal(n)| <= digits
  {
    if n >= 10 {
      DecimalShort(n / 10, digits - 1);
    }
  }

  function Tens(n: nat): nat {
    if n == 0 then 1 else 10 * Tens(n - 1)
  }

  // Whatever a line holds, a record read from it has a good name.
  lemma ParsedNameGood(line: string)
    requires ParsedLine(line).Some? && forall i | 0 <= i < |line| :: line[i] != '\n'
    ensures ParsedLine(line).value.Valid() && GoodName(ParsedLine(line).value.name)
  {
    var name := ParsedLine(line).value.name;
    assert name == line[..Span(line, MAX_NAME)];
  }
}
