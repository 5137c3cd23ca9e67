// Reader reply lines (internal/reader/protocol/parser.go).
module Parsing {
  import opened Framing

  const BLANK: byte := 32
  const TAB: byte := 9
  const GT: byte := 62
  const SEMICOLON: byte := 59
  const LETTER_R: byte := 82
  const LETTER_T: byte := 84
  const LETTER_A: byte := 65
  const LETTER_C: byte := 67

  datatype Tag = Tag(pc: seq<byte>, epc: seq<byte>, rssi: int, hasRssi: bool)

  datatype TagError = BadRssi | TooShort | BadPc | BadEpc

  datatype Line =
    | NotAReply
    | EmptyAck
    | Unclassified
    | BadTag(error: TagError)
    | TagLine(tag: Tag)
    | Ack(command: byte)
    | Code(text: seq<byte>)
    | Setting(kind: byte, value: seq<byte>)

  // ---- Bytes ----

  predicate IsBlank(c: byte) {
    c == BLANK || c == TAB
  }

  predicate IsHexDigit(c: byte) {
    48 <= c <= 57 || 97 <= c <= 102 || 65 <= c <= 70
  }

  predicate IsHex(b: seq<byte>) {
    b != [] && forall i :: 0 <= i < |b| ==> IsHexDigit(b[i])
  }

  function UpperByte(c: byte): byte {
    if 97 <= c <= 102 then c - 32 else c
  }

  function Upper(b: seq<byte>): (r: seq<byte>)
    ensures |r| == |b| && forall i :: 0 <= i < |b| ==> r[i] == UpperByte(b[i])
  {
    seq(|b|, i requires 0 <= i < |b| => UpperByte(b[i]))
  }

  /** Upper-case hexadecimal. */
  predicate IsUpperHex(b: seq<byte>) {
    IsHex(b) && Upper(b) == b
  }

  /** A buffer without its spaces and tabs. */
  function Strip(b: seq<byte>): (r: seq<byte>)
    ensures forall i :: 0 <= i < |r| ==> !IsBlank(r[i])
    ensures forall c :: c in b && !IsBlank(c) ==> c in r
  {
    if b == [] then []
    else if IsBlank(b[|b| - 1]) then Strip(b[..|b| - 1])
    else Strip(b[..|b| - 1]) + [b[|b| - 1]]
  }

  /** A buffer without the spaces and tabs at its end. */
  function TrimRight(b: seq<byte>): (r: seq<byte>)
    ensures r <= b && (r != [] ==> !IsBlank(r[|r| - 1]))
    ensures forall i :: |r| <= i < |b| ==> IsBlank(b[i])
  {
    if b != [] && IsBlank(b[|b| - 1]) then TrimRight(b[..|b| - 1]) else b
  }

  predicate IsSpace(c: byte) {
    c == BLANK || 9 <= c <= 13
  }

  function TrimSpace(b: seq<byte>): (r: seq<byte>)
    ensures r != [] ==> !IsSpace(r[0]) && !IsSpace(r[|r| - 1])
    ensures forall c :: c in b && !IsSpace(c) ==> c in r
    decreases |b|
  {
    if b == [] then []
    else if IsSpace(b[0]) then TrimSpace(b[1..])
    else if IsSpace(b[|b| - 1]) then TrimSpace(b[..|b| - 1])
    else b
  }

  /** Byte by byte: spaces (32) and tabs (9) go, everything else stays where it is. */
  lemma {:induction false} StripByByte(b: seq<byte>, c: byte)
    ensures Strip([]) == [] && Strip(b + [c]) == if c == 32 || c == 9 then Strip(b) else Strip(b) + [c]
  {
    assert (b + [c])[..|b|] == b;
  }

  method StripSpaces(b: seq<byte>) returns (out: seq<byte>)
    ensures out == Strip(b)
    ensures forall i :: 0 <= i < |out| ==> out[i] != 32 && out[i] != 9
  {
    out := [];
    for i := 0 to |b|
      invariant out == Strip(b[..i])
    {
      assert b[..i + 1][..i] == b[..i];
      if !IsBlank(b[i]) {
        out := out + [b[i]];
      }
    }
    assert b[..|b|] == b;
  }

  method IsHexBytes(b: seq<byte>) returns (ok: bool)
    ensures ok == IsHex(b)
    ensures ok <==> b != [] && forall i :: 0 <= i < |b| ==> 48 <= b[i] <= 57 || 65 <= b[i] <= 70 || 97 <= b[i] <= 102
  {
    if |b| == 0 {
      return false;
    }
    for i := 0 to |b|
      invariant forall k :: 0 <= k < i ==> IsHexDigit(b[k])
    {
      if !IsHexDigit(b[i]) {
        return false;
      }
    }
    return true;
  }

  method UpperHex(b: seq<byte>) returns (s: seq<byte>)
    ensures s == Upper(b)
    ensures |s| == |b| && forall i :: 0 <= i < |b| ==> s[i] == if 97 <= b[i] <= 102 then b[i] - 32 else b[i]
  {
    var out := new byte[|b|];
    for i := 0 to |b|
      invariant forall k :: 0 <= k < i ==> out[k] == UpperByte(b[k])
    {
      var c := b[i];
      if 97 <= c <= 102 {
        c := c - 32;
      }
      out[i] := c;
    }
    s := out[..];
  }

  // ---- Hexadecimal numbers ----

  function DigitValue(c: byte): (v: int)
    requires IsHexDigit(c)
    ensures 0 <= v < 16
  {
    if c <= 57 then c - 48 else if c <= 70 then c - 55 else c - 87
  }

  function HexDigit(v: int): (c: byte)
    requires 0 <= v < 16
    ensures IsHexDigit(c) && UpperByte(c) == c && DigitValue(c) == v
  {
    if v < 10 then v + 48 else v + 55
  }

  /** The unsigned value of four hex digits. */
  function Value(b: seq<byte>): (v: int)
    requires |b| == 4 && IsHex(b)
    ensures 0 <= v < 0x10000
  {
    ((DigitValue(b[0]) * 16 + DigitValue(b[1])) * 16 + DigitValue(b[2])) * 16 + DigitValue(b[3])
  }

  /** Reinterpretation of an unsigned 16-bit number as a signed one. */
  function Signed16(u: int): int
    requires 0 <= u < 0x10000
  {
    if u < 0x8000 then u else u - 0x10000
  }

  /** Four upper-case hex digits of a signed 16-bit number in two's complement. */
  function Hex16(v: int): (b: seq<byte>)
    requires -0x8000 <= v < 0x8000
    ensures |b| == 4 && IsUpperHex(b)
  {
    var u := if v < 0 then v + 0x10000 else v;
    [HexDigit(u / 0x1000), HexDigit(u / 0x100 % 16), HexDigit(u / 16 % 16), HexDigit(u % 16)]
  }

  /** Four hex digits as an unsigned number, most significant first, and as a signed one; FD96 is -618. */
  lemma {:induction false} ValueExactly(b: seq<byte>)
    requires |b| == 4 && IsHex(b)
    ensures Value(b) == 0x1000 * DigitValue(b[0]) + 0x100 * DigitValue(b[1]) + 0x10 * DigitValue(b[2]) + DigitValue(b[3])
    ensures forall i :: 0 <= i < 4 ==>
              DigitValue(b[i]) == if b[i] <= 57 then b[i] - 48 else if b[i] <= 70 then b[i] - 65 + 10 else b[i] - 97 + 10
    ensures Signed16(Value(b)) == if Value(b) < 32768 then Value(b) else Value(b) - 65536
    ensures b == [70, 68, 57, 54] ==> Signed16(Value(b)) == -618
  {
  }

  lemma {:induction false} DigitOfValue(c: byte)
    requires IsHexDigit(c)
    ensures HexDigit(DigitValue(c)) == UpperByte(c) && DigitValue(UpperByte(c)) == DigitValue(c)
  {
  }

  lemma {:induction false} HexOfUnsigned(u: int)
    requires 0 <= u < 0x10000
    ensures Hex16(Signed16(u)) == [HexDigit(u / 0x1000), HexDigit(u / 0x100 % 16), HexDigit(u / 16 % 16), HexDigit(u % 16)]
  {
    hide HexDigit;
  }

  lemma {:induction false} HexOfValue(b: seq<byte>)
    requires |b| == 4 && IsHex(b)
    ensures Hex16(Signed16(Value(b))) == Upper(b)
  {
    var d0, d1, d2, d3 := DigitValue(b[0]), DigitValue(b[1]), DigitValue(b[2]), DigitValue(b[3]);
    Digits(d0, d1, d2, d3);
    DigitOfValue(b[0]);
    DigitOfValue(b[1]);
    DigitOfValue(b[2]);
    DigitOfValue(b[3]);
    var u := Value(b);
    assert u == ((d0 * 16 + d1) * 16 + d2) * 16 + d3;
    hide DigitValue, HexDigit, UpperByte;
    HexOfUnsigned(u);
  }

  lemma {:induction false} Digits(a: int, b: int, c: int, d: int)
    requires 0 <= a < 16 && 0 <= b < 16 && 0 <= c < 16 && 0 <= d < 16
    ensures var u := ((a * 16 + b) * 16 + c) * 16 + d;
            u / 0x1000 == a && u / 0x100 % 16 == b && u / 16 % 16 == c && u % 16 == d
  {
  }

  lemma {:induction false} Recomposed(u: int)
    requires 0 <= u < 0x10000
    ensures ((u / 0x1000 * 16 + u / 0x100 % 16) * 16 + u / 16 % 16) * 16 + u % 16 == u
  {
  }

  lemma {:induction false} ValueOfHex(v: int, b: seq<byte>)
    requires -0x8000 <= v < 0x8000 && |b| == 4 && IsHex(b) && Upper(b) == Hex16(v)
    ensures Signed16(Value(b)) == v
  {
    var u := if v < 0 then v + 0x10000 else v;
    Recomposed(u);
    forall i | 0 <= i < 4 ensures DigitValue(b[i]) == DigitValue(Hex16(v)[i]) {
      DigitOfValue(b[i]);
      assert Upper(b)[i] == UpperByte(b[i]);
    }
    assert Value(b) == u by {
      hide DigitValue;
    }
  }

  // ---- Parse ----

  /** Index of the first ";R" at or after `from`, or -1. */
  function IndexRssi(b: seq<byte>, from: nat): (i: int)
    ensures i == -1 || (from <= i && i + 1 < |b| && b[i] == SEMICOLON && b[i + 1] == LETTER_R)
    ensures forall k :: from <= k && k + 1 < |b| && (i == -1 || k < i) ==> !(b[k] == SEMICOLON && b[k + 1] == LETTER_R)
    decreases |b| - from
  {
    if from + 1 >= |b| then -1
    else if b[from] == SEMICOLON && b[from + 1] == LETTER_R then from
    else IndexRssi(b, from + 1)
  }

  /** The PC and EPC part, with the RSSI already taken off. */
  function ParseBody(body: seq<byte>, rssi: int, hasRssi: bool): Line {
    var p := Strip(body);
    if |p| < 6 then BadTag(TooShort)
    else if !IsHex(p[..4]) then BadTag(BadPc)
    else if |p[4..]| % 2 != 0 || !IsHex(p[4..]) then BadTag(BadEpc)
    else TagLine(Tag(Upper(p[..4]), Upper(p[4..]), rssi, hasRssi))
  }

  function ParseTag(payload: seq<byte>): Line {
    var i := IndexRssi(payload, 0);
    if i < 0 then ParseBody(payload, 0, false)
    else
      var suffix := TrimRight(payload[i + 2..]);
      if |suffix| != 4 || !IsHex(suffix) then BadTag(BadRssi)
      else ParseBody(payload[..i], Signed16(Value(suffix)), true)
  }

  function Parse(raw: seq<byte>): Line {
    if |raw| < 2 || raw[0] != GT then NotAReply
    else if raw[1] == LETTER_T then ParseTag(raw[2..])
    else if raw[1] == LETTER_A then
      var rest := TrimSpace(raw[2..]);
      if rest == [] then EmptyAck else Ack(rest[0])
    else if raw[1] == LETTER_C then Code(TrimSpace(raw[2..]))
    else if |raw| >= 4 && raw[2] == BLANK then Setting(raw[1], TrimSpace(raw[3..]))
    else Unclassified
  }

  // ---- What a tag line is ----

  /** Every tag a reader can report: a 4-digit PC and a non-empty even-length EPC, both upper-case hex,
      and an RSSI that fits 16 bits. */
  predicate NormalTag(t: Tag) {
    && |t.pc| == 4 && IsUpperHex(t.pc)
    && |t.epc| % 2 == 0 && IsUpperHex(t.epc)
    && -0x8000 <= t.rssi < 0x8000
    && (!t.hasRssi ==> t.rssi == 0)
  }

  function Head(): seq<byte> {
    [GT, LETTER_T]
  }

  function Mark(): seq<byte> {
    [SEMICOLON, LETTER_R]
  }

  /** The canonical line of a tag. */
  function Print(t: Tag): seq<byte>
    requires NormalTag(t)
  {
    Head() + t.pc + t.epc + (if t.hasRssi then Mark() + Hex16(t.rssi) else [])
  }

  /** `raw` spells the tag: its PC and EPC digits in order with any spaces and tabs between them, then
      for a tag with RSSI its four digits and any spaces and tabs; letters in either case. */
  ghost predicate Spells(raw: seq<byte>, t: Tag, body: seq<byte>, suffix: seq<byte>) {
    && NormalTag(t)
    && raw == Head() + body + (if t.hasRssi then Mark() + suffix else [])
    && Upper(Strip(body)) == t.pc + t.epc
    && (t.hasRssi ==> Upper(TrimRight(suffix)) == Hex16(t.rssi))
  }

  lemma {:induction false} HexKept(b: seq<byte>)
    requires IsHex(Upper(b))
    ensures IsHex(b)
  {
    forall i | 0 <= i < |b| ensures IsHexDigit(b[i]) {
      assert IsHexDigit(Upper(b)[i]);
    }
  }

  lemma {:induction false} UpperTwice(b: seq<byte>)
    requires IsHex(b)
    ensures IsUpperHex(Upper(b))
  {
  }

  lemma {:induction false} HexJoined(a: seq<byte>, b: seq<byte>)
    requires IsUpperHex(a) && IsUpperHex(b)
    ensures IsUpperHex(a + b)
  {
    forall i | 0 <= i < |a + b| ensures IsHexDigit((a + b)[i]) {
      if i < |a| {
        assert (a + b)[i] == a[i];
      } else {
        assert (a + b)[i] == b[i - |a|];
      }
    }
    assert Upper(a + b) == Upper(a) + Upper(b);
  }

  lemma {:induction false} InStrip(body: seq<byte>, i: nat)
    requires i < |body| && !IsBlank(body[i]) && IsHex(Strip(body))
    ensures IsHexDigit(body[i])
  {
    assert body[i] in body;
    assert body[i] in Strip(body);
  }

  /** A part whose digits are hex has no semicolon, so ";R" is first found behind it. */
  lemma {:induction false} MarkFound(body: seq<byte>, suffix: seq<byte>)
    requires IsHex(Strip(body))
    ensures IndexRssi(body, 0) == -1
    ensures IndexRssi(body + Mark() + suffix, 0) == |body|
  {
    forall i | 0 <= i < |body| ensures body[i] != SEMICOLON {
      if body[i] == SEMICOLON {
        InStrip(body, i);
      }
    }
    var all := body + Mark() + suffix;
    assert all[|body|] == SEMICOLON && all[|body| + 1] == LETTER_R;
    assert forall i :: 0 <= i < |body| ==> all[i] == body[i];
  }

  lemma {:induction false} BodyParsed(body: seq<byte>, t: Tag)
    requires NormalTag(t) && Upper(Strip(body)) == t.pc + t.epc
    ensures ParseBody(body, t.rssi, t.hasRssi) == TagLine(t) && IsHex(Strip(body))
  {
    var p := Strip(body);
    HexJoined(t.pc, t.epc);
    HexKept(p);
    UpperParts(p, t.pc, t.epc);
    HexKept(p[..4]);
    HexKept(p[4..]);
    assert |t.epc| >= 2;
    hide Strip, Upper, IsHex;
  }

  lemma {:induction false} UpperParts(p: seq<byte>, pc: seq<byte>, epc: seq<byte>)
    requires Upper(p) == pc + epc && |pc| == 4
    ensures |p| == 4 + |epc| && Upper(p[..4]) == pc && Upper(p[4..]) == epc
  {
    assert Upper(p)[..4] == pc && Upper(p)[4..] == epc;
  }

  lemma {:induction false} BodySpelled(body: seq<byte>, rssi: int, hasRssi: bool)
    requires -0x8000 <= rssi < 0x8000 && (!hasRssi ==> rssi == 0) && ParseBody(body, rssi, hasRssi).TagLine?
    ensures var t := ParseBody(body, rssi, hasRssi).tag;
            NormalTag(t) && Upper(Strip(body)) == t.pc + t.epc && t.rssi == rssi && t.hasRssi == hasRssi
  {
    var p := Strip(body);
    UpperTwice(p[..4]);
    UpperTwice(p[4..]);
    assert Upper(p) == Upper(p[..4]) + Upper(p[4..]);
  }

  lemma {:induction false} ReadWithRssi(raw: seq<byte>, body: seq<byte>, suffix: seq<byte>)
    requires IsHex(Strip(body)) && raw == Head() + body + (Mark() + suffix)
    ensures var four := TrimRight(suffix);
            |four| == 4 && IsHex(four) ==> Parse(raw) == ParseBody(body, Signed16(Value(four)), true)
  {
    MarkFound(body, suffix);
    hide Strip, ParseBody, IsHex, Value, TrimRight;
    var payload := body + Mark() + suffix;
    assert raw[2..] == payload;
    assert payload[|body| + 2..] == suffix && payload[..|body|] == body;
  }

  lemma {:induction false} ReadWithoutRssi(raw: seq<byte>, body: seq<byte>)
    requires IsHex(Strip(body)) && raw == Head() + body
    ensures Parse(raw) == ParseBody(body, 0, false)
  {
    MarkFound(body, []);
    hide Strip, ParseBody, IsHex;
    assert raw[2..] == body;
  }

  /** Every spelling of a tag is parsed as that tag. */
  lemma {:induction false} SpellingParsed(raw: seq<byte>, t: Tag, body: seq<byte>, suffix: seq<byte>)
    requires Spells(raw, t, body, suffix)
    ensures Parse(raw) == TagLine(t)
  {
    BodyParsed(body, t);
    hide ParseBody, Parse, Strip, Upper, TrimRight, Value, Hex16, IsUpperHex, IsHex;
    if t.hasRssi {
      RssiRead(suffix, t.rssi);
      ReadWithRssi(raw, body, suffix);
    } else {
      assert raw == Head() + body;
      ReadWithoutRssi(raw, body);
    }
  }

  lemma {:induction false} RssiRead(suffix: seq<byte>, rssi: int)
    requires -0x8000 <= rssi < 0x8000 && Upper(TrimRight(suffix)) == Hex16(rssi)
    ensures var four := TrimRight(suffix); |four| == 4 && IsHex(four) && Signed16(Value(four)) == rssi
  {
    hide Value, Hex16, TrimRight;
    HexKept(TrimRight(suffix));
    ValueOfHex(rssi, TrimRight(suffix));
  }

  lemma {:induction false} AtMark(payload: seq<byte>, i: nat)
    requires i + 1 < |payload| && payload[i] == SEMICOLON && payload[i + 1] == LETTER_R
    ensures payload == payload[..i] + Mark() + payload[i + 2..]
  {
  }

  /** The two parts of a line read as a tag. */
  lemma {:induction false} TagSpelled(raw: seq<byte>) returns (body: seq<byte>, suffix: seq<byte>)
    requires Parse(raw).TagLine?
    ensures Spells(raw, Parse(raw).tag, body, suffix)
  {
    hide ParseBody, Strip, Upper, TrimRight, Value, Hex16, IsUpperHex, IsHex, NormalTag;
    var payload := raw[2..];
    assert raw == Head() + payload;
    var i := IndexRssi(payload, 0);
    if i < 0 {
      body, suffix := payload, [];
      BodySpelled(body, 0, false);
    } else {
      body, suffix := payload[..i], payload[i + 2..];
      AtMark(payload, i);
      hide Head, Mark, IndexRssi;
      Regroup(Head(), body, Mark(), suffix);
      var four := TrimRight(suffix);
      BodySpelled(body, Signed16(Value(four)), true);
      HexOfValue(four);
    }
  }

  /** A line is read as a tag exactly when it spells that tag, and the tag is then in normal form. */
  lemma {:induction false} ParseExact(raw: seq<byte>, t: Tag)
    ensures Parse(raw) == TagLine(t) <==> exists body, suffix :: Spells(raw, t, body, suffix)
  {
    if Parse(raw) == TagLine(t) {
      var body, suffix := TagSpelled(raw);
    }
    if body, suffix :| Spells(raw, t, body, suffix) {
      SpellingParsed(raw, t, body, suffix);
    }
  }

  // ---- Consequences ----

  lemma {:induction false} StripClean(b: seq<byte>)
    requires forall i :: 0 <= i < |b| ==> !IsBlank(b[i])
    ensures Strip(b) == b
  {
    if b != [] {
      StripClean(b[..|b| - 1]);
      assert b == b[..|b| - 1] + [b[|b| - 1]];
    }
  }

  /** Printing a tag and reading it again returns the same tag. */
  lemma {:induction false} PrintParse(t: Tag)
    requires NormalTag(t)
    ensures Parse(Print(t)) == TagLine(t)
  {
    var body, suffix := t.pc + t.epc, if t.hasRssi then Hex16(t.rssi) else [];
    HexJoined(t.pc, t.epc);
    StripClean(body);
    HexUntrimmed(suffix);
    hide Parse, Strip, TrimRight, IsHex, Hex16, Upper, Head, Mark;
    assert Head() + t.pc + t.epc == Head() + body;
    SpellingParsed(Print(t), t, body, suffix);
  }

  lemma {:induction false} HexUntrimmed(b: seq<byte>)
    requires b == [] || IsHex(b)
    ensures TrimRight(b) == b
  {
  }

  lemma {:induction false} StripJoined(a: seq<byte>, b: seq<byte>)
    ensures Strip(a + b) == Strip(a) + Strip(b)
  {
    if b == [] {
      assert a + b == a;
    } else {
      StripJoined(a, b[..|b| - 1]);
      assert (a + b)[..|a + b| - 1] == a + b[..|b| - 1];
    }
  }

  lemma {:induction false} StripBlank(body: seq<byte>, k: nat, blank: byte)
    requires k <= |body| && IsBlank(blank)
    ensures Strip(body[..k] + [blank] + body[k..]) == Strip(body)
  {
    assert Strip([blank]) == [];
    hide Strip;
    var front, back := body[..k], body[k..];
    assert front + back == body;
    StripJoined(front + [blank], back);
    StripJoined(front, [blank]);
    StripJoined(front, back);
  }

  /** One more space or tab in the PC and EPC part. */
  lemma {:induction false} BlankInside(raw: seq<byte>, i: nat, blank: byte)
    requires Parse(raw).TagLine? && IsBlank(blank)
    requires 2 <= i <= |raw| && (IndexRssi(raw, 0) >= 0 ==> i <= IndexRssi(raw, 0))
    ensures Parse(raw[..i] + [blank] + raw[i..]) == Parse(raw)
  {
    hide Parse, Strip, Upper, TrimRight, IndexRssi, Hex16, NormalTag;
    var body, suffix := TagSpelled(raw);
    var t := Parse(raw).tag;
    BodyEnds(raw, t, body, suffix);
    var k := i - 2;
    var more := body[..k] + [blank] + body[k..];
    StripBlank(body, k, blank);
    assert raw[..i] + [blank] + raw[i..] == Head() + more + (if t.hasRssi then Mark() + suffix else []);
    SpellingParsed(raw[..i] + [blank] + raw[i..], t, more, suffix);
  }

  lemma {:induction false} Regroup(h: seq<byte>, b: seq<byte>, m: seq<byte>, s: seq<byte>)
    ensures h + b + (m + s) == h + (b + m + s)
  {
  }

  lemma {:induction false} BodyEnds(raw: seq<byte>, t: Tag, body: seq<byte>, suffix: seq<byte>)
    requires Spells(raw, t, body, suffix)
    ensures if t.hasRssi then IndexRssi(raw, 0) == 2 + |body| else IndexRssi(raw, 0) == -1 && |raw| == 2 + |body|
  {
    BodyParsed(body, t);
    MarkFound(body, suffix);
    hide Strip, IsHex, Upper, NormalTag, IndexRssi, TrimRight, Hex16, ParseBody, Mark;
    if t.hasRssi {
      Regroup(Head(), body, Mark(), suffix);
      Shifted(body + Mark() + suffix);
    } else {
      assert raw == Head() + body;
      Shifted(body);
    }
  }

  lemma {:induction false} ShiftedFrom(raw: seq<byte>, payload: seq<byte>, from: nat)
    requires raw == Head() + payload
    ensures var i, j := IndexRssi(raw, from + 2), IndexRssi(payload, from); i == if j < 0 then -1 else j + 2
    decreases |payload| - from
  {
    if from + 1 < |payload| {
      assert raw[from + 2] == payload[from] && raw[from + 3] == payload[from + 1];
      ShiftedFrom(raw, payload, from + 1);
    }
  }

  lemma {:induction false} Shifted(payload: seq<byte>)
    ensures var i, j := IndexRssi(Head() + payload, 0), IndexRssi(payload, 0); i == if j < 0 then -1 else j + 2
  {
    var raw := Head() + payload;
    assert raw[0] == GT && raw[1] == LETTER_T;
    ShiftedFrom(raw, payload, 0);
    assert |raw| > 2 ==> IndexRssi(raw, 1) == IndexRssi(raw, 2);
  }

  /** A space or tab behind the line, with or without RSSI. */
  lemma {:induction false} BlankBehind(raw: seq<byte>, blank: byte)
    requires Parse(raw).TagLine? && IsBlank(blank)
    ensures Parse(raw + [blank]) == Parse(raw)
  {
    hide Parse, Strip, Upper, Hex16, NormalTag;
    var body, suffix := TagSpelled(raw);
    var t := Parse(raw).tag;
    if t.hasRssi {
      assert (suffix + [blank])[..|suffix|] == suffix;
      assert raw + [blank] == Head() + body + (Mark() + (suffix + [blank]));
      SpellingParsed(raw + [blank], t, body, suffix + [blank]);
    } else {
      StripBlank(body, |body|, blank);
      assert body[..|body|] + [blank] + body[|body|..] == body + [blank];
      assert raw + [blank] == Head() + (body + [blank]) + [];
      SpellingParsed(raw + [blank], t, body + [blank], []);
    }
  }

  lemma {:induction false} StripUpper(b: seq<byte>)
    ensures Upper(Strip(Upper(b))) == Upper(Strip(b))
  {
    if b != [] {
      StripUpper(b[..|b| - 1]);
      var c := b[|b| - 1];
      assert Upper(b)[..|b| - 1] == Upper(b[..|b| - 1]);
      assert Upper(Strip(b[..|b| - 1]) + [c]) == Upper(Strip(b[..|b| - 1])) + [UpperByte(c)];
      var u := Strip(Upper(b[..|b| - 1]));
      assert Upper(u + [UpperByte(c)]) == Upper(u) + [UpperByte(c)];
    }
  }

  lemma {:induction false} TrimUpper(b: seq<byte>)
    ensures Upper(TrimRight(Upper(b))) == Upper(TrimRight(b))
  {
    if b != [] && IsBlank(b[|b| - 1]) {
      TrimUpper(b[..|b| - 1]);
      assert Upper(b)[..|b| - 1] == Upper(b[..|b| - 1]);
    } else {
      assert Upper(Upper(b)) == Upper(b);
    }
  }

  /** A line with the letters of another in either case has its head and its ";R" in the same places. */
  lemma {:induction false} SameShape(raw: seq<byte>, other: seq<byte>, body: seq<byte>, tail: seq<byte>)
    requires Upper(raw) == Upper(other) && raw == Head() + body + tail && (tail == [] || Mark() <= tail)
    ensures |other| == |raw| && other[..2] == Head()
    ensures tail != [] ==> |body| + 4 <= |raw| && other[2 + |body|..4 + |body|] == Mark()
  {
    SameMarks(raw, other);
    NotDigits();
    hide Upper, IsHexDigit;
    assert raw[0] == GT && raw[1] == LETTER_T;
    if tail != [] {
      assert raw[2 + |body|] == tail[0] && raw[3 + |body|] == tail[1];
    }
  }

  lemma {:induction false} OtherParts(raw: seq<byte>, other: seq<byte>, body: seq<byte>, tail: seq<byte>)
    requires Upper(raw) == Upper(other) && raw == Head() + body + tail && (tail == [] || Mark() <= tail)
    ensures |other| == |raw| && 2 + |body| <= |raw| && (tail != [] ==> 4 + |body| <= |raw|)
    ensures var m := 2 + |body|;
            other == Head() + other[2..m] + (if tail == [] then [] else Mark() + other[m + 2..])
  {
    SameShape(raw, other, body, tail);
    hide Upper;
    var m := 2 + |body|;
    assert other == other[..2] + other[2..m] + other[m..];
    assert tail != [] ==> other[m..] == other[m..m + 2] + other[m + 2..];
  }

  lemma {:induction false} RawParts(raw: seq<byte>, body: seq<byte>, tail: seq<byte>)
    requires raw == Head() + body + tail
    ensures raw[2..2 + |body|] == body && raw[2 + |body|..] == tail
    ensures |tail| >= 2 ==> raw[4 + |body|..] == tail[2..]
  {
  }

  lemma {:induction false} SameDigits(raw: seq<byte>, other: seq<byte>, i: nat, j: nat)
    requires Upper(raw) == Upper(other) && i <= j <= |raw| == |other|
    ensures Upper(Strip(other[i..j])) == Upper(Strip(raw[i..j]))
  {
    SlicedUpper(raw, other, i, j);
    hide Strip, Upper;
    StripUpper(raw[i..j]);
    StripUpper(other[i..j]);
  }

  lemma {:induction false} SameEnd(raw: seq<byte>, other: seq<byte>, i: nat)
    requires Upper(raw) == Upper(other) && i <= |raw| == |other|
    ensures Upper(TrimRight(other[i..])) == Upper(TrimRight(raw[i..]))
  {
    SlicedUpper(raw, other, i, |raw|);
    hide TrimRight, Upper;
    assert raw[i..|raw|] == raw[i..] && other[i..|raw|] == other[i..];
    TrimUpper(raw[i..]);
    TrimUpper(other[i..]);
  }

  /** Two lines that differ only in the case of hex letters are read as the same tag. */
  lemma {:induction false} CaseBlind(raw: seq<byte>, other: seq<byte>)
    requires Parse(raw).TagLine? && Upper(raw) == Upper(other)
    ensures Parse(other) == Parse(raw)
  {
    hide Parse, Strip, Upper, TrimRight, Hex16, NormalTag;
    var body, suffix := TagSpelled(raw);
    var t := Parse(raw).tag;
    var m, tail := 2 + |body|, if t.hasRssi then Mark() + suffix else [];
    OtherParts(raw, other, body, tail);
    RawParts(raw, body, tail);
    assert t.hasRssi ==> tail[2..] == suffix;
    hide Head, Mark;
    var obody, osuffix := other[2..m], if t.hasRssi then other[m + 2..] else [];
    SameDigits(raw, other, 2, m);
    if t.hasRssi {
      SameEnd(raw, other, m + 2);
    }
    SpellingParsed(other, t, obody, osuffix);
  }

  lemma {:induction false} NotDigits()
    ensures !IsHexDigit(GT) && !IsHexDigit(LETTER_T) && !IsHexDigit(SEMICOLON) && !IsHexDigit(LETTER_R)
  {
  }

  lemma {:induction false} SlicedUpper(a: seq<byte>, b: seq<byte>, i: nat, j: nat)
    requires Upper(a) == Upper(b) && i <= j <= |a| == |b|
    ensures Upper(a[i..j]) == Upper(b[i..j])
  {
    assert Upper(a)[i..j] == Upper(a[i..j]) && Upper(b)[i..j] == Upper(b[i..j]);
  }

  /** Characters that are not letters a to f are the same in both lines. */
  lemma {:induction false} SameMarks(raw: seq<byte>, other: seq<byte>)
    requires Upper(raw) == Upper(other)
    ensures |raw| == |other|
    ensures forall i :: 0 <= i < |raw| && !IsHexDigit(raw[i]) ==> other[i] == raw[i]
  {
    forall i | 0 <= i < |raw| && !IsHexDigit(raw[i]) ensures other[i] == raw[i] {
      assert Upper(raw)[i] == Upper(other)[i];
    }
  }

  // ---- Trimming ----

  /** Everything outside b[i..j] is white space, and its ends are not. */
  predicate CutAt(b: seq<byte>, i: nat, j: nat) {
    && i <= j <= |b|
    && (forall k :: 0 <= k < i ==> IsSpace(b[k]))
    && (forall k :: j <= k < |b| ==> IsSpace(b[k]))
    && (i < j ==> !IsSpace(b[i]) && !IsSpace(b[j - 1]))
  }

  lemma {:induction false} CutFront(c: byte, b: seq<byte>, i: nat, j: nat)
    requires IsSpace(c) && CutAt(b, i, j)
    ensures CutAt([c] + b, i + 1, j + 1) && ([c] + b)[i + 1..j + 1] == b[i..j]
  {
  }

  lemma {:induction false} CutBack(b: seq<byte>, c: byte, i: nat, j: nat)
    requires IsSpace(c) && CutAt(b, i, j)
    ensures CutAt(b + [c], i, j) && (b + [c])[i..j] == b[i..j]
  {
  }

  /** TrimSpace cuts off white space at both ends, all of it, and nothing else. */
  lemma {:induction false} TrimSpaceCuts(b: seq<byte>) returns (i: nat, j: nat)
    ensures CutAt(b, i, j) && TrimSpace(b) == b[i..j]
    decreases |b|
  {
    i, j := 0, |b|;
    assert b[0..|b|] == b;
    if b != [] && IsSpace(b[0]) {
      assert b == [b[0]] + b[1..];
      hide CutAt, IsSpace;
      var x, y := TrimSpaceCuts(b[1..]);
      CutFront(b[0], b[1..], x, y);
      i, j := x + 1, y + 1;
    } else if b != [] && IsSpace(b[|b| - 1]) {
      assert b == b[..|b| - 1] + [b[|b| - 1]];
      hide CutAt, IsSpace;
      i, j := TrimSpaceCuts(b[..|b| - 1]);
      CutBack(b[..|b| - 1], b[|b| - 1], i, j);
    }
  }

  // ---- Every line ----

  /** Which lines are what, by their first bytes, and the text a code or a setting carries. */
  lemma {:induction false} LineKinds(raw: seq<byte>) returns (i: nat, j: nat)
    ensures var line := Parse(raw);
            && (line.NotAReply? <==> |raw| < 2 || raw[0] != 62)
            && (line.TagLine? || line.BadTag? <==> |raw| >= 2 && raw[0] == 62 && raw[1] == 84)
            && (line.Ack? || line.EmptyAck? <==> |raw| >= 2 && raw[0] == 62 && raw[1] == 65)
            && (line.Code? <==> |raw| >= 2 && raw[0] == 62 && raw[1] == 67)
            && (line.Setting? <==> |raw| >= 4 && raw[0] == 62 && raw[1] != 84 && raw[1] != 65 && raw[1] != 67 && raw[2] == 32)
            && (line.EmptyAck? ==> forall k :: 2 <= k < |raw| ==> IsSpace(raw[k]))
            && (line.Code? ==> CutAt(raw[2..], i, j) && line.text == raw[2..][i..j])
            && (line.Setting? ==> line.kind == raw[1] && CutAt(raw[3..], i, j) && line.value == raw[3..][i..j])
  {
    hide ParseBody, IndexRssi, TrimRight, Value, IsHex;
    i, j := 0, 0;
    if |raw| >= 2 && raw[0] == 62 && (raw[1] == 67 || raw[1] == 65) {
      i, j := TrimSpaceCuts(raw[2..]);
      hide TrimSpace;
      assert raw[1] == 65 && raw[2..][i..j] == [] ==> forall k :: 2 <= k < |raw| ==> raw[k] == raw[2..][k - 2];
    } else if |raw| >= 4 && raw[0] == 62 && raw[1] != 84 {
      i, j := TrimSpaceCuts(raw[3..]);
      hide TrimSpace;
    }
    if |raw| >= 2 && raw[0] == 62 && raw[1] == 84 {
      TagKinds(raw);
    }
  }

  lemma {:induction false} TagKinds(raw: seq<byte>)
    requires |raw| >= 2 && raw[0] == 62 && raw[1] == 84
    ensures Parse(raw).TagLine? || Parse(raw).BadTag?
  {
  }

  /** The first ";R" (59, 82) is at i, or there is none and i is -1. */
  predicate FirstMark(payload: seq<byte>, i: int) {
    && (i != -1 ==> 0 <= i && i + 1 < |payload| && payload[i] == 59 && payload[i + 1] == 82)
    && forall k: nat :: k + 1 < |payload| && (i == -1 || k < i) && payload[k] == 59 ==> payload[k + 1] != 82
  }

  lemma {:induction false} MarkIsFirst(payload: seq<byte>, i: int)
    requires FirstMark(payload, i)
    ensures IndexRssi(payload, 0) == i
  {
  }

  lemma {:induction false} ParsedAsTag(payload: seq<byte>)
    ensures Parse([62, 84] + payload) == ParseTag(payload)
  {
    hide ParseTag;
    var raw := [62, 84] + payload;
    assert raw[2..] == payload;
  }

  /** Why the PC and EPC part is refused. */
  lemma {:induction false} BodyReasons(body: seq<byte>, rssi: int, hasRssi: bool)
    ensures var line, digits := ParseBody(body, rssi, hasRssi), Strip(body);
            && (line == BadTag(TooShort) <==> |digits| < 6)
            && (line == BadTag(BadPc) <==> |digits| >= 6 && !IsHex(digits[..4]))
            && (line == BadTag(BadEpc) <==>
                  |digits| >= 6 && IsHex(digits[..4]) && (|digits| % 2 != 0 || !IsHex(digits[4..])))
            && line != BadTag(BadRssi)
  {
    hide Strip, IsHex, Upper;
  }

  /** Why a tag line is refused: the digits behind its first ";R", its length, its PC or its EPC. */
  lemma {:induction false} BadTagReasons(payload: seq<byte>, i: int)
    requires FirstMark(payload, i)
    ensures var line, digits := Parse([62, 84] + payload), Strip(if i == -1 then payload else payload[..i]);
            var rssi := if i == -1 then [] else TrimRight(payload[i + 2..]);
            && (line == BadTag(BadRssi) <==> i != -1 && !(|rssi| == 4 && IsHex(rssi)))
            && (line == BadTag(TooShort) <==> line != BadTag(BadRssi) && |digits| < 6)
            && (line == BadTag(BadPc) <==> line != BadTag(BadRssi) && |digits| >= 6 && !IsHex(digits[..4]))
            && (line == BadTag(BadEpc) <==>
                  line != BadTag(BadRssi) && |digits| >= 6 && IsHex(digits[..4]) &&
                  (|digits| % 2 != 0 || !IsHex(digits[4..])))
  {
    MarkIsFirst(payload, i);
    ParsedAsTag(payload);
    hide FirstMark, IndexRssi, Strip, TrimRight, IsHex, Value, Upper, Parse, ParseBody;
    if i == -1 {
      BodyReasons(payload, 0, false);
    } else {
      var four := TrimRight(payload[i + 2..]);
      if |four| == 4 && IsHex(four) {
        BodyReasons(payload[..i], Signed16(Value(four)), true);
      }
    }
  }

  // ---- Commands and the replies they wait for (internal/reader/protocol/commands.go) ----

  predicate MatchSetting(line: Line, kind: byte) {
    line.Setting? && line.kind == kind
  }

  predicate MatchAck(line: Line, command: byte) {
    line.Ack? && line.command == command
  }
}
