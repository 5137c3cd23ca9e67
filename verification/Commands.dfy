// Reader commands (internal/reader/protocol/commands.go): a closed list, each ended by CR alone.
module Commands {
  import opened Framing

  datatype Command =
    | Stop
    | Version
    | SetBuzzer(on: int)
    | SetPower(gain: int)
    | RssiOff
    | StartInventory

  /** The commands an encoder accepts. */
  predicate Allowed(c: Command) {
    match c
    case SetBuzzer(v) => v == 0 || v == 1
    case SetPower(v) => 50 <= v <= 300
    case _ => true
  }

  function Decimal(v: nat): (b: seq<byte>)
    ensures b != [] && forall i :: 0 <= i < |b| ==> 48 <= b[i] <= 57
  {
    if v < 10 then [48 + v] else Decimal(v / 10) + [48 + v % 10]
  }

  function Body(c: Command): seq<byte>
    requires Allowed(c)
  {
    match c
    case Stop => [51]
    case Version => [62, 121, 32, 118]
    case SetBuzzer(v) => [62, 120, 32, 98, 32] + Decimal(v)
    case SetPower(v) => [62, 120, 32, 112, 32] + Decimal(v)
    case RssiOff => [62, 120, 32, 105, 32, 48]
    case StartInventory => [62, 102]
  }

  function Encode(c: Command): seq<byte>
    requires Allowed(c)
  {
    Body(c) + [CR]
  }

  lemma {:induction false} DecimalInjective(v: nat, w: nat)
    requires Decimal(v) == Decimal(w)
    ensures v == w
  {
    var a, b := Decimal(v), Decimal(w);
    assert a[|a| - 1] == 48 + v % 10 && b[|b| - 1] == 48 + w % 10;
    if v >= 10 && w >= 10 {
      assert Decimal(v / 10) == a[..|a| - 1] == b[..|b| - 1] == Decimal(w / 10);
      DecimalInjective(v / 10, w / 10);
    }
  }

  /** The number a string of decimal digits stands for. */
  function Number(digits: seq<byte>): int {
    if digits == [] then 0 else 10 * Number(digits[..|digits| - 1]) + digits[|digits| - 1] - 48
  }

  /** Decimal writes the number, without leading zeros. */
  lemma {:induction false} NumberOfDecimal(v: nat)
    ensures Number(Decimal(v)) == v && (v > 0 ==> Decimal(v)[0] != 48)
    ensures (v < 10 ==> |Decimal(v)| == 1) && (10 <= v < 100 ==> |Decimal(v)| == 2) && (100 <= v < 1000 ==> |Decimal(v)| == 3)
  {
    if v >= 10 {
      NumberOfDecimal(v / 10);
      assert Decimal(v)[..|Decimal(v)| - 1] == Decimal(v / 10);
    }
  }

  /** The bytes of each command: "3", ">y v", ">x b 0" or ">x b 1", ">x p " and the gain, ">x i 0" and ">f", each
      with CR behind it. */
  lemma {:induction false} CommandBytes(v: int)
    ensures Encode(Stop) == [0x33, 0x0D]
    ensures Encode(Version) == [0x3E, 0x79, 0x20, 0x76, 0x0D]
    ensures Encode(RssiOff) == [0x3E, 0x78, 0x20, 0x69, 0x20, 0x30, 0x0D]
    ensures Encode(StartInventory) == [0x3E, 0x66, 0x0D]
    ensures Allowed(SetBuzzer(v)) <==> v == 0 || v == 1
    ensures v == 0 || v == 1 ==> Encode(SetBuzzer(v)) == [0x3E, 0x78, 0x20, 0x62, 0x20, 0x30 + v, 0x0D]
    ensures Allowed(SetPower(v)) <==> 50 <= v <= 300
    ensures 50 <= v <= 300 ==>
              var b := Encode(SetPower(v));
              && |b| == (if v < 100 then 8 else 9)
              && b[..5] == [0x3E, 0x78, 0x20, 0x70, 0x20] && b[|b| - 1] == 0x0D
              && Number(b[5..|b| - 1]) == v
  {
    if 50 <= v <= 300 {
      NumberOfDecimal(v);
      var b := Encode(SetPower(v));
      hide Decimal;
      assert b[5..|b| - 1] == Decimal(v);
    }
  }

  /** The end of line is CR alone: it ends every command and occurs nowhere else, and LF never does. */
  lemma {:induction false} EndsWithCrAlone(c: Command, i: nat)
    requires Allowed(c) && i < |Encode(c)|
    ensures Encode(c)[i] != LF && (Encode(c)[i] == CR <==> i == |Encode(c)| - 1)
  {
    if c.SetBuzzer? && 5 <= i < |Body(c)| {
      assert Body(c)[i] == Decimal(c.on)[i - 5];
    } else if c.SetPower? && 5 <= i < |Body(c)| {
      assert Body(c)[i] == Decimal(c.gain)[i - 5];
    }
  }

  /** Different commands are different on the wire. */
  lemma {:induction false} EncodeInjective(c: Command, d: Command)
    requires Allowed(c) && Allowed(d) && Encode(c) == Encode(d)
    ensures c == d
  {
    var x, y := Encode(c), Encode(d);
    assert Body(c) == x[..|x| - 1] == y[..|y| - 1] == Body(d);
    if |x| > 4 {
      assert x[1] == y[1] && x[3] == y[3];
      if c.SetBuzzer? && d.SetBuzzer? {
        assert Decimal(c.on) == Body(c)[5..] == Body(d)[5..] == Decimal(d.on);
        DecimalInjective(c.on, d.on);
      } else if c.SetPower? && d.SetPower? {
        assert Decimal(c.gain) == Body(c)[5..] == Body(d)[5..] == Decimal(d.gain);
        DecimalInjective(c.gain, d.gain);
      }
    } else {
      assert x[1] == y[1];
    }
  }
}
