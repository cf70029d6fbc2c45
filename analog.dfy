/**
 * Decoders for the analog conversion results: the cell voltage group
 * CV[0..18), which packs twelve 12-bit channels two per three bytes, and
 * the internal temperature, thermal shutdown and revision fields at the
 * end of the temperature group TMP[0..5).
 *
 * Each decoder has a packing partner (the layout the chip writes) and
 * both round trips are proved, so the nibble interleaving neither loses
 * nor overlaps any bit.
 */
module Analog {
  import opened Registers

  /** A 12-bit conversion result. */
  predicate IsChannel(c: word)
  {
    c < 0x1000
  }

  // ---------------------------------------------------------------------
  // Cell voltages

  /** First channel of a byte triple: all of b0 and the low nibble of b1. */
  function LowChannel(b0: byte, b1: byte): (c: word)
    ensures IsChannel(c)
    ensures c & 0xFF == b0 as word && c >> 8 == (b1 % 16) as word
  {
    (b0 as word) | (((b1 & 0x0F) as word) << 8)
  }

  /** Second channel of a byte triple: the high nibble of b1 and all of b2. */
  function HighChannel(b1: byte, b2: byte): (c: word)
    ensures IsChannel(c)
    ensures c & 0xF == (b1 / 16) as word && c >> 4 == b2 as word
  {
    (((b1 & 0xF0) >> 4) as word) | ((b2 as word) << 4)
  }

  /** Decode consecutive byte triples into two channels each. */
  function DecodeCells(cv: seq<byte>): (ch: seq<word>)
    requires |cv| % 3 == 0
    ensures |ch| == |cv| / 3 * 2
    ensures forall i :: 0 <= i < |ch| ==> IsChannel(ch[i])
    decreases |cv|
  {
    if cv == [] then []
    else [LowChannel(cv[0], cv[1]), HighChannel(cv[1], cv[2])] + DecodeCells(cv[3..])
  }

  /** The twelve cell channels of a full cell voltage group. */
  function CellVoltages(cv: seq<byte>): (ch: seq<word>)
    requires |cv| == CELL_REGISTERS
    ensures |ch| == MAX_CELLS
    ensures forall i :: 0 <= i < |ch| ==> IsChannel(ch[i])
  {
    DecodeCells(cv)
  }

  /** The layout the chip writes: channels a, b become three bytes. */
  function PackPair(a: word, b: word): (bs: seq<byte>)
    requires IsChannel(a) && IsChannel(b)
    ensures |bs| == 3
  {
    [ (a & 0xFF) as byte,
      ((a >> 8) as byte) | (((b & 0x0F) as byte) << 4),
      (b >> 4) as byte ]
  }

  function EncodeCells(ch: seq<word>): (cv: seq<byte>)
    requires |ch| % 2 == 0
    requires forall i :: 0 <= i < |ch| ==> IsChannel(ch[i])
    ensures |cv| == |ch| / 2 * 3
    decreases |ch|
  {
    if ch == [] then []
    else PackPair(ch[0], ch[1]) + EncodeCells(ch[2..])
  }

  /** Channel 2k comes from bytes 3k and 3k+1, channel 2k+1 from bytes 3k+1 and 3k+2. */
  lemma {:induction false} DecodeCellsAt(cv: seq<byte>, k: nat)
    requires |cv| % 3 == 0 && 3 * k < |cv|
    ensures |DecodeCells(cv)| == |cv| / 3 * 2
    ensures DecodeCells(cv)[2 * k] == LowChannel(cv[3 * k], cv[3 * k + 1])
    ensures DecodeCells(cv)[2 * k + 1] == HighChannel(cv[3 * k + 1], cv[3 * k + 2])
    decreases k
  {
    if k > 0 {
      DecodeCellsAt(cv[3..], k - 1);
      assert cv[3..][3 * (k - 1)] == cv[3 * k];
    }
  }

  lemma PairRoundTrip(a: word, b: word)
    requires IsChannel(a) && IsChannel(b)
    ensures var bs := PackPair(a, b);
      LowChannel(bs[0], bs[1]) == a && HighChannel(bs[1], bs[2]) == b
  {
  }

  lemma TripleRoundTrip(b0: byte, b1: byte, b2: byte)
    ensures PackPair(LowChannel(b0, b1), HighChannel(b1, b2)) == [b0, b1, b2]
  {
    var bs := PackPair(LowChannel(b0, b1), HighChannel(b1, b2));
    assert bs[0] == b0 && bs[1] == b1 && bs[2] == b2;
  }

  /** Decoding what the chip packs gives back every channel. */
  lemma {:induction false} DecodeEncode(ch: seq<word>)
    requires |ch| % 2 == 0
    requires forall i :: 0 <= i < |ch| ==> IsChannel(ch[i])
    ensures DecodeCells(EncodeCells(ch)) == ch
    decreases |ch|
  {
    if ch != [] {
      var cv := EncodeCells(ch);
      PairRoundTrip(ch[0], ch[1]);
      assert cv[..3] == PackPair(ch[0], ch[1]);
      assert cv[3..] == EncodeCells(ch[2..]);
      DecodeEncode(ch[2..]);
      assert ch == [ch[0], ch[1]] + ch[2..];
    }
  }

  /** Packing the decoded channels gives back every byte: no bit of the group is lost. */
  lemma {:induction false} EncodeDecode(cv: seq<byte>)
    requires |cv| % 3 == 0
    ensures EncodeCells(DecodeCells(cv)) == cv
    decreases |cv|
  {
    if cv != [] {
      var ch := DecodeCells(cv);
      assert ch[2..] == DecodeCells(cv[3..]);
      EncodeDecode(cv[3..]);
      TripleRoundTrip(cv[0], cv[1], cv[2]);
      assert cv == [cv[0], cv[1], cv[2]] + cv[3..];
    }
  }

  /**
   * The self-test conversions fill every cell register with 0x55 or 0xAA;
   * every channel then reads 0x555 or 0xAAA.
   */
  lemma {:induction false} SelfTestPattern(cv: seq<byte>, b: byte)
    requires |cv| % 3 == 0
    requires b == 0x55 || b == 0xAA
    requires forall i :: 0 <= i < |cv| ==> cv[i] == b
    ensures forall k :: 0 <= k < |DecodeCells(cv)| ==>
      DecodeCells(cv)[k] == if b == 0x55 then 0x555 else 0xAAA
    decreases |cv|
  {
    if cv != [] {
      SelfTestPattern(cv[3..], b);
    }
  }

  /** A cell channel in volts: 1.5 mV per count. */
  function CellVolts(c: word): (v: real)
    requires IsChannel(c)
    ensures 0.0 <= v <= 6.1425
    ensures v * 2000.0 == (c as int as real) * 3.0
  {
    (c as int as real) * 1.5 / 1000.0
  }

  // ---------------------------------------------------------------------
  // Temperature group: TMP[3] and the low nibble of TMP[4] hold the
  // internal temperature, bit 4 of TMP[4] the thermal shutdown flag and
  // bits 5-7 the chip revision.

  function InternalTemperature(tmp: seq<byte>): (itmp: word)
    requires |tmp| == TMP_REGISTERS
    ensures IsChannel(itmp)
    ensures itmp & 0xFF == tmp[3] as word && itmp >> 8 == (tmp[4] % 16) as word
  {
    (tmp[3] as word) | (((tmp[4] & 0x0F) as word) << 8)
  }

  function ThermalShutdown(tmp: seq<byte>): (thsd: bool)
    requires |tmp| == TMP_REGISTERS
    ensures thsd <==> tmp[4] & 0x10 != 0
  {
    (tmp[4] >> 4) & 0x01 == 1
  }

  function Revision(tmp: seq<byte>): (rev: byte)
    requires |tmp| == TMP_REGISTERS
    ensures rev <= 7
  {
    tmp[4] >> 5
  }

  /** The layout the chip writes for TMP[3] and TMP[4]. */
  function PackStatus(itmp: word, thsd: bool, rev: byte): (bs: seq<byte>)
    requires IsChannel(itmp) && rev <= 7
    ensures |bs| == 2
  {
    [ (itmp & 0xFF) as byte,
      ((itmp >> 8) as byte) | (BoolBit(thsd) << 4) | (rev << 5) ]
  }

  /** The three decoded fields account for every bit of TMP[3] and TMP[4]. */
  lemma StatusRoundTrip(tmp: seq<byte>)
    requires |tmp| == TMP_REGISTERS
    ensures PackStatus(InternalTemperature(tmp), ThermalShutdown(tmp), Revision(tmp)) == tmp[3..5]
  {
    var bs := PackStatus(InternalTemperature(tmp), ThermalShutdown(tmp), Revision(tmp));
    assert bs[0] == tmp[3] && bs[1] == tmp[4];
  }

  /** Every field value the chip can report is decoded unchanged. */
  lemma StatusDecodePack(tmp: seq<byte>, itmp: word, thsd: bool, rev: byte)
    requires |tmp| == TMP_REGISTERS && IsChannel(itmp) && rev <= 7
    requires tmp[3..5] == PackStatus(itmp, thsd, rev)
    ensures InternalTemperature(tmp) == itmp
    ensures ThermalShutdown(tmp) == thsd
    ensures Revision(tmp) == rev
  {
    assert tmp[3] == tmp[3..5][0] && tmp[4] == tmp[3..5][1];
  }

  /**
   * Internal temperature in degrees Celsius: itmp * 1.5 / 8 - 273,
   * truncated toward zero into an int; exactly (3 * itmp - 4368) / 16
   * rounded toward zero.
   */
  function Celsius(itmp: int): (c: int)
    requires 0 <= itmp < 0x1000
    ensures -273 <= c <= 494
    ensures 3 * itmp >= 4368 ==> 16 * c <= 3 * itmp - 4368 < 16 * c + 16
    ensures 3 * itmp < 4368 ==> 16 * c - 16 < 3 * itmp - 4368 <= 16 * c
  {
    TruncDiv(3 * itmp - 4368, 16)
  }

  /** The internal temperature of a temperature group, in degrees Celsius. */
  function InternalCelsius(tmp: seq<byte>): (c: int)
    requires |tmp| == TMP_REGISTERS
    ensures -273 <= c <= 494
  {
    Celsius(InternalTemperature(tmp) as int)
  }

  /** Celsius never decreases as the raw temperature grows. */
  lemma CelsiusMonotone(t1: int, t2: int)
    requires 0 <= t1 <= t2 < 0x1000
    ensures Celsius(t1) <= Celsius(t2)
  {
  }

  /** Reference points: 0 counts is -273, 1456 counts is 0, and 1450 counts rounds up to -1, not down to -2. */
  lemma CelsiusReferencePoints()
    ensures Celsius(0) == -273 && Celsius(1456) == 0
    ensures Celsius(1450) == -1
  {
  }
}
