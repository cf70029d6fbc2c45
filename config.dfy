/**
 * The configuration register group CFG[0..6) as a bit-field codec.
 *
 * Layout (byte : bits -> field):
 *   0 : 7    WDT, watchdog timer pin level (read only)
 *   0 : 6    GPIO2 level
 *   0 : 5    GPIO1 level
 *   0 : 4    LVLPL, level polling mode
 *   0 : 3    CELL10, ten-cell mode (no accessor)
 *   0 : 2-0  CDC, comparator duty cycle 0..7
 *   1 : 7-0  DCC bits 0-7      2 : 3-0  DCC bits 8-11
 *   2 : 7-4  MCI bits 0-3      3 : 7-0  MCI bits 4-11
 *   4        VUV, undervoltage threshold (raw)
 *   5        VOV, overvoltage threshold (raw)
 *
 * Getters are functions of the image; each setter is a function from the
 * old image to the new one and states which field it writes and that
 * every other bit is kept.
 */
module Config {
  import opened Registers

  datatype Option<T> = None | Some(value: T)

  /** A configuration image has exactly the width of the register group. */
  predicate IsImage(cfg: seq<byte>)
  {
    |cfg| == CFG_REGISTERS
  }

  // ---------------------------------------------------------------------
  // Single-bit fields of CFG[0]

  function GetWDT(cfg: seq<byte>): (b: bool)
    requires IsImage(cfg)
    ensures b <==> (cfg[0] >> CFG0_WDT_BIT) % 2 == 1
  {
    cfg[0] & CFG0_WDT_MSK != 0
  }

  function GetGPIO1(cfg: seq<byte>): (b: bool)
    requires IsImage(cfg)
    ensures b <==> (cfg[0] >> CFG0_GPIO1_BIT) % 2 == 1
  {
    cfg[0] & CFG0_GPIO1_MSK != 0
  }

  function GetGPIO2(cfg: seq<byte>): (b: bool)
    requires IsImage(cfg)
    ensures b <==> (cfg[0] >> CFG0_GPIO2_BIT) % 2 == 1
  {
    cfg[0] & CFG0_GPIO2_MSK != 0
  }

  function GetLVLPL(cfg: seq<byte>): (b: bool)
    requires IsImage(cfg)
    ensures b <==> (cfg[0] >> CFG0_LVLPL_BIT) % 2 == 1
  {
    cfg[0] & CFG0_LVLPL_MSK != 0
  }

  /** The ten-cell mode bit; the driver has no accessor for it, setters keep it. */
  function Cell10(cfg: seq<byte>): (b: bool)
    requires IsImage(cfg)
    ensures b <==> (cfg[0] >> CFG0_CELL10_BIT) % 2 == 1
  {
    cfg[0] & CFG0_CELL10_MSK != 0
  }

  /** Comparator duty cycle: one of the eight documented modes. */
  function GetCDC(cfg: seq<byte>): (cdc: byte)
    requires IsImage(cfg)
    ensures cdc <= 7
    ensures cdc == cfg[0] % 8
  {
    cfg[0] & CFG0_CDC_MSK
  }

  function SetGPIO1(cfg: seq<byte>, gpio: bool): (r: seq<byte>)
    requires IsImage(cfg)
    ensures IsImage(r) && GetGPIO1(r) == gpio
    ensures r[0] & CFG0_GPIO1_INVMSK == cfg[0] & CFG0_GPIO1_INVMSK
    ensures r[1..] == cfg[1..]
    ensures GetWDT(r) == GetWDT(cfg) && GetGPIO2(r) == GetGPIO2(cfg)
    ensures GetLVLPL(r) == GetLVLPL(cfg) && Cell10(r) == Cell10(cfg)
    ensures GetCDC(r) == GetCDC(cfg)
  {
    cfg[0 := (cfg[0] & CFG0_GPIO1_INVMSK) | (BoolBit(gpio) << CFG0_GPIO1_BIT)]
  }

  function SetGPIO2(cfg: seq<byte>, gpio: bool): (r: seq<byte>)
    requires IsImage(cfg)
    ensures IsImage(r) && GetGPIO2(r) == gpio
    ensures r[0] & CFG0_GPIO2_INVMSK == cfg[0] & CFG0_GPIO2_INVMSK
    ensures r[1..] == cfg[1..]
    ensures GetWDT(r) == GetWDT(cfg) && GetGPIO1(r) == GetGPIO1(cfg)
    ensures GetLVLPL(r) == GetLVLPL(cfg) && Cell10(r) == Cell10(cfg)
    ensures GetCDC(r) == GetCDC(cfg)
  {
    cfg[0 := (cfg[0] & CFG0_GPIO2_INVMSK) | (BoolBit(gpio) << CFG0_GPIO2_BIT)]
  }

  function SetLVLPL(cfg: seq<byte>, lvlpl: bool): (r: seq<byte>)
    requires IsImage(cfg)
    ensures IsImage(r) && GetLVLPL(r) == lvlpl
    ensures r[0] & CFG0_LVLPL_INVMSK == cfg[0] & CFG0_LVLPL_INVMSK
    ensures r[1..] == cfg[1..]
    ensures GetWDT(r) == GetWDT(cfg) && GetGPIO1(r) == GetGPIO1(cfg)
    ensures GetGPIO2(r) == GetGPIO2(cfg) && Cell10(r) == Cell10(cfg)
    ensures GetCDC(r) == GetCDC(cfg)
  {
    cfg[0 := (cfg[0] & CFG0_LVLPL_INVMSK) | (BoolBit(lvlpl) << CFG0_LVLPL_BIT)]
  }

  /** The driver ORs `cdc` in unmasked, so only 0..7 keep bits 3-7 intact. */
  function SetCDC(cfg: seq<byte>, cdc: byte): (r: seq<byte>)
    requires IsImage(cfg)
    requires cdc <= 7
    ensures IsImage(r) && GetCDC(r) == cdc
    ensures r[0] & CFG0_CDC_INVMSK == cfg[0] & CFG0_CDC_INVMSK
    ensures r[1..] == cfg[1..]
    ensures GetWDT(r) == GetWDT(cfg) && GetGPIO1(r) == GetGPIO1(cfg)
    ensures GetGPIO2(r) == GetGPIO2(cfg) && GetLVLPL(r) == GetLVLPL(cfg)
    ensures Cell10(r) == Cell10(cfg)
  {
    cfg[0 := (cfg[0] & CFG0_CDC_INVMSK) | cdc]
  }

  // ---------------------------------------------------------------------
  // The two 12-bit cell masks sharing CFG[2]

  /** Discharge cell control: one bit per cell, bits 0-11. */
  function GetDCC(cfg: seq<byte>): (dcc: word)
    requires IsImage(cfg)
    ensures dcc < 0x1000
    ensures dcc & 0xFF == cfg[1] as word && dcc >> 8 == (cfg[2] % 16) as word
  {
    ((cfg[1] & CFG1_DCC_MSK) as word) | (((cfg[2] & CFG2_DCC_MSK) as word) << 8)
  }

  /** Mask cell interrupts: one bit per cell, bits 0-11. */
  function GetMCI(cfg: seq<byte>): (mci: word)
    requires IsImage(cfg)
    ensures mci < 0x1000
    ensures mci & 0xF == (cfg[2] / 16) as word && mci >> 4 == cfg[3] as word
  {
    ((cfg[3] as word) << 4) | (((cfg[2] & CFG2_MCI_MSK) >> 4) as word)
  }

  /** Any 16-bit value is accepted; bits 12-15 are dropped. */
  function SetDCC(cfg: seq<byte>, dcc: word): (r: seq<byte>)
    requires IsImage(cfg)
    ensures IsImage(r) && GetDCC(r) == dcc & 0x0FFF
    ensures GetMCI(r) == GetMCI(cfg)
    ensures r[0] == cfg[0] && r[3..] == cfg[3..]
    ensures r[2] & CFG2_DCC_INVMSK == cfg[2] & CFG2_DCC_INVMSK
  {
    cfg[1 := (dcc & 0x00FF) as byte]
       [2 := (cfg[2] & CFG2_DCC_INVMSK) | (((dcc & 0x0F00) >> 8) as byte)]
  }

  /** Any 16-bit value is accepted; bits 12-15 are dropped. */
  function SetMCI(cfg: seq<byte>, mci: word): (r: seq<byte>)
    requires IsImage(cfg)
    ensures IsImage(r) && GetMCI(r) == mci & 0x0FFF
    ensures GetDCC(r) == GetDCC(cfg)
    ensures r[..2] == cfg[..2] && r[4..] == cfg[4..]
    ensures r[2] & CFG2_MCI_INVMSK == cfg[2] & CFG2_MCI_INVMSK
  {
    cfg[2 := (cfg[2] & CFG2_MCI_INVMSK) | (((mci & 0x0F) << 4) as byte)]
       [3 := ((mci & 0x0FF0) >> 4) as byte]
  }

  // ---------------------------------------------------------------------
  // Voltage thresholds: raw = v * 1.5 / 16 and v = raw * 16 / 1.5,
  // both truncated; exactly raw = v * 3 / 32 and v = raw * 32 / 3, which
  // is computed here in 16 bits, where no intermediate value overflows.

  /** The raw register value a threshold setter stores for `v`. */
  function RawOfThreshold(v: byte): (raw: byte)
    ensures (raw as word) * 32 <= (v as word) * 3 < (raw as word + 1) * 32
    ensures raw <= 23
  {
    ((v as word) * 3 / 32) as byte
  }

  /** The threshold a raw register value stands for, truncated. */
  function ThresholdOfRaw(raw: byte): (v: word)
    ensures v * 3 <= (raw as word) * 32 < (v + 1) * 3
    ensures v <= 2720
  {
    (raw as word) * 32 / 3
  }

  /**
   * The getter as the driver declares it: the quotient converted to a
   * byte. The conversion is undefined once the quotient exceeds 255,
   * shown here as None.
   */
  function ThresholdAsByte(raw: byte): (v: Option<byte>)
    ensures v.Some? ==> v.value as word == ThresholdOfRaw(raw)
  {
    var t := (raw as word) * 32 / 3;
    if t < 256 then Some(t as byte) else None
  }

  function GetVUV(cfg: seq<byte>): (v: word)
    requires IsImage(cfg)
    ensures v * 3 <= (cfg[4] as word) * 32 < (v + 1) * 3
    ensures v <= 2720
  {
    ThresholdOfRaw(cfg[4])
  }

  function GetVOV(cfg: seq<byte>): (v: word)
    requires IsImage(cfg)
    ensures v * 3 <= (cfg[5] as word) * 32 < (v + 1) * 3
    ensures v <= 2720
  {
    ThresholdOfRaw(cfg[5])
  }

  function SetVUV(cfg: seq<byte>, vuv: byte): (r: seq<byte>)
    requires IsImage(cfg)
    ensures IsImage(r) && r[4] == RawOfThreshold(vuv) && r[4] <= 23
    ensures GetVUV(r) <= vuv as word <= GetVUV(r) + 11
    ensures r[..4] == cfg[..4] && r[5] == cfg[5]
  {
    ThresholdRoundTrip(vuv);
    cfg[4 := RawOfThreshold(vuv)]
  }

  function SetVOV(cfg: seq<byte>, vov: byte): (r: seq<byte>)
    requires IsImage(cfg)
    ensures IsImage(r) && r[5] == RawOfThreshold(vov) && r[5] <= 23
    ensures GetVOV(r) <= vov as word <= GetVOV(r) + 11
    ensures r[..5] == cfg[..5]
  {
    ThresholdRoundTrip(vov);
    cfg[5 := RawOfThreshold(vov)]
  }

  // ---------------------------------------------------------------------
  // Lemmas

  /** Setting a threshold and reading it back loses at most 11 units, never gains. */
  lemma ThresholdRoundTrip(v: byte)
    ensures ThresholdOfRaw(RawOfThreshold(v)) <= v as word
    ensures v as word <= ThresholdOfRaw(RawOfThreshold(v)) + 11
  {
  }

  /** The getter's two bounds pin the threshold down: no other word meets them. */
  lemma ThresholdDetermined(raw: byte, v: word)
    requires v * 3 <= (raw as word) * 32 < (v + 1) * 3 && v <= 2720
    ensures v == ThresholdOfRaw(raw)
  {
  }

  /** The setter's two bounds pin the stored raw value down. */
  lemma RawDetermined(v: byte, raw: byte)
    requires (raw as word) * 32 <= (v as word) * 3 < (raw as word + 1) * 32 && raw <= 23
    ensures raw == RawOfThreshold(v)
  {
  }

  /** The threshold getter never decreases as the raw value grows. */
  lemma ThresholdMonotone(r1: byte, r2: byte)
    requires r1 <= r2
    ensures ThresholdOfRaw(r1) <= ThresholdOfRaw(r2)
  {
  }

  /** The raw value the setter stores never decreases as the threshold grows. */
  lemma RawOfThresholdMonotone(v1: byte, v2: byte)
    requires v1 <= v2
    ensures RawOfThreshold(v1) <= RawOfThreshold(v2)
  {
  }

  /** The byte-typed getter is defined exactly for raw values 0..23; 24 already overflows. */
  lemma ThresholdByteOverflow(raw: byte)
    ensures ThresholdAsByte(raw).Some? <==> raw <= 23
    ensures ThresholdOfRaw(24) == 256
  {
  }

  /** DCC round-trips every 12-bit value, and writing back what was read changes nothing. */
  lemma DCCRoundTrip(cfg: seq<byte>, dcc: word)
    requires IsImage(cfg)
    ensures dcc < 0x1000 ==> GetDCC(SetDCC(cfg, dcc)) == dcc
    ensures SetDCC(cfg, GetDCC(cfg)) == cfg
  {
    var r := SetDCC(cfg, GetDCC(cfg));
    assert r[1] == cfg[1] && r[2] == cfg[2];
  }

  /** MCI round-trips every 12-bit value, and writing back what was read changes nothing. */
  lemma MCIRoundTrip(cfg: seq<byte>, mci: word)
    requires IsImage(cfg)
    ensures mci < 0x1000 ==> GetMCI(SetMCI(cfg, mci)) == mci
    ensures SetMCI(cfg, GetMCI(cfg)) == cfg
  {
    var r := SetMCI(cfg, GetMCI(cfg));
    assert r[2] == cfg[2] && r[3] == cfg[3];
  }

  /** The two masks sharing CFG[2] can be written in either order. */
  lemma DCCAndMCICommute(cfg: seq<byte>, dcc: word, mci: word)
    requires IsImage(cfg)
    ensures SetMCI(SetDCC(cfg, dcc), mci) == SetDCC(SetMCI(cfg, mci), dcc)
  {
    var a, b := SetMCI(SetDCC(cfg, dcc), mci), SetDCC(SetMCI(cfg, mci), dcc);
    assert a[2] == b[2];
  }

  /** Writing back what was read leaves the image as it was, for every field of CFG[0]. */
  lemma Cfg0WriteBack(cfg: seq<byte>)
    requires IsImage(cfg)
    ensures SetGPIO1(cfg, GetGPIO1(cfg)) == cfg
    ensures SetGPIO2(cfg, GetGPIO2(cfg)) == cfg
    ensures SetLVLPL(cfg, GetLVLPL(cfg)) == cfg
    ensures SetCDC(cfg, GetCDC(cfg)) == cfg
  {
    assert SetGPIO1(cfg, GetGPIO1(cfg))[0] == cfg[0];
    assert SetGPIO2(cfg, GetGPIO2(cfg))[0] == cfg[0];
    assert SetLVLPL(cfg, GetLVLPL(cfg))[0] == cfg[0];
    assert SetCDC(cfg, GetCDC(cfg))[0] == cfg[0];
  }
}
