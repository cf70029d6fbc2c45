/**
 * One LTC6802-2 chip on the bus: its address, its chip select pin and the
 * driver's copies of the four register groups. The register groups are
 * fixed-size arrays owned by the object; the setters edit the configuration
 * image in place, the read operations overwrite a whole group with the
 * bytes clocked in from the bus.
 */
module Chip {
  import opened Registers
  import Config
  import opened Transport

  predicate AllZero(s: seq<byte>)
  {
    forall i :: 0 <= i < |s| ==> s[i] == 0
  }

  /** Clear every byte of a register group. */
  method ZeroFill(a: array<byte>)
    modifies a
    ensures AllZero(a[..])
  {
    for i := 0 to a.Length
      invariant AllZero(a[..i])
    {
      a[i] := 0;
    }
  }

  class LTC6802 {
    /** Chip address on the bus; fixed at construction. */
    const address: byte
    /** Chip select pin; fixed at construction. */
    const csPin: byte
    /** Configuration register group, as last read or as edited since. */
    const CFG: array<byte>
    /** Temperature register group. */
    const TMP: array<byte>
    /** Cell voltage register group. */
    const CV: array<byte>
    /** Flag register group. */
    const FLG: array<byte>

    /** Each register group has the width of the chip's register group. */
    ghost predicate Valid()
      reads this
    {
      && CFG.Length == CFG_REGISTERS
      && TMP.Length == TMP_REGISTERS
      && CV.Length == CELL_REGISTERS
      && FLG.Length == FLG_REGISTERS
    }

    constructor (address: byte, csPin: byte)
      ensures Valid()
      ensures this.address == address && this.csPin == csPin
      ensures fresh(CFG) && fresh(TMP) && fresh(CV) && fresh(FLG)
      ensures AllZero(CFG[..]) && AllZero(TMP[..]) && AllZero(CV[..]) && AllZero(FLG[..])
    {
      this.address := address;
      this.csPin := csPin;
      CFG := new byte[CFG_REGISTERS];
      TMP := new byte[TMP_REGISTERS];
      CV := new byte[CELL_REGISTERS];
      FLG := new byte[FLG_REGISTERS];
      new;
      ZeroFill(CFG);
      ZeroFill(TMP);
      ZeroFill(CV);
      ZeroFill(FLG);
    }

    // -------------------------------------------------------------------
    // Transport

    /** Send a conversion command, addressed or as a broadcast to every chip. */
    method Measure(bus: Bus, cmd: byte, broadcast: bool)
      modifies bus
      ensures bus.sent == old(bus.sent) + MeasureFrame(address, cmd, broadcast)
    {
      if !broadcast {
        var _ := bus.Transfer(address);
      }
      var _ := bus.Transfer(cmd);
    }

    /**
     * Read n registers into arr[0..n): addressed, then the command, then
     * n + 1 exchanges of which the last (the packet error code) is dropped.
     */
    method Read(bus: Bus, cmd: byte, n: nat, arr: array<byte>)
      requires n <= arr.Length
      modifies bus, arr
      ensures bus.sent == old(bus.sent) + ReadFrame(address, cmd, n)
      ensures arr[..n] == ReadData(bus.script, |old(bus.sent)|, n)
      ensures arr[n..] == old(arr[n..])
    {
      ghost var start := |bus.sent|;
      var _ := bus.Transfer(address);
      var _ := bus.Transfer(cmd);
      var i := 0;
      while i < n
        invariant 0 <= i <= n
        invariant bus.sent == old(bus.sent) + [address, cmd] + Repeat(cmd, i)
        invariant arr[..i] == ReadData(bus.script, start, i)
        invariant forall j :: i <= j < arr.Length ==> arr[j] == old(arr[j])
      {
        arr[i] := bus.Transfer(cmd);
        assert arr[..i + 1] == arr[..i] + [arr[i]];
        i := i + 1;
      }
      var _ := bus.Transfer(cmd);
      assert Repeat(cmd, n) + [cmd] == Repeat(cmd, n + 1);
    }

    /**
     * Repeat `Read` until the first byte of arr is no longer 0xFF, at most
     * maxReads times; returns how many polls were made.
     */
    method ReadValues(bus: Bus, cmd: byte, n: nat, arr: array<byte>, maxReads: nat) returns (polls: nat)
      requires 0 < arr.Length && n <= arr.Length && 0 < maxReads
      modifies bus, arr
      ensures 1 <= polls <= maxReads
      ensures bus.sent == old(bus.sent) + Frames(ReadFrame(address, cmd, n), polls)
      ensures arr[..n] == ReadData(bus.script, |old(bus.sent)| + (polls - 1) * (n + 3), n)
      ensures arr[n..] == old(arr[n..])
      ensures arr[0] == PolledByte(bus.script, |old(bus.sent)|, n, old(arr[0]), polls - 1)
      ensures forall k :: 0 <= k < polls - 1 ==>
        PolledByte(bus.script, |old(bus.sent)|, n, old(arr[0]), k) == CONVERSION_PENDING
      ensures arr[0] == CONVERSION_PENDING ==> polls == maxReads
    {
      ghost var start := |bus.sent|;
      ghost var stale := arr[0];
      ghost var frame := ReadFrame(address, cmd, n);
      Read(bus, cmd, n, arr);
      polls := 1;
      while arr[0] == CONVERSION_PENDING && polls < maxReads
        invariant 1 <= polls <= maxReads
        invariant bus.sent == old(bus.sent) + Frames(frame, polls)
        invariant |bus.sent| == start + polls * (n + 3)
        invariant arr[..n] == ReadData(bus.script, start + (polls - 1) * (n + 3), n)
        invariant arr[n..] == old(arr[n..])
        invariant arr[0] == PolledByte(bus.script, start, n, stale, polls - 1)
        invariant forall k :: 0 <= k < polls - 1 ==>
          PolledByte(bus.script, start, n, stale, k) == CONVERSION_PENDING
        decreases maxReads - polls
      {
        ghost var before := |bus.sent|;
        Read(bus, cmd, n, arr);
        polls := polls + 1;
        assert before == start + (polls - 1) * (n + 3);
        assert polls * (n + 3) == (polls - 1) * (n + 3) + (n + 3);
      }
    }

    // -------------------------------------------------------------------
    // Register groups

    /** Replace the configuration image with the chip's configuration registers. */
    method CfgRead(bus: Bus)
      requires Valid()
      modifies bus, CFG
      ensures bus.sent == old(bus.sent) + ReadFrame(address, RDCFG, CFG_REGISTERS)
      ensures CFG[..] == ReadData(bus.script, |old(bus.sent)|, CFG_REGISTERS)
    {
      Read(bus, RDCFG, CFG_REGISTERS, CFG);
    }

    /** Send the whole configuration image; the image itself is left as it is. */
    method CfgWrite(bus: Bus, broadcast: bool)
      requires Valid()
      modifies bus
      ensures bus.sent == old(bus.sent) + WriteConfigFrame(address, broadcast, CFG[..])
    {
      if !broadcast {
        var _ := bus.Transfer(address);
      }
      var _ := bus.Transfer(WRCFG);
      for i := 0 to CFG_REGISTERS
        invariant bus.sent == old(bus.sent) + AddressPrefix(address, broadcast) + [WRCFG] + CFG[..i]
      {
        var _ := bus.Transfer(CFG[i]);
        assert CFG[..i + 1] == CFG[..i] + [CFG[i]];
      }
    }

    /** Replace the flag group with the chip's flag registers. */
    method FlagsRead(bus: Bus)
      requires Valid()
      modifies bus, FLG
      ensures bus.sent == old(bus.sent) + ReadFrame(address, RDFLG, FLG_REGISTERS)
      ensures FLG[..] == ReadData(bus.script, |old(bus.sent)|, FLG_REGISTERS)
    {
      Read(bus, RDFLG, FLG_REGISTERS, FLG);
    }

    /** Start a conversion of all temperature inputs on this chip. */
    method TemperatureMeasure(bus: Bus)
      modifies bus
      ensures bus.sent == old(bus.sent) + [address, STTMPAD]
    {
      Measure(bus, STTMPAD, false);
    }

    /** Poll the temperature group until the conversion is done, at most maxReads reads. */
    method TemperatureRead(bus: Bus, maxReads: nat) returns (polls: nat)
      requires Valid() && 0 < maxReads
      modifies bus, TMP
      ensures 1 <= polls <= maxReads
      ensures bus.sent == old(bus.sent) + Frames(ReadFrame(address, RDTMP, TMP_REGISTERS), polls)
      ensures TMP[..] == ReadData(bus.script, |old(bus.sent)| + (polls - 1) * (TMP_REGISTERS + 3), TMP_REGISTERS)
      ensures forall k :: 0 <= k < polls - 1 ==>
        PolledByte(bus.script, |old(bus.sent)|, TMP_REGISTERS, old(TMP[0]), k) == CONVERSION_PENDING
      ensures TMP[0] == CONVERSION_PENDING ==> polls == maxReads
    {
      polls := ReadValues(bus, RDTMP, TMP_REGISTERS, TMP, maxReads);
    }

    /** Start a conversion of all cell voltage inputs on this chip. */
    method CellsMeasure(bus: Bus)
      modifies bus
      ensures bus.sent == old(bus.sent) + [address, STCVAD]
    {
      Measure(bus, STCVAD, false);
    }

    /** Poll the cell voltage group until the conversion is done, at most maxReads reads. */
    method CellsRead(bus: Bus, maxReads: nat) returns (polls: nat)
      requires Valid() && 0 < maxReads
      modifies bus, CV
      ensures 1 <= polls <= maxReads
      ensures bus.sent == old(bus.sent) + Frames(ReadFrame(address, RDCV, CELL_REGISTERS), polls)
      ensures CV[..] == ReadData(bus.script, |old(bus.sent)| + (polls - 1) * (CELL_REGISTERS + 3), CELL_REGISTERS)
      ensures forall k :: 0 <= k < polls - 1 ==>
        PolledByte(bus.script, |old(bus.sent)|, CELL_REGISTERS, old(CV[0]), k) == CONVERSION_PENDING
      ensures CV[0] == CONVERSION_PENDING ==> polls == maxReads
    {
      polls := ReadValues(bus, RDCV, CELL_REGISTERS, CV, maxReads);
    }

    // -------------------------------------------------------------------
    // Configuration setters: masked read-modify-write of the image

    method CfgSetGPIO1(gpio: bool)
      requires Valid()
      modifies CFG
      ensures CFG[..] == Config.SetGPIO1(old(CFG[..]), gpio)
    {
      CFG[0] := (CFG[0] & CFG0_GPIO1_INVMSK) | (BoolBit(gpio) << CFG0_GPIO1_BIT);
    }

    method CfgSetGPIO2(gpio: bool)
      requires Valid()
      modifies CFG
      ensures CFG[..] == Config.SetGPIO2(old(CFG[..]), gpio)
    {
      CFG[0] := (CFG[0] & CFG0_GPIO2_INVMSK) | (BoolBit(gpio) << CFG0_GPIO2_BIT);
    }

    method CfgSetLVLPL(lvlpl: bool)
      requires Valid()
      modifies CFG
      ensures CFG[..] == Config.SetLVLPL(old(CFG[..]), lvlpl)
    {
      CFG[0] := (CFG[0] & CFG0_LVLPL_INVMSK) | (BoolBit(lvlpl) << CFG0_LVLPL_BIT);
    }

    method CfgSetCDC(cdc: byte)
      requires Valid() && cdc <= 7
      modifies CFG
      ensures CFG[..] == Config.SetCDC(old(CFG[..]), cdc)
    {
      CFG[0] := (CFG[0] & CFG0_CDC_INVMSK) | cdc;
    }

    method CfgSetDCC(dcc: word)
      requires Valid()
      modifies CFG
      ensures CFG[..] == Config.SetDCC(old(CFG[..]), dcc)
    {
      CFG[1] := (dcc & 0x00FF) as byte;
      CFG[2] := (CFG[2] & CFG2_DCC_INVMSK) | (((dcc & 0x0F00) >> 8) as byte);
    }

    method CfgSetMCI(mci: word)
      requires Valid()
      modifies CFG
      ensures CFG[..] == Config.SetMCI(old(CFG[..]), mci)
    {
      CFG[2] := (CFG[2] & CFG2_MCI_INVMSK) | (((mci & 0x0F) << 4) as byte);
      CFG[3] := ((mci & 0x0FF0) >> 4) as byte;
    }

    method CfgSetVUV(vuv: byte)
      requires Valid()
      modifies CFG
      ensures CFG[..] == Config.SetVUV(old(CFG[..]), vuv)
    {
      CFG[4] := ((vuv as word) * 3 / 32) as byte;
    }

    method CfgSetVOV(vov: byte)
      requires Valid()
      modifies CFG
      ensures CFG[..] == Config.SetVOV(old(CFG[..]), vov)
    {
      CFG[5] := ((vov as word) * 3 / 32) as byte;
    }
  }
}
