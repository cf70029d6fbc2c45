# LTC6802-2 register interface, modelled in Dafny

This project models the Arduino driver class `LTC6802` for the LTC6802-2
multicell addressable battery stack monitor. The driver object holds the
chip's bus address and chip select pin, plus its own copies of four
register groups: configuration `CFG[6]`, temperature `TMP[5]`, cell
voltages `CV[18]` and flags `FLG[3]`. On top of these it provides:

- transport operations over the serial bus: a conversion command
  (`measure`), a register read (`read`), a read that polls until the
  conversion is done (`readValues`) and a configuration write (`cfgWrite`);
- a bit-field codec for the configuration group: single-bit fields, the
  comparator duty cycle, two 12-bit cell masks that share `CFG[2]`, and two
  voltage thresholds with a linear scaling;
- decoders for the conversion results: twelve 12-bit cell channels packed
  two per three bytes, and the internal temperature, thermal shutdown flag
  and revision at the end of the temperature group.

Files and modules:

- `registers.dfy` (`Registers`): the `byte`/`word` types (as `bv8`/`bv16`),
  the group widths, command codes and masks, and truncating division.
- `config.dfy` (`Config`): the configuration codec as pure functions over a
  6-byte image. Every setter states the field it writes, that every other
  bit of the image is kept, and which other fields it leaves unchanged.
- `analog.dfy` (`Analog`): the cell and temperature decoders. Each has a
  packing partner (the layout the chip writes). Both round trips are
  proved, so the nibble interleaving neither loses nor overlaps a bit.
- `transport.dfy` (`Transport`): the bus as a class `Bus`. It records every
  byte sent and answers the k-th exchange with the k-th byte of a reply
  script. Pure functions give the bytes of each frame.
- `chip.dfy` (`Chip`): the class `LTC6802`. Its four register groups are
  arrays of fixed length. Its methods modify them in place and are proved
  against the `Config` and `Transport` functions.
- `scenarios.dfy` (`Scenarios`): client uses and their outcomes, derived
  from the methods' contracts and the frame and decoder definitions they
  are stated in: a poll that becomes ready on its third read, a mask
  write, a broadcast command, and the nibble order of a cell triple.

Conventions. The chip answers every exchange. Once the reply script runs
out, the model's bus answers 0xFF, the "conversion in progress" byte, so a
poll over an exhausted script never becomes ready. The driver computes the
thresholds, the temperature and the cell volts in floating point. Once
truncated to an integer, the first three are exact for every possible
input, and the model computes them in integers:

- threshold setter: `raw = v * 3 / 32`;
- threshold getter: `v = raw * 32 / 3`;
- Celsius: `(3 * itmp - 4368) / 16`, rounded toward zero.

The volts are not truncated, and the driver's binary floating-point
quotient `count * 1.5 / 1000` is rounded (0.0015 V for one count has no
exact binary representation). `Analog.CellVolts` is the exact real value
`count * 3 / 2000` that the driver's result approximates.

The bytes `[0x00, 0x10, 0x00]` decode to channels `[0x000, 0x001]`: the
0x10 nibble belongs to the second channel (see `Scenarios.NibbleOrder`).

## Model

| member | source | states |
|---|---|---|
| `Registers.TruncDiv` | src/LTC6802.cpp:594 | the quotient is rounded toward zero, as the conversion to `int` does: the remainder has the dividend's sign and is smaller than the divisor |
| `Config.GetWDT` | src/LTC6802.cpp:456-459 | the watchdog flag is bit 7 of CFG[0] |
| `Config.GetGPIO1` | src/LTC6802.cpp:462-465 | GPIO1 is bit 5 of CFG[0] |
| `Config.SetGPIO1` | src/LTC6802.cpp:468-471 | reading GPIO1 back gives the value set; every bit of CFG[0] except bit 5 is kept; CFG[1..6) is untouched; WDT, GPIO2, LVLPL, CELL10 and CDC are unchanged |
| `Config.GetGPIO2` | src/LTC6802.cpp:474-477 | GPIO2 is bit 6 of CFG[0] |
| `Config.SetGPIO2` | src/LTC6802.cpp:480-483 | reading GPIO2 back gives the value set; only bit 6 of CFG[0] can change; CFG[1..6) is untouched; WDT, GPIO1, LVLPL, CELL10 and CDC are unchanged |
| `Config.GetLVLPL` | src/LTC6802.cpp:486-489 | level polling mode is bit 4 of CFG[0] |
| `Config.SetLVLPL` | src/LTC6802.cpp:492-495 | reading LVLPL back gives the value set; only bit 4 of CFG[0] can change; CFG[1..6) is untouched; the other CFG[0] fields are unchanged |
| `Config.Cell10` | src/LTC6802.cpp:207-210 | the ten-cell mode flag is bit 3 of CFG[0]; no accessor in the driver, and every setter keeps it |
| `Config.GetCDC` | src/LTC6802.cpp:498-501 | the comparator duty cycle is CFG[0] mod 8, so one of the eight documented modes 0..7 |
| `Config.SetCDC` | src/LTC6802.cpp:504-508 | for cdc in 0..7, reading CDC back gives cdc; bits 3-7 of CFG[0] are kept (WDT, GPIO1, GPIO2, LVLPL, CELL10 unchanged); CFG[1..6) is untouched |
| `Config.GetDCC` | src/LTC6802.cpp:511-514 | the discharge mask uses bits 0-11 only: its low byte is CFG[1] and its bits 8-11 the low nibble of CFG[2] |
| `Config.SetDCC` | src/LTC6802.cpp:517-522 | for any 16-bit dcc, reading DCC back gives dcc & 0x0FFF; MCI is unchanged; the high nibble of CFG[2], CFG[0] and CFG[3..6) are kept |
| `Config.GetMCI` | src/LTC6802.cpp:525-528 | the interrupt mask uses bits 0-11 only: its low nibble is the high nibble of CFG[2] and its bits 4-11 are CFG[3] |
| `Config.SetMCI` | src/LTC6802.cpp:531-536 | for any 16-bit mci, reading MCI back gives mci & 0x0FFF; DCC is unchanged; the low nibble of CFG[2], CFG[0..2) and CFG[4..6) are kept |
| `Config.DCCRoundTrip` | src/LTC6802.cpp:511-522 | every 12-bit DCC value round-trips; writing back the DCC just read leaves the image unchanged |
| `Config.MCIRoundTrip` | src/LTC6802.cpp:525-536 | every 12-bit MCI value round-trips; writing back the MCI just read leaves the image unchanged |
| `Config.DCCAndMCICommute` | src/LTC6802.cpp:517-536 | setting DCC then MCI gives the same image as setting MCI then DCC |
| `Config.Cfg0WriteBack` | src/LTC6802.cpp:462-508 | writing back the GPIO1, GPIO2, LVLPL or CDC value just read leaves the image unchanged |
| `Config.RawOfThreshold` | src/LTC6802.cpp:545-548 | the stored raw value is v * 1.5 / 16 truncated (raw * 32 <= v * 3 < (raw + 1) * 32), and never above 23 |
| `Config.ThresholdOfRaw` | src/LTC6802.cpp:539-542 | the threshold is raw * 16 / 1.5 truncated (v * 3 <= raw * 32 < (v + 1) * 3), and at most 2720 |
| `Config.ThresholdAsByte` | src/LTC6802.cpp:539-542 | the getter's value converted to the declared `byte` result; where defined it equals the exact threshold |
| `Config.ThresholdByteOverflow` | src/LTC6802.cpp:539-542 | the byte result is defined exactly when raw <= 23; raw = 24 already gives 256 |
| `Config.GetVUV` | src/LTC6802.cpp:539-542 | the undervoltage threshold is CFG[4] * 16 / 1.5, truncated, at most 2720 (the two bounds admit one value only, see `Config.ThresholdDetermined`) |
| `Config.SetVUV` | src/LTC6802.cpp:545-548 | CFG[4] becomes the stored raw value of vuv (vuv * 1.5 / 16 truncated, at most 23) and no other byte changes; reading the threshold back gives between vuv - 11 and vuv |
| `Config.GetVOV` | src/LTC6802.cpp:551-554 | the overvoltage threshold is CFG[5] * 16 / 1.5, truncated, at most 2720 |
| `Config.SetVOV` | src/LTC6802.cpp:557-560 | CFG[5] becomes the stored raw value of vov (vov * 1.5 / 16 truncated, at most 23) and no other byte changes; reading the threshold back gives between vov - 11 and vov |
| `Config.ThresholdRoundTrip` | src/LTC6802.cpp:539-548 | setting a threshold and reading it back gives between v - 11 and v |
| `Config.ThresholdDetermined` | src/LTC6802.cpp:539-542 | any word meeting the getter's truncation bounds and at most 2720 is the threshold of the raw value: the getter contract fixes its result |
| `Config.RawDetermined` | src/LTC6802.cpp:545-548 | any byte meeting the setter's truncation bounds and at most 23 is the raw value stored: the setter contract fixes what it writes |
| `Config.ThresholdMonotone` | src/LTC6802.cpp:539-542 | the threshold getter is monotone in the raw register value |
| `Config.RawOfThresholdMonotone` | src/LTC6802.cpp:545-548 | the raw value the setter stores is monotone in the threshold |
| `Analog.LowChannel` | src/LTC6802.cpp:621 | the even channel of a triple is below 4096; its low byte is b0 and its bits 8-11 the low nibble of b1 |
| `Analog.HighChannel` | src/LTC6802.cpp:622 | the odd channel of a triple is below 4096; its low nibble is the high nibble of b1 and its bits 4-11 are b2 |
| `Analog.DecodeCells` | src/LTC6802.cpp:620-637 | every three bytes give two channels, and every channel is below 4096 |
| `Analog.CellVoltages` | src/LTC6802.cpp:620-637 | the 18-byte cell group gives exactly 12 channels, one per cell, all below 4096 |
| `Analog.DecodeCellsAt` | src/LTC6802.cpp:621-637 | channel 2k is CV[3k] with the low nibble of CV[3k+1]; channel 2k+1 is the high nibble of CV[3k+1] with CV[3k+2] |
| `Analog.PackPair` | src/LTC6802.cpp:621-622 | the inverse layout: two 12-bit channels become three bytes |
| `Analog.EncodeCells` | src/LTC6802.cpp:620-637 | packing two channels per three bytes gives 3/2 bytes per channel |
| `Analog.PairRoundTrip` | src/LTC6802.cpp:621-622 | unpacking a packed pair of channels gives both back |
| `Analog.TripleRoundTrip` | src/LTC6802.cpp:621-622 | packing the two channels of a byte triple gives the triple back |
| `Analog.DecodeEncode` | src/LTC6802.cpp:620-637 | decoding a packed channel sequence gives every channel back |
| `Analog.EncodeDecode` | src/LTC6802.cpp:620-637 | packing the decoded channels gives every byte back, so the decoder is injective |
| `Analog.SelfTestPattern` | src/LTC6802.cpp:66-67 | a group of 0x55 bytes decodes to 0x555 on every channel, and a group of 0xAA bytes to 0xAAA |
| `Analog.CellVolts` | src/LTC6802.cpp:639 | a channel in volts is count * 1.5 / 1000 exactly, between 0 and 6.1425 V |
| `Analog.InternalTemperature` | src/LTC6802.cpp:591-592 | the internal temperature is below 4096: its low byte is TMP[3] and its bits 8-11 the low nibble of TMP[4] |
| `Analog.ThermalShutdown` | src/LTC6802.cpp:599 | the thermal shutdown flag is bit 4 of TMP[4] |
| `Analog.Revision` | src/LTC6802.cpp:602 | the revision is TMP[4] >> 5, in 0..7 |
| `Analog.PackStatus` | src/LTC6802.cpp:591-602 | the inverse layout of TMP[3] and TMP[4]: two bytes |
| `Analog.StatusRoundTrip` | src/LTC6802.cpp:591-602 | the internal temperature, thermal shutdown flag and revision together give back TMP[3] and TMP[4] exactly |
| `Analog.StatusDecodePack` | src/LTC6802.cpp:591-602 | every 12-bit temperature, flag value and revision 0..7 is decoded unchanged |
| `Analog.Celsius` | src/LTC6802.cpp:594 | the Celsius value is (3 * itmp - 4368) / 16 rounded toward zero, between -273 and 494 |
| `Analog.InternalCelsius` | src/LTC6802.cpp:591-594 | the temperature group's internal temperature in Celsius is between -273 and 494 |
| `Analog.CelsiusMonotone` | src/LTC6802.cpp:594 | Celsius is monotone in the raw temperature |
| `Analog.CelsiusReferencePoints` | src/LTC6802.cpp:594 | 0 counts is -273, 1456 counts is 0, and 1450 counts gives -1 (rounding toward zero, not down) |
| `Transport.Repeat` | src/LTC6802.cpp:371-375 | k copies of one byte |
| `Transport.Frames` | src/LTC6802.cpp:384-388 | k frames back to back are k times the frame's length |
| `Transport.AddressPrefix` | src/LTC6802.cpp:349-352 | the address byte is sent only when not broadcasting |
| `Transport.MeasureFrame` | src/LTC6802.cpp:345-358 | a conversion command is [address, cmd], or [cmd] as a broadcast |
| `Transport.WriteConfigFrame` | src/LTC6802.cpp:415-430 | a configuration write starts with the address byte unless broadcasting, then WRCFG, then the image in order |
| `Transport.ReadFrame` | src/LTC6802.cpp:361-379 | a read of n registers sends n + 3 bytes: the address, then the command n + 2 times |
| `Transport.ReadData` | src/LTC6802.cpp:371-374 | the n data bytes of a read are replies 2 .. n+1 of its frame |
| `Chip.ZeroFill` | src/LTC6802.cpp:318-333 | every byte of the group is 0 |
| `Chip.LTC6802.constructor` | src/LTC6802.cpp:313-335 | address and chip select pin are as given; the four groups have widths 6, 5, 18 and 3; every byte of each is 0 |
| `Chip.LTC6802.Measure` | src/LTC6802.cpp:345-358 | exactly the conversion command frame is sent; no register group changes |
| `Chip.LTC6802.Read` | src/LTC6802.cpp:361-379 | requires n <= arr.Length; sends the read frame; arr[0..n) gets replies 2 .. n+1 in order; the trailing reply is dropped; arr[n..] is unchanged |
| `Chip.LTC6802.ReadValues` | src/LTC6802.cpp:382-389 | reads repeatedly; every read but the last saw 0xFF as its first byte; the array holds the last read's data; it stops early only once arr[0] is not 0xFF |
| `Chip.LTC6802.CfgRead` | src/LTC6802.cpp:409-412 | the whole configuration image is replaced by the six bytes read |
| `Chip.LTC6802.CfgWrite` | src/LTC6802.cpp:415-430 | sends the optional address, WRCFG and CFG[0..6) in order; changes no register group |
| `Chip.LTC6802.FlagsRead` | src/LTC6802.cpp:392-395 | the whole flag group is replaced by the three bytes read |
| `Chip.LTC6802.TemperatureMeasure` | src/LTC6802.cpp:563-566 | sends [address, STTMPAD] |
| `Chip.LTC6802.TemperatureRead` | src/LTC6802.cpp:569-572 | polls the temperature group as ReadValues does; the group holds the last read's five bytes |
| `Chip.LTC6802.CellsMeasure` | src/LTC6802.cpp:606-609 | sends [address, STCVAD] |
| `Chip.LTC6802.CellsRead` | src/LTC6802.cpp:612-615 | polls the cell group as ReadValues does; the group holds the last read's eighteen bytes |
| `Chip.LTC6802.CfgSetGPIO1` | src/LTC6802.cpp:468-471 | the image becomes `Config.SetGPIO1` of the old image; no other group changes |
| `Chip.LTC6802.CfgSetGPIO2` | src/LTC6802.cpp:480-483 | the image becomes `Config.SetGPIO2` of the old image; no other group changes |
| `Chip.LTC6802.CfgSetLVLPL` | src/LTC6802.cpp:492-495 | the image becomes `Config.SetLVLPL` of the old image; no other group changes |
| `Chip.LTC6802.CfgSetCDC` | src/LTC6802.cpp:504-508 | requires cdc <= 7; the image becomes `Config.SetCDC` of the old image |
| `Chip.LTC6802.CfgSetDCC` | src/LTC6802.cpp:517-522 | the image becomes `Config.SetDCC` of the old image; no other group changes |
| `Chip.LTC6802.CfgSetMCI` | src/LTC6802.cpp:531-536 | the image becomes `Config.SetMCI` of the old image; no other group changes |
| `Chip.LTC6802.CfgSetVUV` | src/LTC6802.cpp:545-548 | the image becomes `Config.SetVUV` of the old image; no other group changes |
| `Chip.LTC6802.CfgSetVOV` | src/LTC6802.cpp:557-560 | the image becomes `Config.SetVOV` of the old image; no other group changes |
| `Scenarios.PollUntilReady` | src/LTC6802.cpp:382-389 | with 0xFF on the first two reads and 0x12 on the third, the poll makes exactly three reads and keeps 0x12 |
| `Scenarios.WriteMasks` | src/LTC6802.cpp:415-430 | after setting DCC 0x0ABC and MCI 0x0123 on a fresh chip, both read back, and the write sends [address, 0x01, 0x00, 0xBC, 0x3A, 0x12, 0x00, 0x00] |
| `Scenarios.BroadcastMeasure` | src/LTC6802.cpp:345-358 | the addressed command sends the address before the command; the broadcast omits it |
| `Scenarios.NibbleOrder` | src/LTC6802.cpp:621-622 | the triple [0x00, 0x10, 0x00] decodes to channels 0x000 and 0x001 |

## Left out

- Bus and pin hardware is not modelled: `initSPI`, `destroySPI`, `pinMode`, the chip select `digitalWrite`s, `SPI.beginTransaction`/`endTransaction` and the SPI settings. The bus is the abstract exchange `Transport.Bus`. Its replies come from a fixed script, and once the script runs out it answers 0xFF.
- Mutual exclusion between chips sharing the bus is not modelled; the driver has none of its own.
- The `Serial` output of `cfgDebugOutput`, `flagsDebugOutput`, `temperatureDebugOutput` and `cellsDebugOutput` is not modelled. The decoding expressions inside the last two are modelled. `cfgDebugOutput` decodes DCC and MCI the same way as `cfgGetDCC` and `cfgGetMCI`.
- The external temperature decoding in `temperatureDebugOutput` is commented out in the source, so it is not modelled.
- Unused command codes (STOWAD, PLADC, PLINT, STCDC, STOWDC) and the unused inverse masks `CFG0_WDT_INVMSK`, `CFG0_CELL10_INVMSK`, `CFG1_DCC_INVMSK` and `CFG3_MCI_INVMSK` are not modelled; no driver operation writes WDT or CELL10.
- The `operator new`/`delete` overrides that disable heap allocation are not modelled.
- The packet error code byte that ends each read is consumed and dropped; it is not validated, as in the driver.
- Analog.CellVolts: the exact real value; the driver's binary floating-point quotient at src/LTC6802.cpp:639 is rounded and is not modelled. The threshold and Celsius formulas are exact after truncation, so no rounding is lost there.
- Chip.LTC6802.ReadValues: bounded by a `maxReads` argument, because the driver polls without any bound. If the chip never becomes ready, the model stops after `maxReads` reads with 0xFF still in arr[0]. The driver would spin forever. The same bound applies to `TemperatureRead` and `CellsRead`.
- Chip.LTC6802.CfgSetCDC: requires cdc <= 7, as the driver's own "assert cdc 0-7" comment demands. For larger values the driver ORs the extra bits into WDT..CELL10; the model does not cover that.
- Config.SetCDC: the same cdc <= 7 precondition as `CfgSetCDC`.
- Chip.LTC6802.Read: `numOfRegisters` is a `byte` in the driver but a `nat` here. Every caller passes 3, 5, 6 or 18.

## Findings

| source | as written | input that shows it | evidently intended | confidence | as-written member | corrected member |
|---|---|---|---|---|---|---|
| src/LTC6802.cpp:539-542, 551-554 | `cfgGetVUV`/`cfgGetVOV` return `byte`, but `CFG[4] * 16 / 1.5` (and `CFG[5] * ...`) reaches 2720; converting a value of 256 or more to `byte` is undefined | CFG[4] = 24 gives 256; every raw value 24..255 overflows | a result wide enough for every register value (a 16-bit `word`, at most 2720), truncated as written | medium; not executed | `Config.ThresholdAsByte` (with `Config.ThresholdByteOverflow`) | `Config.ThresholdOfRaw` (used by `Config.GetVUV`/`Config.GetVOV`, with `Config.ThresholdMonotone`, `Config.ThresholdRoundTrip`) |
