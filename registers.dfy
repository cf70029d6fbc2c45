/**
 * Register-level vocabulary of the LTC6802-2 battery stack monitor:
 * value types, register group widths, command codes and the bit layout
 * of configuration register 0.
 */
module Registers {

  /** An 8-bit register value (the Arduino `byte`). */
  type byte = bv8

  /** A 16-bit unsigned value (the Arduino `word`). */
  type word = bv16

  // Widths of the four register groups the driver mirrors.
  const CFG_REGISTERS: nat := 6
  const TMP_REGISTERS: nat := 5
  const CELL_REGISTERS: nat := 18
  const FLG_REGISTERS: nat := 3

  /** Number of cells one chip measures: one 12-bit channel per cell. */
  const MAX_CELLS: nat := 12

  // Command codes used by the driver.
  const WRCFG: byte := 0x01
  const RDCFG: byte := 0x02
  const RDCV: byte := 0x04
  const RDFLG: byte := 0x06
  const RDTMP: byte := 0x08
  /** Start cell voltage conversion; the low nibble 0 selects all cells. */
  const STCVAD: byte := 0x10
  /** Start temperature conversion; the low nibble 0 selects all inputs. */
  const STTMPAD: byte := 0x30

  /** First byte of a register read while a conversion is still running. */
  const CONVERSION_PENDING: byte := 0xFF

  // Bit positions in configuration register 0.
  const CFG0_WDT_BIT: nat := 7
  const CFG0_GPIO2_BIT: nat := 6
  const CFG0_GPIO1_BIT: nat := 5
  const CFG0_LVLPL_BIT: nat := 4
  const CFG0_CELL10_BIT: nat := 3

  // Masks and inverse masks of the configuration fields.
  const CFG0_WDT_MSK: byte := 0x80
  const CFG0_GPIO2_MSK: byte := 0x40
  const CFG0_GPIO1_MSK: byte := 0x20
  const CFG0_LVLPL_MSK: byte := 0x10
  const CFG0_CELL10_MSK: byte := 0x08
  const CFG0_CDC_MSK: byte := 0x07
  const CFG1_DCC_MSK: byte := 0xFF
  const CFG2_DCC_MSK: byte := 0x0F
  const CFG2_MCI_MSK: byte := 0xF0

  const CFG0_GPIO2_INVMSK: byte := 0xBF
  const CFG0_GPIO1_INVMSK: byte := 0xDF
  const CFG0_LVLPL_INVMSK: byte := 0xEF
  const CFG0_CDC_INVMSK: byte := 0xF8
  const CFG2_DCC_INVMSK: byte := 0xF0
  const CFG2_MCI_INVMSK: byte := 0x0F

  /** A C++ `bool` promoted to an integer: 0 or 1. */
  function BoolBit(b: bool): (r: byte)
    ensures r <= 1 && (r == 1 <==> b)
  {
    if b then 1 else 0
  }

  /**
   * Integer division truncating toward zero, as C and C++ convert a
   * quotient to `int`; Dafny's own `/` rounds toward minus infinity.
   */
  function TruncDiv(a: int, b: int): (q: int)
    requires 0 < b
    ensures 0 <= a ==> 0 <= a - q * b < b
    ensures a < 0 ==> -b < a - q * b <= 0
  {
    if 0 <= a then a / b else -((-a) / b)
  }
}
