/**
 * Client-side scenarios: concrete uses of the driver and their outcomes,
 * derived from the methods' contracts and the frame and decoder
 * definitions they are stated in.
 */
module Scenarios {
  import opened Registers
  import Config
  import Analog
  import opened Transport
  import opened Chip

  /**
   * A temperature poll that sees "conversion in progress" on the first two
   * reads and 0x12 on the third stops after exactly three reads and keeps
   * the third read's data.
   */
  method PollUntilReady() returns (polls: nat, first: byte)
    ensures polls == 3 && first == 0x12
  {
    var chip := new LTC6802(0x80, 10);
    // Each read of the temperature group takes 2 + 5 + 1 = 8 exchanges;
    // the first data byte of read k is exchange 8 * k + 2.
    var script: seq<byte> := seq(24, i => if i == 2 || i == 10 then 0xFF else if i == 18 then 0x12 else 0);
    var bus := new Bus(script);
    assert chip.TMP[0] == 0;
    polls := chip.TemperatureRead(bus, 10);
    first := chip.TMP[0];
    assert Reply(script, 2) == 0xFF && Reply(script, 10) == 0xFF && Reply(script, 18) == 0x12;
    assert polls != 1 && polls != 2;
    assert PolledByte(script, 0, TMP_REGISTERS, 0, 2) == 0x12;
  }

  /**
   * Setting both 12-bit masks on a fresh chip and writing the image sends
   * the address, WRCFG and the six bytes with the masks sharing CFG[2].
   */
  method WriteMasks() returns (sent: seq<byte>, dcc: word, mci: word)
    ensures sent == [0x81, WRCFG, 0x00, 0xBC, 0x3A, 0x12, 0x00, 0x00]
    ensures dcc == 0x0ABC && mci == 0x0123
  {
    var chip := new LTC6802(0x81, 10);
    chip.CfgSetDCC(0x0ABC);
    chip.CfgSetMCI(0x0123);
    dcc := Config.GetDCC(chip.CFG[..]);
    mci := Config.GetMCI(chip.CFG[..]);
    var bus := new Bus([]);
    chip.CfgWrite(bus, false);
    sent := bus.sent;
    assert chip.CFG[..] == [0x00, 0xBC, 0x3A, 0x12, 0x00, 0x00];
  }

  /** A broadcast conversion command omits the address byte; an addressed one sends it first. */
  method BroadcastMeasure() returns (addressed: seq<byte>, broadcast: seq<byte>)
    ensures addressed == [0x82, STCVAD] && broadcast == [STCVAD]
  {
    var chip := new LTC6802(0x82, 10);
    var bus := new Bus([]);
    chip.Measure(bus, STCVAD, false);
    addressed := bus.sent;
    bus := new Bus([]);
    chip.Measure(bus, STCVAD, true);
    broadcast := bus.sent;
  }

  /** The middle byte 0x10 of a triple carries the low nibble of the second channel. */
  lemma NibbleOrder()
    ensures Analog.DecodeCells([0x00, 0x10, 0x00]) == [0x000, 0x001]
  {
  }
}
