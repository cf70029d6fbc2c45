/**
 * The serial bus as the driver sees it: a full-duplex byte exchange.
 *
 * A `Bus` records every byte transmitted, in order, and answers the k-th
 * exchange with the k-th byte of a fixed reply script. Once the script is
 * exhausted it answers 0xFF, the byte the chip sends while a conversion is
 * still running. Chip select, bus settings and timing are not modelled.
 *
 * The frame functions below say which bytes each driver operation
 * transmits; the driver's methods are proved against them.
 */
module Transport {
  import opened Registers

  /** The reply to the k-th exchange of a bus running `script`. */
  function Reply(script: seq<byte>, k: nat): byte
  {
    if k < |script| then script[k] else CONVERSION_PENDING
  }

  class Bus {
    /** Replies to the exchanges, in order. */
    const script: seq<byte>
    /** Every byte transmitted so far, in order. */
    var sent: seq<byte>

    constructor (script: seq<byte>)
      ensures this.script == script && sent == []
    {
      this.script := script;
      sent := [];
    }

    /** Transmit one byte and receive the reply clocked in at the same time. */
    method Transfer(out: byte) returns (reply: byte)
      modifies this
      ensures sent == old(sent) + [out]
      ensures reply == Reply(script, |old(sent)|)
    {
      reply := Reply(script, |sent|);
      sent := sent + [out];
    }
  }

  /** `k` copies of `b`. */
  function Repeat(b: byte, k: nat): (r: seq<byte>)
    ensures |r| == k
    ensures forall i :: 0 <= i < k ==> r[i] == b
  {
    if k == 0 then [] else Repeat(b, k - 1) + [b]
  }

  /** `k` copies of the frame `f`, one after the other. */
  function Frames(f: seq<byte>, k: nat): (r: seq<byte>)
    ensures |r| == k * |f|
  {
    if k == 0 then [] else Frames(f, k - 1) + f
  }

  /** The address byte of an addressed command; nothing for a broadcast. */
  function AddressPrefix(address: byte, broadcast: bool): (p: seq<byte>)
    ensures |p| == if broadcast then 0 else 1
  {
    if broadcast then [] else [address]
  }

  /** Bytes of a conversion command. */
  function MeasureFrame(address: byte, cmd: byte, broadcast: bool): (f: seq<byte>)
    ensures broadcast ==> f == [cmd]
    ensures !broadcast ==> f == [address, cmd]
  {
    AddressPrefix(address, broadcast) + [cmd]
  }

  /** Bytes of a configuration write: address, WRCFG, then the image in order. */
  function WriteConfigFrame(address: byte, broadcast: bool, cfg: seq<byte>): (f: seq<byte>)
    ensures |f| == |AddressPrefix(address, broadcast)| + 1 + |cfg|
    ensures f[..|AddressPrefix(address, broadcast)|] == AddressPrefix(address, broadcast)
    ensures f[|f| - |cfg|..] == cfg && f[|f| - |cfg| - 1] == WRCFG
  {
    AddressPrefix(address, broadcast) + [WRCFG] + cfg
  }

  /**
   * Bytes of a register read of n registers: always addressed, then the
   * command, then the command again as filler for the n data bytes and the
   * trailing packet error code byte.
   */
  function ReadFrame(address: byte, cmd: byte, n: nat): (f: seq<byte>)
    ensures |f| == n + 3 && f[0] == address
    ensures forall i :: 1 <= i < |f| ==> f[i] == cmd
  {
    [address, cmd] + Repeat(cmd, n + 1)
  }

  /** The n data bytes a read clocks in when its frame starts at exchange `start`. */
  function ReadData(script: seq<byte>, start: nat, n: nat): (data: seq<byte>)
    ensures |data| == n
  {
    seq(n, i requires 0 <= i < n => Reply(script, start + 2 + i))
  }

  /**
   * The byte a poll inspects after the k-th read (from 0) of a run of
   * reads starting at exchange `start`: the first data byte, or, when no
   * register is read, the byte the destination already held.
   */
  function PolledByte(script: seq<byte>, start: nat, n: nat, stale: byte, k: nat): byte
  {
    if n == 0 then stale else Reply(script, start + k * (n + 3) + 2)
  }
}
