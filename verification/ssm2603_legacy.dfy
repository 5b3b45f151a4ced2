/*
 * The first SSM2603 driver, src/sw/ssm2603.c with its header: an XIic
 * instance addressed once, a write frame that adds all of `data >> 8`
 * into the first byte, and a configCodec of five writes and no read-back.
 * Its header gives the B_ constants as in-place masks, not bit positions.
 *
 * i2c_write is an oracle: the k-th call on the bus returns `bus(k)`.
 */
module Ssm2603Legacy {
  import opened Utils
  import Regs = Ssm2603Regs
  import Codec = Ssm2603

  /** SSM2603_ADDR: the codec's 7-bit address. */
  const SSM2603_ADDR: bv8 := 0x1A

  // The masks configCodec uses.
  const B_PWROFF: bv32 := 0x080
  const B_OUT: bv32 := 0x010
  const B_DAC: bv32 := 0x008
  const B_LINEIN: bv32 := 0x001
  const B_DACSEL: bv32 := 0x010
  const B_MUTEMIC: bv32 := 0x002
  const B_ACTIVE: bv32 := 0x001

  /**
   * i2c_codec_write's frame: `(u8)((reg << 1) + (data >> 8))`, then the low
   * byte of `data`. The sum is taken in int and truncated to 8 bits.
   */
  function LegacyFrame(reg: bv8, data: bv16): (frame: seq<bv8>)
    ensures |frame| == 2
    ensures frame[1] as bv16 == data & 0xFF
  {
    [((((reg as bv16) << 1) + (data >> 8)) & 0xFF) as bv8, (data & 0xFF) as bv8]
  }

  /** For a 7-bit register and 9-bit data both drivers send the same frame. */
  lemma LegacyFrameAgrees(reg: bv8, data: bv16)
    requires reg < 128 && data < 512
    ensures LegacyFrame(reg, data) == Codec.WriteFrame(reg, data)
  {
  }

  /**
   * Data above 9 bits leaks into the address: the frame of 0x200 for R0
   * names register R1 to the codec. (configCodec only writes values
   * below 0x100, so it never meets this.)
   */
  lemma LegacyFrameLeaks()
    ensures Codec.FrameRegister(LegacyFrame(Regs.CODEC_R0, 0x200)) == Regs.CODEC_R1
    ensures Codec.FrameRegister(Codec.WriteFrame(Regs.CODEC_R0, 0x200)) == Regs.CODEC_R0
  {
  }

  /** The first value configCodec writes to R6, `~(B_PWROFF | B_OUT | B_DAC) & 0xFF`. */
  function LegacyPowerUp(): (v: bv16)
    ensures v & 0x80 == 0 && v & 0x10 == 0 && v & 0x08 == 0 && v < 0x100
  {
    (!(B_PWROFF | B_OUT | B_DAC) & 0xFF) as bv16
  }

  /**
   * configCodec's writes, in order: R6, the DAC routed to the output mixer
   * with the microphone muted, 96 kHz from a 12.288 MHz MCLK, the active
   * bit, and R6 once more with its bit 0 cleared.
   */
  function LegacySequence(): (ws: seq<Codec.RegWrite>)
    ensures |ws| == 5
    ensures forall j :: 0 <= j < 5 ==> ws[j].data < 0x100 && ws[j].reg < 128
  {
    [Codec.RegWrite(Regs.CODEC_PWR_MGMT, LegacyPowerUp()),
     Codec.RegWrite(Regs.CODEC_AN_AUDIO_PATH, (B_DACSEL | B_MUTEMIC) as bv16),
     Codec.RegWrite(Regs.CODEC_SAMPLE_RATE, 0x7 << 2),
     Codec.RegWrite(Regs.CODEC_ACTIVE, B_ACTIVE as bv16),
     Codec.RegWrite(Regs.CODEC_PWR_MGMT, LegacyPowerUp() & 0xFE)]
  }

  /**
   * As written, the bring-up order is broken: the first R6 write already
   * has the out bit clear (output powered up) and the last R6 write
   * changes only bit 0, the line input, so the output is never the last
   * block powered up.
   */
  lemma LegacyPowerOrder()
    ensures LegacySequence()[0] == Codec.RegWrite(Regs.CODEC_PWR_MGMT, 0x67)
    ensures LegacySequence()[4] == Codec.RegWrite(Regs.CODEC_PWR_MGMT, 0x66)
    ensures (LegacySequence()[0].data as bv32) & B_OUT == 0
    ensures (LegacySequence()[0].data ^ LegacySequence()[4].data) as bv32 == B_LINEIN
    ensures LegacySequence()[0].data != Codec.ConfigSequence()[0].data
  {
  }

  /**
   * Apart from R6 the first driver writes what the current one does, in
   * the same order, but never writes R5 (the DAC mute).
   */
  lemma LegacyOtherWrites()
    ensures LegacySequence()[1] == Codec.ConfigSequence()[1]
    ensures LegacySequence()[2] == Codec.ConfigSequence()[2]
    ensures LegacySequence()[3] == Codec.ConfigSequence()[4]
    ensures forall j :: 0 <= j < 5 ==> LegacySequence()[j].reg != Regs.CODEC_DIG_AUDIO_PATH
    ensures Codec.ConfigSequence()[3].reg == Regs.CODEC_DIG_AUDIO_PATH
  {
  }

  /**
   * Of the `n` calls from the `k`-th on, how many come before the first
   * that does not return XST_SUCCESS (`n` if none).
   */
  function FirstFailed(bus: nat -> int, k: nat, n: nat): (m: nat)
    ensures m <= n
    ensures forall j :: k <= j < k + m ==> bus(j) == XST_SUCCESS
    ensures m < n ==> bus(k + m) != XST_SUCCESS
    decreases n
  {
    if n == 0 || bus(k) != XST_SUCCESS then 0 else 1 + FirstFailed(bus, k + 1, n - 1)
  }

  /** FirstFailed is the one count that meets its description. */
  lemma FirstFailedIs(bus: nat -> int, k: nat, n: nat, i: nat)
    requires i <= n
    requires forall j :: k <= j < k + i ==> bus(j) == XST_SUCCESS
    requires i < n ==> bus(k + i) != XST_SUCCESS
    ensures FirstFailed(bus, k, n) == i
  {
  }

  /** The transaction i2c_codec_write makes for `w` to the codec at `addr`. */
  function LegacyRequest(addr: bv8, w: Codec.RegWrite): (request: Codec.I2cRequest)
    ensures request.WriteReg? && request.addr == addr
  {
    var frame := LegacyFrame(w.reg, w.data);
    Codec.WriteReg(addr, frame[0], frame[1])
  }

  /**
   * The codec decodes each of configCodec's transactions as the register
   * and value meant, since every value fits 8 bits.
   */
  lemma LegacyRequestsDecode(j: nat)
    requires j < 5
    ensures var r := LegacyRequest(SSM2603_ADDR, LegacySequence()[j]);
      && Codec.FrameRegister([r.regByte, r.dataByte]) == LegacySequence()[j].reg
      && Codec.FrameData([r.regByte, r.dataByte]) == LegacySequence()[j].data
  {
    var w := LegacySequence()[j];
    LegacyFrameAgrees(w.reg, w.data);
    Codec.FrameRoundTrip(w.reg, w.data);
    var r := LegacyRequest(SSM2603_ADDR, w);
    assert [r.regByte, r.dataByte] == Codec.WriteFrame(w.reg, w.data);
  }

  /**
   * A run of the writes of `ws` to `addr`, begun after `sent0`, has made
   * its first `i` writes, all of which succeeded.
   */
  ghost predicate LegacySoFar(bus: nat -> int, addr: bv8, sent0: seq<Codec.I2cRequest>,
                              ws: seq<Codec.RegWrite>, i: nat, sent: seq<Codec.I2cRequest>)
  {
    var k0 := |sent0|;
    && i <= |ws|
    && (forall j :: k0 <= j < k0 + i ==> bus(j) == XST_SUCCESS)
    && |sent| == k0 + i
    && (forall j :: 0 <= j < k0 ==> sent[j] == sent0[j])
    && (forall j :: k0 <= j < |sent| ==> sent[j] == LegacyRequest(addr, ws[j - k0]))
  }

  /**
   * The run is over: it made the writes of `ws` in order up to and
   * including the first that failed, and reports XST_FAILURE exactly when
   * one did.
   */
  ghost predicate LegacyDone(bus: nat -> int, addr: bv8, sent0: seq<Codec.I2cRequest>,
                             ws: seq<Codec.RegWrite>, status: int, sent: seq<Codec.I2cRequest>)
  {
    var k0 := |sent0|;
    var n := FirstFailed(bus, k0, |ws|);
    && status == (if n == |ws| then XST_SUCCESS else XST_FAILURE)
    && |sent| == k0 + (if n == |ws| then n else n + 1)
    && (forall j :: 0 <= j < k0 ==> sent[j] == sent0[j])
    && (forall j :: k0 <= j < |sent| ==> sent[j] == LegacyRequest(addr, ws[j - k0]))
  }

  /** A write that succeeds keeps the run going. */
  lemma LegacyNext(bus: nat -> int, addr: bv8, sent0: seq<Codec.I2cRequest>, ws: seq<Codec.RegWrite>,
                   i: nat, sent: seq<Codec.I2cRequest>)
    requires i < |ws| && bus(|sent|) == XST_SUCCESS && LegacySoFar(bus, addr, sent0, ws, i, sent)
    ensures LegacySoFar(bus, addr, sent0, ws, i + 1, sent + [LegacyRequest(addr, ws[i])])
  {
  }

  /** A write that fails ends the run with XST_FAILURE. */
  lemma LegacyStops(bus: nat -> int, addr: bv8, sent0: seq<Codec.I2cRequest>, ws: seq<Codec.RegWrite>,
                    i: nat, sent: seq<Codec.I2cRequest>)
    requires i < |ws| && bus(|sent|) != XST_SUCCESS && LegacySoFar(bus, addr, sent0, ws, i, sent)
    ensures LegacyDone(bus, addr, sent0, ws, XST_FAILURE, sent + [LegacyRequest(addr, ws[i])])
  {
    FirstFailedIs(bus, |sent0|, |ws|, i);
  }

  /** A run that has made all the writes of `ws` is done with XST_SUCCESS. */
  lemma LegacyAllDone(bus: nat -> int, addr: bv8, sent0: seq<Codec.I2cRequest>, ws: seq<Codec.RegWrite>,
                      sent: seq<Codec.I2cRequest>)
    requires LegacySoFar(bus, addr, sent0, ws, |ws|, sent)
    ensures LegacyDone(bus, addr, sent0, ws, XST_SUCCESS, sent)
  {
    FirstFailedIs(bus, |sent0|, |ws|, |ws|);
  }

  /**
   * The XIic instance: the address it sends to and every write made
   * through it.
   */
  class LegacyCodec {
    const bus: nat -> int
    var address: bv8
    var sent: seq<Codec.I2cRequest>

    constructor(bus: nat -> int, address: bv8)
      ensures this.bus == bus && this.address == address && sent == []
    {
      this.bus := bus;
      this.address := address;
      sent := [];
    }

    /** i2c_write(Iic, writedata, 2): one write transaction; returns its status. */
    method I2cWrite(first: bv8, second: bv8) returns (status: int)
      modifies this
      ensures address == old(address)
      ensures sent == old(sent) + [Codec.WriteReg(address, first, second)]
      ensures status == bus(|old(sent)|)
    {
      status := bus(|sent|);
      sent := sent + [Codec.WriteReg(address, first, second)];
    }

    /** i2c_codec_write(Iic, reg, data): XST_FAILURE unless i2c_write succeeded. */
    method I2cCodecWrite(reg: bv8, data: bv16) returns (status: int)
      modifies this
      ensures address == old(address)
      ensures sent == old(sent) + [LegacyRequest(address, Codec.RegWrite(reg, data))]
      ensures status == (if bus(|old(sent)|) == XST_SUCCESS then XST_SUCCESS else XST_FAILURE)
    {
      var frame := LegacyFrame(reg, data);
      status := I2cWrite(frame[0], frame[1]);
      var early := ReturnOnFailure(status);
      if early.Some? {
        return early.value;
      }
      return XST_SUCCESS;
    }

    /**
     * One step of configCodec: the write of `ws[i]`, kept on the run's
     * track. XST_FAILURE ends the run.
     */
    method LegacyStep(ghost sent0: seq<Codec.I2cRequest>, ws: seq<Codec.RegWrite>, i: nat)
      returns (status: int)
      requires i < |ws| && LegacySoFar(bus, address, sent0, ws, i, sent)
      modifies this
      ensures address == old(address)
      ensures status == XST_SUCCESS ==> LegacySoFar(bus, address, sent0, ws, i + 1, sent)
      ensures status != XST_SUCCESS ==> LegacyDone(bus, address, sent0, ws, XST_FAILURE, sent)
    {
      if bus(|sent|) == XST_SUCCESS {
        LegacyNext(bus, address, sent0, ws, i, sent);
      } else {
        LegacyStops(bus, address, sent0, ws, i, sent);
      }
      status := I2cCodecWrite(ws[i].reg, ws[i].data);
    }

    /**
     * configCodec(Iic): address the codec, then the five writes of
     * LegacySequence(), returning XST_FAILURE at the first that fails.
     */
    method ConfigCodec() returns (status: int)
      modifies this
      ensures address == SSM2603_ADDR
      ensures LegacyDone(bus, SSM2603_ADDR, old(sent), LegacySequence(), status, sent)
    {
      address := SSM2603_ADDR;
      ghost var sent0 := sent;
      var ws := LegacySequence();
      status := LegacyStep(sent0, ws, 0);
      if status != XST_SUCCESS {
        return XST_FAILURE;
      }
      status := LegacyStep(sent0, ws, 1);
      if status != XST_SUCCESS {
        return XST_FAILURE;
      }
      status := LegacyStep(sent0, ws, 2);
      if status != XST_SUCCESS {
        return XST_FAILURE;
      }
      status := LegacyStep(sent0, ws, 3);
      if status != XST_SUCCESS {
        return XST_FAILURE;
      }
      status := LegacyStep(sent0, ws, 4);
      if status != XST_SUCCESS {
        return XST_FAILURE;
      }
      LegacyAllDone(bus, address, sent0, ws, sent);
      return XST_SUCCESS;
    }
  }
}
