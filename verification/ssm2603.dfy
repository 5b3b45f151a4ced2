/*
 * The SSM2603 codec driver of src/sw/ssm2603/ssm2603.c: the two-byte
 * register write frame, the assembly of a 16-bit register read, the
 * configCodec bring-up sequence and get_codec_config, which fills the
 * codecSSM2603 struct field by field from the register values.
 *
 * The I2C primitives i2c_write_reg and i2c_read_reg are an oracle: the
 * k-th transaction on the bus gets the reply `bus(k)`, a byte count and,
 * for a read, the two bytes received.
 */
module Ssm2603 {
  import opened Utils
  import opened Ssm2603Regs

  // ----- Framing -----

  /**
   * codec_write's frame: the 7-bit register address in the top bits of the
   * first byte with data bit 8 below it, then data bits 7..0.
   */
  function WriteFrame(reg: bv8, data: bv16): (frame: seq<bv8>)
    ensures |frame| == 2
    ensures frame[1] as bv16 == data & 0xFF
    ensures frame[0] & 1 == ((data >> 8) & 1) as bv8
  {
    [(reg << 1) + ((data >> 8) & 1) as bv8, (data & 0xFF) as bv8]
  }

  /** The register address a write frame names. */
  function FrameRegister(frame: seq<bv8>): bv8
    requires |frame| == 2
  {
    frame[0] >> 1
  }

  /** The 9-bit data a write frame carries. */
  function FrameData(frame: seq<bv8>): (data: bv16)
    requires |frame| == 2
    ensures data < 512
  {
    ((frame[0] & 1) as bv16 << 8) | frame[1] as bv16
  }

  /** A 7-bit address and 9-bit data survive the frame. */
  lemma FrameRoundTrip(reg: bv8, data: bv16)
    requires reg < 128 && data < 512
    ensures FrameRegister(WriteFrame(reg, data)) == reg
    ensures FrameData(WriteFrame(reg, data)) == data
  {
  }

  /** Every two-byte frame is the frame of the address and data it names. */
  lemma FrameOfParts(frame: seq<bv8>)
    requires |frame| == 2
    ensures WriteFrame(FrameRegister(frame), FrameData(frame)) == frame
  {
  }

  /** codec_read's assembly of the two bytes received: buf[1] is the high byte. */
  function ReadData(low: bv8, high: bv8): (data: bv16)
    ensures (data & 0xFF) as bv8 == low && (data >> 8) as bv8 == high
  {
    (high as bv16 << 8) | low as bv16
  }

  /** Every 16-bit value is assembled from its own two bytes. */
  lemma ReadDataOfBytes(data: bv16)
    ensures ReadData((data & 0xFF) as bv8, (data >> 8) as bv8) == data
  {
  }

  // ----- The I2C oracle -----

  /** An I2C transaction with the codec. */
  datatype I2cRequest =
    | WriteReg(addr: bv8, regByte: bv8, dataByte: bv8)
    | ReadReg(addr: bv8, regByte: bv8)

  /** The byte count the primitive returns, and the bytes a read received. */
  datatype I2cReply = I2cReply(count: nat, low: bv8, high: bv8)

  // ----- get_codec_config -----

  /**
   * The codecSSM2603 struct: the value of each field, keyed by where the
   * field comes from. A field that is not in the map still holds its
   * initial zero.
   */
  type CodecConfig = map<FieldSpec, bv8>

  /**
   * The field stores after one register read: the fields of `specs`, in
   * order, each set from `data`.
   */
  function Store(config: CodecConfig, specs: seq<FieldSpec>, data: bv16): CodecConfig
    requires forall i :: 0 <= i < |specs| ==> WellShaped(specs[i])
    decreases specs
  {
    if specs == [] then config
    else Store(config[specs[0] := FieldValue(specs[0], data)], specs[1..], data)
  }

  /** Store sets exactly the fields of `specs`, each to its bits of `data`. */
  lemma {:induction false} StoreAt(config: CodecConfig, specs: seq<FieldSpec>, data: bv16, s: FieldSpec)
    requires forall i :: 0 <= i < |specs| ==> WellShaped(specs[i])
    ensures s in Store(config, specs, data) <==> s in config || s in specs
    ensures s in specs ==> Store(config, specs, data)[s] == FieldValue(s, data)
    ensures s !in specs && s in config ==> Store(config, specs, data)[s] == config[s]
    decreases specs
  {
    if specs != [] {
      StoreAt(config[specs[0] := FieldValue(specs[0], data)], specs[1..], data, s);
    }
  }

  /** Every stored field is a well-shaped field holding fewer than 2^width. */
  predicate Bounded(config: CodecConfig)
  {
    forall s :: s in config ==> WellShaped(s) && (config[s] as bv32) < 1 << s.width
  }

  lemma StoreBounded(config: CodecConfig, specs: seq<FieldSpec>, data: bv16)
    requires forall i :: 0 <= i < |specs| ==> WellShaped(specs[i])
    requires Bounded(config)
    ensures Bounded(Store(config, specs, data))
  {
    forall s | s in Store(config, specs, data)
      ensures WellShaped(s) && (Store(config, specs, data)[s] as bv32) < 1 << s.width
    {
      StoreAt(config, specs, data, s);
    }
  }

  /**
   * A table of where each register's fields sit: every field it lists for
   * a register belongs to that register and fits its 9 data bits.
   */
  ghost predicate Shaped(layout: bv8 -> seq<FieldSpec>)
  {
    forall reg: bv8, i :: 0 <= i < |layout(reg)| ==> layout(reg)[i].reg == reg && WellShaped(layout(reg)[i])
  }

  /** get_codec_config's own table is one. */
  lemma LayoutShaped()
    ensures Shaped(Layout)
  {
    forall reg: bv8, i | 0 <= i < |Layout(reg)|
      ensures Layout(reg)[i].reg == reg && WellShaped(Layout(reg)[i])
    {
      LayoutValid(reg);
    }
  }

  /** The fields of `reg` stored from the reply to a successful read of it. */
  function Fill(layout: bv8 -> seq<FieldSpec>, config: CodecConfig, reg: bv8, reply: I2cReply): CodecConfig
    requires Shaped(layout)
  {
    Store(config, layout(reg), ReadData(reply.low, reply.high))
  }

  /**
   * The struct after reading each of `regs` in turn, the j-th with the
   * reply to transaction k + j, and storing its fields.
   */
  function Stored(layout: bv8 -> seq<FieldSpec>, bus: nat -> I2cReply, k: nat, config: CodecConfig,
                  regs: seq<bv8>): CodecConfig
    requires Shaped(layout)
    decreases |regs|
  {
    if regs == [] then config
    else
      var n := |regs| - 1;
      Fill(layout, Stored(layout, bus, k, config, regs[..n]), regs[n], bus(k + n))
  }

  /**
   * Of the `n` transactions from the `k`-th on, how many come before the
   * first that does not move 2 bytes (`n` if none).
   */
  function FirstShort(bus: nat -> I2cReply, k: nat, n: nat): (m: nat)
    ensures m <= n
    ensures forall j :: k <= j < k + m ==> bus(j).count == 2
    ensures m < n ==> bus(k + m).count != 2
    decreases n
  {
    if n == 0 || bus(k).count != 2 then 0 else 1 + FirstShort(bus, k + 1, n - 1)
  }

  /** FirstShort is the one count that meets its description. */
  lemma FirstShortIs(bus: nat -> I2cReply, k: nat, n: nat, i: nat)
    requires i <= n
    requires forall j :: k <= j < k + i ==> bus(j).count == 2
    requires i < n ==> bus(k + i).count != 2
    ensures FirstShort(bus, k, n) == i
  {
  }

  /** Reading one more register stores its fields over the struct so far. */
  lemma StoredStep(layout: bv8 -> seq<FieldSpec>, bus: nat -> I2cReply, k: nat, config: CodecConfig,
                   regs: seq<bv8>, i: nat)
    requires Shaped(layout) && i < |regs|
    ensures Stored(layout, bus, k, config, regs[..i + 1]) ==
      Fill(layout, Stored(layout, bus, k, config, regs[..i]), regs[i], bus(k + i))
  {
    assert regs[..i + 1][..i] == regs[..i];
  }

  /** A field of a register not among `regs` keeps its value. */
  lemma {:induction false} StoredKeeps(layout: bv8 -> seq<FieldSpec>, bus: nat -> I2cReply, k: nat,
                                       config: CodecConfig, regs: seq<bv8>, s: FieldSpec)
    requires Shaped(layout)
    requires s.reg !in regs
    ensures s in Stored(layout, bus, k, config, regs) <==> s in config
    ensures s in config ==> Stored(layout, bus, k, config, regs)[s] == config[s]
    decreases |regs|
  {
    if regs != [] {
      var n := |regs| - 1;
      assert s.reg != regs[n];
      var before := Stored(layout, bus, k, config, regs[..n]);
      StoredKeeps(layout, bus, k, config, regs[..n], s);
      StoreAt(before, layout(regs[n]), ReadData(bus(k + n).low, bus(k + n).high), s);
    }
  }

  /**
   * After reading distinct registers, each field of the j-th holds its
   * bits of the j-th reply.
   */
  lemma {:induction false} StoredHolds(layout: bv8 -> seq<FieldSpec>, bus: nat -> I2cReply, k: nat,
                                       config: CodecConfig, regs: seq<bv8>, j: nat, s: FieldSpec)
    requires Shaped(layout)
    requires forall a, b :: 0 <= a < b < |regs| ==> regs[a] != regs[b]
    requires j < |regs| && s in layout(regs[j])
    ensures s in Stored(layout, bus, k, config, regs)
    ensures Stored(layout, bus, k, config, regs)[s] == FieldValue(s, ReadData(bus(k + j).low, bus(k + j).high))
    decreases |regs|
  {
    var n := |regs| - 1;
    var before := Stored(layout, bus, k, config, regs[..n]);
    StoreAt(before, layout(regs[n]), ReadData(bus(k + n).low, bus(k + n).high), s);
    if j < n {
      assert s.reg == regs[j] != regs[n];
      StoredHolds(layout, bus, k, config, regs[..n], j, s);
    }
  }

  /** Reads only ever store field values that fit their field. */
  lemma {:induction false} StoredBounded(layout: bv8 -> seq<FieldSpec>, bus: nat -> I2cReply, k: nat,
                                         config: CodecConfig, regs: seq<bv8>)
    requires Shaped(layout)
    requires Bounded(config)
    ensures Bounded(Stored(layout, bus, k, config, regs))
    decreases |regs|
  {
    if regs != [] {
      var n := |regs| - 1;
      StoredBounded(layout, bus, k, config, regs[..n]);
      var specs := layout(regs[n]);
      forall i | 0 <= i < |specs|
        ensures WellShaped(specs[i])
      {
        var reg := regs[n];
        assert layout(reg)[i] == specs[i];
      }
      StoreBounded(Stored(layout, bus, k, config, regs[..n]), specs, ReadData(bus(k + n).low, bus(k + n).high));
    }
  }

  /**
   * The first `i` blocks of a run over `regs`, begun with `sent0` and
   * `config0`, have all read their register and stored its fields,
   * leaving `sent` and `config`.
   */
  ghost predicate ReadSoFar(layout: bv8 -> seq<FieldSpec>, bus: nat -> I2cReply, sent0: seq<I2cRequest>,
                            config0: CodecConfig, regs: seq<bv8>, i: nat, sent: seq<I2cRequest>, config: CodecConfig)
    requires Shaped(layout)
  {
    var k0 := |sent0|;
    && i <= |regs|
    && (forall j :: k0 <= j < k0 + i ==> bus(j).count == 2)
    && config == Stored(layout, bus, k0, config0, regs[..i])
    && |sent| == k0 + i
    && (forall j :: 0 <= j < k0 ==> sent[j] == sent0[j])
    && (forall j :: k0 <= j < |sent| ==> sent[j] == ReadReg(SSM2603_I2C_ADDR, regs[j - k0] << 1))
  }

  /**
   * The outcome of a run over `regs` begun with `sent0` and `config0`:
   * the reads before the first short one stored their fields, the run
   * made one transaction more than that if it stopped early, and it
   * fails exactly when it stopped early.
   */
  ghost predicate ReadDone(layout: bv8 -> seq<FieldSpec>, bus: nat -> I2cReply, sent0: seq<I2cRequest>,
                           config0: CodecConfig, regs: seq<bv8>, status: int, sent: seq<I2cRequest>, config: CodecConfig)
    requires Shaped(layout)
  {
    var k0 := |sent0|;
    var n := FirstShort(bus, k0, |regs|);
    && status == (if n == |regs| then XST_SUCCESS else XST_FAILURE)
    && config == Stored(layout, bus, k0, config0, regs[..n])
    && |sent| == k0 + (if n == |regs| then n else n + 1)
    && (forall j :: 0 <= j < k0 ==> sent[j] == sent0[j])
    && (forall j :: k0 <= j < |sent| ==> sent[j] == ReadReg(SSM2603_I2C_ADDR, regs[j - k0] << 1))
  }

  /** A block whose read succeeds keeps the run going. */
  lemma ReadSoFarNext(layout: bv8 -> seq<FieldSpec>, bus: nat -> I2cReply, sent0: seq<I2cRequest>,
                      config0: CodecConfig, regs: seq<bv8>, i: nat, sent: seq<I2cRequest>, config: CodecConfig)
    requires Shaped(layout) && i < |regs| && bus(|sent|).count == 2
    requires ReadSoFar(layout, bus, sent0, config0, regs, i, sent, config)
    ensures ReadSoFar(layout, bus, sent0, config0, regs, i + 1,
      sent + [ReadReg(SSM2603_I2C_ADDR, regs[i] << 1)], Fill(layout, config, regs[i], bus(|sent|)))
  {
    StoredStep(layout, bus, |sent0|, config0, regs, i);
  }

  /** A block whose read fails ends the run with XST_FAILURE. */
  lemma ReadSoFarStops(layout: bv8 -> seq<FieldSpec>, bus: nat -> I2cReply, sent0: seq<I2cRequest>,
                       config0: CodecConfig, regs: seq<bv8>, i: nat, sent: seq<I2cRequest>, config: CodecConfig)
    requires Shaped(layout) && i < |regs| && bus(|sent|).count != 2
    requires ReadSoFar(layout, bus, sent0, config0, regs, i, sent, config)
    ensures ReadDone(layout, bus, sent0, config0, regs, XST_FAILURE,
      sent + [ReadReg(SSM2603_I2C_ADDR, regs[i] << 1)], config)
  {
    FirstShortIs(bus, |sent0|, |regs|, i);
  }

  /** A run that has read all of `regs` is done with XST_SUCCESS. */
  lemma ReadSoFarDone(layout: bv8 -> seq<FieldSpec>, bus: nat -> I2cReply, sent0: seq<I2cRequest>,
                      config0: CodecConfig, regs: seq<bv8>, sent: seq<I2cRequest>, config: CodecConfig)
    requires Shaped(layout)
    requires ReadSoFar(layout, bus, sent0, config0, regs, |regs|, sent, config)
    ensures ReadDone(layout, bus, sent0, config0, regs, XST_SUCCESS, sent, config)
  {
    FirstShortIs(bus, |sent0|, |regs|, |regs|);
    assert regs[..|regs|] == regs;
  }

  /**
   * A run over distinct registers that is done with XST_SUCCESS has filled
   * each field of the j-th register with its bits of the j-th reply.
   */
  lemma ReadDoneHolds(layout: bv8 -> seq<FieldSpec>, bus: nat -> I2cReply, sent0: seq<I2cRequest>,
                      config0: CodecConfig, regs: seq<bv8>, sent: seq<I2cRequest>, config: CodecConfig,
                      j: nat, s: FieldSpec)
    requires Shaped(layout)
    requires forall a, b :: 0 <= a < b < |regs| ==> regs[a] != regs[b]
    requires ReadDone(layout, bus, sent0, config0, regs, XST_SUCCESS, sent, config)
    requires j < |regs| && s in layout(regs[j])
    ensures s in config
    ensures config[s] == FieldValue(s, ReadData(bus(|sent0| + j).low, bus(|sent0| + j).high))
  {
    assert regs[..|regs|] == regs;
    StoredHolds(layout, bus, |sent0|, config0, regs, j, s);
  }

  /**
   * However a run ends, a field of a register it did not read (it stops at
   * the first failing read) keeps the value it had before.
   */
  lemma ReadDoneKeeps(layout: bv8 -> seq<FieldSpec>, bus: nat -> I2cReply, sent0: seq<I2cRequest>,
                      config0: CodecConfig, regs: seq<bv8>, status: int, sent: seq<I2cRequest>,
                      config: CodecConfig, s: FieldSpec)
    requires Shaped(layout)
    requires ReadDone(layout, bus, sent0, config0, regs, status, sent, config)
    requires s.reg !in regs[..FirstShort(bus, |sent0|, |regs|)]
    ensures s in config <==> s in config0
    ensures s in config0 ==> config[s] == config0[s]
  {
    StoredKeeps(layout, bus, |sent0|, config0, regs[..FirstShort(bus, |sent0|, |regs|)], s);
  }

  /** A run stores only field values that fit their field. */
  lemma ReadDoneBounded(layout: bv8 -> seq<FieldSpec>, bus: nat -> I2cReply, sent0: seq<I2cRequest>,
                        config0: CodecConfig, regs: seq<bv8>, status: int, sent: seq<I2cRequest>,
                        config: CodecConfig)
    requires Shaped(layout) && Bounded(config0)
    requires ReadDone(layout, bus, sent0, config0, regs, status, sent, config)
    ensures Bounded(config)
  {
    StoredBounded(layout, bus, |sent0|, config0, regs[..FirstShort(bus, |sent0|, |regs|)]);
  }

  /** get_codec_config's table, as a Shaped value. */
  function CodecLayout(): (layout: bv8 -> seq<FieldSpec>)
    ensures Shaped(layout)
  {
    LayoutShaped();
    Layout
  }

  /**
   * After a get_codec_config that returned XST_SUCCESS, every field of the
   * struct holds its bits of the reply to its own register's read.
   */
  lemma CodecConfigHolds(bus: nat -> I2cReply, sent0: seq<I2cRequest>, config0: CodecConfig,
                         sent: seq<I2cRequest>, config: CodecConfig, j: nat, s: FieldSpec)
    requires ReadDone(CodecLayout(), bus, sent0, config0, ReadOrder(), XST_SUCCESS, sent, config)
    requires j < |ReadOrder()| && s in Layout(ReadOrder()[j])
    ensures s in config
    ensures config[s] == FieldValue(s, ReadData(bus(|sent0| + j).low, bus(|sent0| + j).high))
  {
    ReadOrderDistinct();
    ReadDoneHolds(CodecLayout(), bus, sent0, config0, ReadOrder(), sent, config, j, s);
  }

  // ----- configCodec -----

  /** One register write: the register and its 9-bit value. */
  datatype RegWrite = RegWrite(reg: bv8, data: bv16)

  /** The transaction that writes `w`: the two frame bytes of codec_write. */
  function WriteRequest(w: RegWrite): (request: I2cRequest)
    ensures request.WriteReg? && request.addr == SSM2603_I2C_ADDR
  {
    var frame := WriteFrame(w.reg, w.data);
    WriteReg(SSM2603_I2C_ADDR, frame[0], frame[1])
  }

  /** The codec decodes the transaction of a 7-bit register and 9-bit value as that write. */
  lemma WriteRequestDecodes(w: RegWrite)
    requires w.reg < 128 && w.data < 512
    ensures FrameRegister([WriteRequest(w).regByte, WriteRequest(w).dataByte]) == w.reg
    ensures FrameData([WriteRequest(w).regByte, WriteRequest(w).dataByte]) == w.data
  {
    FrameRoundTrip(w.reg, w.data);
    assert [WriteRequest(w).regByte, WriteRequest(w).dataByte] == WriteFrame(w.reg, w.data);
  }

  /**
   * configCodec's writes, in order: power up all but the output, route the
   * DAC to the output mixer with the microphone muted, 96 kHz from a
   * 12.288 MHz MCLK, unmute the DAC, set the active bit, power up the
   * output.
   */
  function ConfigSequence(): (ws: seq<RegWrite>)
    ensures |ws| == 6
  {
    [RegWrite(CODEC_PWR_MGMT, PM_PB_ONLY_EXT as bv16),
     RegWrite(CODEC_AN_AUDIO_PATH, (M_DACSEL | M_MUTEMIC) as bv16),
     RegWrite(CODEC_SAMPLE_RATE, ((7 as bv32) << B_SR) as bv16),
     RegWrite(CODEC_DIG_AUDIO_PATH, 0),
     RegWrite(CODEC_ACTIVE, M_ACTIVE as bv16),
     RegWrite(CODEC_PWR_MGMT, (PM_PB_ONLY_EXT & !M_OUT) as bv16)]
  }

  /**
   * The bring-up order the datasheet asks for: R6 is written first with
   * the output still powered down and last with only the output bit
   * changed; the active bit is set after every other register and before
   * that last write; every write fits the frame.
   */
  lemma ConfigSequenceOrder()
    ensures ConfigSequence()[0].reg == ConfigSequence()[5].reg == CODEC_PWR_MGMT
    ensures (ConfigSequence()[0].data as bv32) & M_OUT == M_OUT
    ensures (ConfigSequence()[5].data as bv32) & M_OUT == 0
    ensures (ConfigSequence()[0].data ^ ConfigSequence()[5].data) as bv32 == M_OUT
    ensures ConfigSequence()[4] == RegWrite(CODEC_ACTIVE, 1)
    ensures forall j :: 1 <= j < 4 ==> ConfigSequence()[j].reg !in {CODEC_PWR_MGMT, CODEC_ACTIVE}
    ensures forall j :: 0 <= j < 6 ==> ConfigSequence()[j].reg < 128 && ConfigSequence()[j].data < 512
  {
  }

  /**
   * A run of configCodec's writes of `ws` that started after `sent0` has
   * made its first `i` writes, all of which succeeded.
   */
  ghost predicate WriteSoFar(bus: nat -> I2cReply, sent0: seq<I2cRequest>, ws: seq<RegWrite>,
                             i: nat, sent: seq<I2cRequest>)
  {
    var k0 := |sent0|;
    && i <= |ws|
    && (forall j :: k0 <= j < k0 + i ==> bus(j).count == 2)
    && |sent| == k0 + i
    && (forall j :: 0 <= j < k0 ==> sent[j] == sent0[j])
    && (forall j :: k0 <= j < |sent| ==> sent[j] == WriteRequest(ws[j - k0]))
  }

  /**
   * The run is over: it made the writes of `ws` in order up to and
   * including the first whose transaction did not send 2 bytes, and
   * reports XST_FAILURE exactly when there was one.
   */
  ghost predicate WriteDone(bus: nat -> I2cReply, sent0: seq<I2cRequest>, ws: seq<RegWrite>,
                            status: int, sent: seq<I2cRequest>)
  {
    var k0 := |sent0|;
    var n := FirstShort(bus, k0, |ws|);
    && status == (if n == |ws| then XST_SUCCESS else XST_FAILURE)
    && |sent| == k0 + (if n == |ws| then n else n + 1)
    && (forall j :: 0 <= j < k0 ==> sent[j] == sent0[j])
    && (forall j :: k0 <= j < |sent| ==> sent[j] == WriteRequest(ws[j - k0]))
  }

  /** A write that sends its 2 bytes keeps the run going. */
  lemma WriteSoFarNext(bus: nat -> I2cReply, sent0: seq<I2cRequest>, ws: seq<RegWrite>,
                       i: nat, sent: seq<I2cRequest>)
    requires i < |ws| && bus(|sent|).count == 2 && WriteSoFar(bus, sent0, ws, i, sent)
    ensures WriteSoFar(bus, sent0, ws, i + 1, sent + [WriteRequest(ws[i])])
  {
  }

  /** A write that does not send its 2 bytes ends the run with XST_FAILURE. */
  lemma WriteSoFarStops(bus: nat -> I2cReply, sent0: seq<I2cRequest>, ws: seq<RegWrite>,
                        i: nat, sent: seq<I2cRequest>)
    requires i < |ws| && bus(|sent|).count != 2 && WriteSoFar(bus, sent0, ws, i, sent)
    ensures WriteDone(bus, sent0, ws, XST_FAILURE, sent + [WriteRequest(ws[i])])
  {
    FirstShortIs(bus, |sent0|, |ws|, i);
  }

  /** A run that has made all the writes of `ws` is done with XST_SUCCESS. */
  lemma WriteSoFarDone(bus: nat -> I2cReply, sent0: seq<I2cRequest>, ws: seq<RegWrite>, sent: seq<I2cRequest>)
    requires WriteSoFar(bus, sent0, ws, |ws|, sent)
    ensures WriteDone(bus, sent0, ws, XST_SUCCESS, sent)
  {
    FirstShortIs(bus, |sent0|, |ws|, |ws|);
  }

  /**
   * After configCodec's writes all succeeded, the codec was sent, in
   * order, transactions to its address that decode as the six writes.
   */
  lemma ConfigWritesDecode(bus: nat -> I2cReply, sent0: seq<I2cRequest>, sent: seq<I2cRequest>, j: nat)
    requires WriteDone(bus, sent0, ConfigSequence(), XST_SUCCESS, sent) && j < 6
    ensures |sent0| + j < |sent|
    ensures var r := sent[|sent0| + j];
      && r.WriteReg? && r.addr == SSM2603_I2C_ADDR
      && FrameRegister([r.regByte, r.dataByte]) == ConfigSequence()[j].reg
      && FrameData([r.regByte, r.dataByte]) == ConfigSequence()[j].data
  {
    ConfigSequenceOrder();
    WriteRequestDecodes(ConfigSequence()[j]);
  }

  // ----- The driver -----

  /**
   * The codec behind the I2C bus: every transaction the driver has made,
   * and the codecSSM2603 struct, whose fields sit where `layout` says.
   */
  class Codec {
    const bus: nat -> I2cReply
    const layout: bv8 -> seq<FieldSpec>
    var sent: seq<I2cRequest>
    var config: CodecConfig

    constructor(bus: nat -> I2cReply)
      ensures this.bus == bus && layout == CodecLayout() && sent == [] && config == map[]
      ensures Shaped(layout)
    {
      this.bus := bus;
      layout := CodecLayout();
      sent := [];
      config := map[];
    }

    /** i2c_write_reg: one write transaction; returns the bytes sent. */
    method I2cWriteReg(request: I2cRequest) returns (count: nat)
      requires request.WriteReg?
      modifies this
      ensures sent == old(sent) + [request] && config == old(config)
      ensures count == bus(|old(sent)|).count
    {
      count := bus(|sent|).count;
      sent := sent + [request];
    }

    /** i2c_read_reg: one read transaction; returns the bytes received and the two bytes. */
    method I2cReadReg(request: I2cRequest) returns (count: nat, low: bv8, high: bv8)
      requires request.ReadReg?
      modifies this
      ensures sent == old(sent) + [request] && config == old(config)
      ensures I2cReply(count, low, high) == bus(|old(sent)|)
    {
      var reply := bus(|sent|);
      count, low, high := reply.count, reply.low, reply.high;
      sent := sent + [request];
    }

    /** codec_write(reg, data): fails unless the frame's 2 bytes were sent. */
    method CodecWrite(reg: bv8, data: bv16) returns (status: int)
      modifies this
      ensures sent == old(sent) + [WriteRequest(RegWrite(reg, data))] && config == old(config)
      ensures status == (if bus(|old(sent)|).count == 2 then XST_SUCCESS else XST_FAILURE)
    {
      var frame := WriteFrame(reg, data);
      var count := I2cWriteReg(WriteReg(SSM2603_I2C_ADDR, frame[0], frame[1]));
      if count != 2 {
        return XST_FAILURE;
      }
      return XST_SUCCESS;
    }

    /** codec_read(reg, &data): fails unless 2 bytes came back; buf[1] is the high byte. */
    method CodecRead(reg: bv8) returns (status: int, data: bv16)
      modifies this
      ensures sent == old(sent) + [ReadReg(SSM2603_I2C_ADDR, reg << 1)] && config == old(config)
      ensures status == (if bus(|old(sent)|).count == 2 then XST_SUCCESS else XST_FAILURE)
      ensures status == XST_SUCCESS ==> data == ReadData(bus(|old(sent)|).low, bus(|old(sent)|).high)
    {
      var count, low, high := I2cReadReg(ReadReg(SSM2603_I2C_ADDR, reg << 1));
      if count != 2 {
        return XST_FAILURE, 0;
      }
      return XST_SUCCESS, ReadData(low, high);
    }

    /**
     * One block of get_codec_config: codec_read of `reg`, then, if it
     * succeeded, the stores of each field of `reg` into the struct.
     */
    method ReadRegister(reg: bv8) returns (status: int)
      requires Shaped(layout)
      modifies this
      ensures sent == old(sent) + [ReadReg(SSM2603_I2C_ADDR, reg << 1)]
      ensures status == (if bus(|old(sent)|).count == 2 then XST_SUCCESS else XST_FAILURE)
      ensures status == XST_SUCCESS ==> config == Fill(layout, old(config), reg, bus(|old(sent)|))
      ensures status != XST_SUCCESS ==> config == old(config)
    {
      var data;
      status, data := CodecRead(reg);
      if status == XST_SUCCESS {
        config := Store(config, layout(reg), data);
      }
    }

    /**
     * The blocks of get_codec_config for the registers `regs`, in order:
     * each reads its register and stores the register's fields, and the
     * first read that fails ends the run with XST_FAILURE.
     */
    method ReadRegisters(regs: seq<bv8>) returns (status: int)
      requires Shaped(layout)
      modifies this
      ensures ReadDone(layout, bus, old(sent), old(config), regs, status, sent, config)
    {
      ghost var sent0, config0 := sent, config;
      var i := 0;
      while i < |regs|
        invariant ReadSoFar(layout, bus, sent0, config0, regs, i, sent, config)
      {
        if bus(|sent|).count == 2 {
          ReadSoFarNext(layout, bus, sent0, config0, regs, i, sent, config);
        } else {
          ReadSoFarStops(layout, bus, sent0, config0, regs, i, sent, config);
        }
        status := ReadRegister(regs[i]);
        if status != XST_SUCCESS {
          return XST_FAILURE;
        }
        i := i + 1;
      }
      ReadSoFarDone(layout, bus, sent0, config0, regs, sent, config);
      return XST_SUCCESS;
    }

    /**
     * get_codec_config(): reads the 13 registers of ReadOrder() into the
     * struct and stops with XST_FAILURE at the first read that fails.
     */
    method GetCodecConfig() returns (status: int)
      requires Shaped(layout)
      modifies this
      ensures ReadDone(layout, bus, old(sent), old(config), ReadOrder(), status, sent, config)
    {
      status := ReadRegisters(ReadOrder());
    }

    /**
     * The writes of configCodec, in the order of `ws`: each is a
     * codec_write, and the first that fails ends the run with XST_FAILURE.
     */
    method WriteRegisters(ws: seq<RegWrite>) returns (status: int)
      modifies this
      ensures WriteDone(bus, old(sent), ws, status, sent) && config == old(config)
    {
      ghost var sent0 := sent;
      var i := 0;
      while i < |ws|
        invariant WriteSoFar(bus, sent0, ws, i, sent) && config == old(config)
      {
        if bus(|sent|).count == 2 {
          WriteSoFarNext(bus, sent0, ws, i, sent);
        } else {
          WriteSoFarStops(bus, sent0, ws, i, sent);
        }
        status := CodecWrite(ws[i].reg, ws[i].data);
        if status != XST_SUCCESS {
          return XST_FAILURE;
        }
        i := i + 1;
      }
      WriteSoFarDone(bus, sent0, ws, sent);
      return XST_SUCCESS;
    }

    /**
     * configCodec(): the writes of ConfigSequence() and then
     * get_codec_config(); XST_FAILURE as soon as either fails. When every
     * write went through, the reads follow the six writes on the bus.
     */
    method ConfigCodec() returns (status: int)
      requires Shaped(layout)
      modifies this
      ensures var k0 := |old(sent)|;
        FirstShort(bus, k0, 6) < 6 ==>
          && status == XST_FAILURE && config == old(config)
          && WriteDone(bus, old(sent), ConfigSequence(), XST_FAILURE, sent)
      ensures var k0 := |old(sent)|;
        FirstShort(bus, k0, 6) == 6 ==>
          && k0 + 6 <= |sent|
          && WriteDone(bus, old(sent), ConfigSequence(), XST_SUCCESS, sent[..k0 + 6])
          && ReadDone(layout, bus, sent[..k0 + 6], old(config), ReadOrder(), status, sent, config)
    {
      status := WriteRegisters(ConfigSequence());
      if status != XST_SUCCESS {
        return XST_FAILURE;
      }
      ghost var written := sent;
      status := GetCodecConfig();
      assert sent[..|written|] == written;
      if status != XST_SUCCESS {
        return XST_FAILURE;
      }
      return XST_SUCCESS;
    }
  }
}
