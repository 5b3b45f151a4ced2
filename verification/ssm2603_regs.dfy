/*
 * The SSM2603 register map of src/sw/ssm2603/ssm2603.h: register
 * addresses, the bit position (B_), mask (M_) and width (W_) of every
 * field, the power management presets (PM_), and the fields of the
 * codecSSM2603 struct that get_codec_config fills.
 *
 * The C constants are ints; they are modelled as bv32, the registers as
 * bv8 (AddressType is u8).
 */
module Ssm2603Regs {
  import opened Utils

  /** 7-bit I2C address of the codec. */
  const SSM2603_I2C_ADDR: bv8 := 0x1A

  // ----- Register map -----

  const CODEC_R0: bv8 := 0x00
  const CODEC_R1: bv8 := 0x01
  const CODEC_R2: bv8 := 0x02
  const CODEC_R3: bv8 := 0x03
  const CODEC_R4: bv8 := 0x04
  const CODEC_R5: bv8 := 0x05
  const CODEC_R6: bv8 := 0x06
  const CODEC_R7: bv8 := 0x07
  const CODEC_R8: bv8 := 0x08
  const CODEC_R9: bv8 := 0x09
  const CODEC_R15: bv8 := 0x0F
  const CODEC_R16: bv8 := 0x10
  const CODEC_R17: bv8 := 0x11
  const CODEC_R18: bv8 := 0x12

  const CODEC_L_ADC_VOL: bv8 := CODEC_R0
  const CODEC_R_ADC_VOL: bv8 := CODEC_R1
  const CODEC_L_DAC_VOL: bv8 := CODEC_R2
  const CODEC_R_DAC_VOL: bv8 := CODEC_R3
  const CODEC_AN_AUDIO_PATH: bv8 := CODEC_R4
  const CODEC_DIG_AUDIO_PATH: bv8 := CODEC_R5
  const CODEC_PWR_MGMT: bv8 := CODEC_R6
  const CODEC_DIG_AUDIO_IF: bv8 := CODEC_R7
  const CODEC_SAMPLE_RATE: bv8 := CODEC_R8
  const CODEC_ACTIVE: bv8 := CODEC_R9
  const CODEC_SW_RESET: bv8 := CODEC_R15
  const CODEC_ALC_CTRL1: bv8 := CODEC_R16
  const CODEC_ALC_CTRL2: bv8 := CODEC_R17
  const CODEC_NOISE_GATE: bv8 := CODEC_R18

  /** Every register of the map, R0..R9 and R15..R18. */
  function Registers(): (rs: seq<bv8>)
    ensures |rs| == 14
  {
    [CODEC_R0, CODEC_R1, CODEC_R2, CODEC_R3, CODEC_R4, CODEC_R5, CODEC_R6,
     CODEC_R7, CODEC_R8, CODEC_R9, CODEC_R15, CODEC_R16, CODEC_R17, CODEC_R18]
  }

  // ----- Bit positions within registers -----
  const B_LRINBOTH: bv32 := 8
  const B_LINMUTE: bv32 := 7
  const B_LINVOL: bv32 := 0
  const B_RLINBOTH: bv32 := 8
  const B_RINMUTE: bv32 := 7
  const B_RINVOL: bv32 := 0
  const B_LRHPBOTH: bv32 := 8
  const B_LHPVOL: bv32 := 0
  const B_RLHPBOTH: bv32 := 8
  const B_RHPVOL: bv32 := 0
  const B_SIDETONE_ATT: bv32 := 6
  const B_SIDETONE_EN: bv32 := 5
  const B_DACSEL: bv32 := 4
  const B_BYPASS: bv32 := 3
  const B_INSEL: bv32 := 2
  const B_MUTEMIC: bv32 := 1
  const B_MICBOOST: bv32 := 0
  const B_HPOR: bv32 := 4
  const B_DACMU: bv32 := 3
  const B_DEEMPH: bv32 := 1
  const B_ADCHPF: bv32 := 0
  const B_PWROFF: bv32 := 7
  const B_CLKOUT: bv32 := 6
  const B_OSC: bv32 := 5
  const B_OUT: bv32 := 4
  const B_DAC: bv32 := 3
  const B_ADC: bv32 := 2
  const B_MIC: bv32 := 1
  const B_LINEIN: bv32 := 0
  const B_BCLKINV: bv32 := 7
  const B_MS: bv32 := 6
  const B_LRSWAP: bv32 := 5
  const B_LRP: bv32 := 4
  const B_WL: bv32 := 2
  const B_FORMAT: bv32 := 0
  const B_CLKODIV2: bv32 := 7
  const B_CLKDIV2: bv32 := 6
  const B_SR: bv32 := 2
  const B_BOSR: bv32 := 1
  const B_USB: bv32 := 0
  const B_ACTIVE: bv32 := 0
  const B_RESET: bv32 := 0
  const B_ALCSEL: bv32 := 7
  const B_MAXGAIN: bv32 := 4
  const B_ALCL: bv32 := 0
  const B_DCY: bv32 := 4
  const B_ATK: bv32 := 0
  const B_NGTH: bv32 := 3
  const B_NGG: bv32 := 1
  const B_NGAT: bv32 := 0

  // ----- Bit masks within registers -----

  const M_LRINBOTH: bv32 := 0x100
  const M_LINMUTE: bv32 := 0x080
  const M_LINVOL: bv32 := 0x03F
  const M_RLINBOTH: bv32 := 0x100
  const M_RINMUTE: bv32 := 0x080
  const M_RINVOL: bv32 := 0x03F
  const M_LRHPBOTH: bv32 := 0x100
  const M_LHPVOL: bv32 := 0x07F
  const M_RLHPBOTH: bv32 := 0x100
  const M_RHPVOL: bv32 := 0x07F
  const M_SIDETONE_ATT: bv32 := 0x0C0
  const M_SIDETONE_EN: bv32 := 0x020
  const M_DACSEL: bv32 := 0x010
  const M_BYPASS: bv32 := 0x008
  const M_INSEL: bv32 := 0x004
  const M_MUTEMIC: bv32 := 0x002
  const M_MICBOOST: bv32 := 0x001
  const M_HPOR: bv32 := 0x010
  const M_DACMU: bv32 := 0x008
  const M_DEEMPH: bv32 := 0x006
  const M_ADCHPF: bv32 := 0x001
  const M_PWROFF: bv32 := 0x080
  const M_CLKOUT: bv32 := 0x040
  const M_OSC: bv32 := 0x020
  const M_OUT: bv32 := 0x010
  const M_DAC: bv32 := 0x008
  const M_ADC: bv32 := 0x004
  const M_MIC: bv32 := 0x002
  const M_LINEIN: bv32 := 0x001
  const M_BCLKINV: bv32 := 0x080
  const M_MS: bv32 := 0x040
  const M_LRSWAP: bv32 := 0x020
  const M_LRP: bv32 := 0x010
  const M_WL: bv32 := 0x00C
  const M_FORMAT: bv32 := 0x003
  const M_CLKODIV2: bv32 := 0x080
  const M_CLKDIV2: bv32 := 0x040
  const M_SR: bv32 := 0x03C
  const M_BOSR: bv32 := 0x002
  const M_USB: bv32 := 0x001
  const M_ACTIVE: bv32 := 0x001
  const M_RESET: bv32 := 0x1FF
  const M_ALCSEL: bv32 := 0x180
  const M_MAXGAIN: bv32 := 0x070
  const M_ALCL: bv32 := 0x00F
  const M_DCY: bv32 := 0x0F0
  const M_ATK: bv32 := 0x00F
  const M_NGTH: bv32 := 0x0F8
  const M_NGG: bv32 := 0x006
  const M_NGAT: bv32 := 0x001

  // ----- Field widths -----

  const W_INVOL: bv32 := 6
  const W_HPVOL: bv32 := 7
  const W_SIDETONE_ATT: bv32 := 2
  const W_DEEMPH: bv32 := 2
  const W_WL: bv32 := 2
  const W_FORMAT: bv32 := 2
  const W_SR: bv32 := 4
  const W_ALSEL: bv32 := 2
  const W_MAXGAIN: bv32 := 3
  const W_ALCL: bv32 := 4
  const W_DCY: bv32 := 4
  const W_ATK: bv32 := 4
  const W_NGTH: bv32 := 5
  const W_NGG: bv32 := 2

  // ----- Power management presets (R6 bits are power-down bits) -----

  /** The R6 value that powers up exactly the blocks in `up`. */
  function PowerPreset(up: bv32): (v: bv32)
    ensures v <= 0xFF && v & up == 0 && v | (up & 0xFF) == 0xFF
  {
    !up & 0xFF
  }

  const PM_REC_AND_PB: bv32 := !(M_PWROFF | M_CLKOUT | M_OSC | M_DAC | M_ADC | M_MIC | M_LINEIN) & 0xFF
  const PM_PB_ONLY_OSC: bv32 := !(M_PWROFF | M_CLKOUT | M_OSC | M_DAC) & 0xFF
  const PM_PB_ONLY_EXT: bv32 := !(M_PWROFF | M_DAC) & 0xFF
  const PM_REC_LINEIN_OSC: bv32 := !(M_PWROFF | M_CLKOUT | M_OSC | M_ADC | M_LINEIN) & 0xFF
  const PM_REC_LINEIN_EXT: bv32 := !(M_PWROFF | M_CLKOUT | M_ADC | M_LINEIN) & 0xFF
  // As written: B_MIC (the position 1) where the mask M_MIC was meant
  const PM_REC_MICIN_OSC: bv32 := !(M_PWROFF | M_CLKOUT | M_OSC | M_ADC | B_MIC) & 0xFF
  const PM_REC_MICIN_EXT: bv32 := !(M_PWROFF | M_CLKOUT | M_ADC | M_MIC) & 0xFF
  const PM_MIC_TO_LINEOUT: bv32 := !(M_PWROFF | M_CLKOUT | M_MIC) & 0xFF
  const PM_ANALOG_BYPASS: bv32 := !(M_PWROFF | M_CLKOUT | M_LINEIN) & 0xFF
  const PM_POWER_DOWN: bv32 := 0xFF

  /** PM_REC_MICIN_OSC as evidently intended, with the mask M_MIC. */
  const PM_REC_MICIN_OSC_CORRECTED: bv32 := PowerPreset(M_PWROFF | M_CLKOUT | M_OSC | M_ADC | M_MIC)

  /** Every preset, in the order of the header, as the header writes them. */
  function HeaderPowerPresets(): (ps: seq<bv32>)
    ensures |ps| == 10
  {
    [PM_REC_AND_PB, PM_PB_ONLY_OSC, PM_PB_ONLY_EXT, PM_REC_LINEIN_OSC, PM_REC_LINEIN_EXT,
     PM_REC_MICIN_OSC, PM_REC_MICIN_EXT, PM_MIC_TO_LINEOUT, PM_ANALOG_BYPASS, PM_POWER_DOWN]
  }

  /** Every preset, in the order of the header, with PM_REC_MICIN_OSC as corrected. */
  function PowerPresets(): (ps: seq<bv32>)
    ensures |ps| == 10
  {
    [PM_REC_AND_PB, PM_PB_ONLY_OSC, PM_PB_ONLY_EXT, PM_REC_LINEIN_OSC, PM_REC_LINEIN_EXT,
     PM_REC_MICIN_OSC_CORRECTED, PM_REC_MICIN_EXT, PM_MIC_TO_LINEOUT, PM_ANALOG_BYPASS, PM_POWER_DOWN]
  }

  // ----- The fields of codecSSM2603_t -----

  /** One field of the codecSSM2603 struct, in declaration order. */
  datatype Field =
      LrInBoth
    | RlInBoth
    | LinMute
    | RinMute
    | LinVol
    | RinVol
    | LrHpBoth
    | RlHpBoth
    | LhpVol
    | RhpVol
    | SidetoneAttn
    | SidetoneEn
    | DacSel
    | Bypass
    | InSel
    | MuteMic
    | MicBoost
    | Hpor
    | DacMu
    | Deemph
    | AdcHpf
    | PwrOff
    | ClkOut
    | Osc
    | Out
    | Dac
    | Adc
    | Mic
    | LineIn
    | BclkInv
    | Ms
    | LrSwap
    | Lrp
    | Wl
    | Format
    | ClkODiv2
    | ClkDiv2
    | Sr
    | Bosr
    | Usb
    | Active
    | AlcSel
    | MaxGain
    | Alcl
    | Dcy
    | Atk
    | Ngth
    | Ngg
    | Ngat

  /**
   * Where a field of codecSSM2603 comes from: its register, its B_
   * position, its width (its W_ constant, or 1 for a field read with
   * GET_BIT) and its M_ mask.
   */
  datatype FieldSpec = FieldSpec(reg: bv8, field: Field, pos: bv32, width: bv32, mask: bv32)

  /**
   * The field is 1 to 7 bits wide, lies within the 9 data bits, and its
   * mask is its width of ones at its position.
   */
  predicate WellShaped(s: FieldSpec)
  {
    s.pos <= 8 && 1 <= s.width <= 7 && s.pos + s.width <= 9 && s.mask <= 0x1FF
    && s.mask == LowMask(s.width) << s.pos
  }

  /**
   * The registers get_codec_config reads, in its order: every register but
   * the software reset R15.
   */
  function ReadOrder(): (rs: seq<bv8>)
    ensures |rs| == 13
  {
    [CODEC_R0, CODEC_R1, CODEC_R2, CODEC_R3, CODEC_R4, CODEC_R5, CODEC_R6, CODEC_R7, CODEC_R8, CODEC_R9, CODEC_R16, CODEC_R17, CODEC_R18]
  }

  /** The fields get_codec_config stores from `reg`, in its order. */
  function Layout(reg: bv8): seq<FieldSpec>
  {
    if reg == CODEC_R0 then
      [FieldSpec(CODEC_R0, LrInBoth, B_LRINBOTH, 1, M_LRINBOTH),
       FieldSpec(CODEC_R0, LinMute, B_LINMUTE, 1, M_LINMUTE),
       FieldSpec(CODEC_R0, LinVol, B_LINVOL, W_INVOL, M_LINVOL)]
    else if reg == CODEC_R1 then
      [FieldSpec(CODEC_R1, RlInBoth, B_RLINBOTH, 1, M_RLINBOTH),
       FieldSpec(CODEC_R1, RinMute, B_RINMUTE, 1, M_RINMUTE),
       FieldSpec(CODEC_R1, RinVol, B_RINVOL, W_INVOL, M_RINVOL)]
    else if reg == CODEC_R2 then
      [FieldSpec(CODEC_R2, LrHpBoth, B_LRHPBOTH, 1, M_LRHPBOTH),
       FieldSpec(CODEC_R2, LhpVol, B_LHPVOL, W_HPVOL, M_LHPVOL)]
    else if reg == CODEC_R3 then
      [FieldSpec(CODEC_R3, RlHpBoth, B_RLHPBOTH, 1, M_RLHPBOTH),
       FieldSpec(CODEC_R3, RhpVol, B_RHPVOL, W_HPVOL, M_RHPVOL)]
    else if reg == CODEC_R4 then
      [FieldSpec(CODEC_R4, SidetoneAttn, B_SIDETONE_ATT, W_SIDETONE_ATT, M_SIDETONE_ATT),
       FieldSpec(CODEC_R4, SidetoneEn, B_SIDETONE_EN, 1, M_SIDETONE_EN),
       FieldSpec(CODEC_R4, DacSel, B_DACSEL, 1, M_DACSEL),
       FieldSpec(CODEC_R4, Bypass, B_BYPASS, 1, M_BYPASS),
       FieldSpec(CODEC_R4, InSel, B_INSEL, 1, M_INSEL),
       FieldSpec(CODEC_R4, MuteMic, B_MUTEMIC, 1, M_MUTEMIC),
       FieldSpec(CODEC_R4, MicBoost, B_MICBOOST, 1, M_MICBOOST)]
    else if reg == CODEC_R5 then
      [FieldSpec(CODEC_R5, Hpor, B_HPOR, 1, M_HPOR),
       FieldSpec(CODEC_R5, DacMu, B_DACMU, 1, M_DACMU),
       FieldSpec(CODEC_R5, Deemph, B_DEEMPH, W_DEEMPH, M_DEEMPH),
       FieldSpec(CODEC_R5, AdcHpf, B_ADCHPF, 1, M_ADCHPF)]
    else if reg == CODEC_R6 then
      [FieldSpec(CODEC_R6, PwrOff, B_PWROFF, 1, M_PWROFF),
       FieldSpec(CODEC_R6, ClkOut, B_CLKOUT, 1, M_CLKOUT),
       FieldSpec(CODEC_R6, Osc, B_OSC, 1, M_OSC),
       FieldSpec(CODEC_R6, Out, B_OUT, 1, M_OUT),
       FieldSpec(CODEC_R6, Dac, B_DAC, 1, M_DAC),
       FieldSpec(CODEC_R6, Adc, B_ADC, 1, M_ADC),
       FieldSpec(CODEC_R6, Mic, B_MIC, 1, M_MIC),
       FieldSpec(CODEC_R6, LineIn, B_LINEIN, 1, M_LINEIN)]
    else if reg == CODEC_R7 then
      [FieldSpec(CODEC_R7, BclkInv, B_BCLKINV, 1, M_BCLKINV),
       FieldSpec(CODEC_R7, Ms, B_MS, 1, M_MS),
       FieldSpec(CODEC_R7, LrSwap, B_LRSWAP, 1, M_LRSWAP),
       FieldSpec(CODEC_R7, Lrp, B_LRP, 1, M_LRP),
       FieldSpec(CODEC_R7, Wl, B_WL, W_WL, M_WL),
       FieldSpec(CODEC_R7, Format, B_FORMAT, W_FORMAT, M_FORMAT)]
    else if reg == CODEC_R8 then
      [FieldSpec(CODEC_R8, ClkODiv2, B_CLKODIV2, 1, M_CLKODIV2),
       FieldSpec(CODEC_R8, ClkDiv2, B_CLKDIV2, 1, M_CLKDIV2),
       FieldSpec(CODEC_R8, Sr, B_SR, W_SR, M_SR),
       FieldSpec(CODEC_R8, Bosr, B_BOSR, 1, M_BOSR),
       FieldSpec(CODEC_R8, Usb, B_USB, 1, M_USB)]
    else if reg == CODEC_R9 then
      [FieldSpec(CODEC_R9, Active, B_ACTIVE, 1, M_ACTIVE)]
    else if reg == CODEC_R16 then
      [FieldSpec(CODEC_R16, AlcSel, B_ALCSEL, W_ALSEL, M_ALCSEL),
       FieldSpec(CODEC_R16, MaxGain, B_MAXGAIN, W_MAXGAIN, M_MAXGAIN),
       FieldSpec(CODEC_R16, Alcl, B_ALCL, W_ALCL, M_ALCL)]
    else if reg == CODEC_R17 then
      [FieldSpec(CODEC_R17, Dcy, B_DCY, W_DCY, M_DCY),
       FieldSpec(CODEC_R17, Atk, B_ATK, W_ATK, M_ATK)]
    else if reg == CODEC_R18 then
      [FieldSpec(CODEC_R18, Ngth, B_NGTH, W_NGTH, M_NGTH),
       FieldSpec(CODEC_R18, Ngg, B_NGG, W_NGG, M_NGG),
       FieldSpec(CODEC_R18, Ngat, B_NGAT, 1, M_NGAT)]
    else []
  }

  /** Every field of `specs` is a well-shaped field of register `reg`. */
  predicate FieldsOfRegister(reg: bv8, specs: seq<FieldSpec>)
  {
    forall i :: 0 <= i < |specs| ==> specs[i].reg == reg && WellShaped(specs[i])
  }

  /** No two fields of `specs` share a mask bit. */
  predicate MasksDisjoint(specs: seq<FieldSpec>)
  {
    forall i, j :: 0 <= i < j < |specs| ==> specs[i].mask & specs[j].mask == 0
  }

  lemma FieldsR0()
    ensures FieldsOfRegister(CODEC_R0, Layout(CODEC_R0))
  {
  }

  lemma MasksR0()
    ensures MasksDisjoint(Layout(CODEC_R0))
  {
  }

  lemma FieldsR1()
    ensures FieldsOfRegister(CODEC_R1, Layout(CODEC_R1))
  {
  }

  lemma MasksR1()
    ensures MasksDisjoint(Layout(CODEC_R1))
  {
  }

  lemma FieldsR2()
    ensures FieldsOfRegister(CODEC_R2, Layout(CODEC_R2))
  {
  }

  lemma MasksR2()
    ensures MasksDisjoint(Layout(CODEC_R2))
  {
  }

  lemma FieldsR3()
    ensures FieldsOfRegister(CODEC_R3, Layout(CODEC_R3))
  {
  }

  lemma MasksR3()
    ensures MasksDisjoint(Layout(CODEC_R3))
  {
  }

  lemma FieldsR4()
    ensures FieldsOfRegister(CODEC_R4, Layout(CODEC_R4))
  {
  }

  lemma MasksR4()
    ensures MasksDisjoint(Layout(CODEC_R4))
  {
  }

  lemma FieldsR5()
    ensures FieldsOfRegister(CODEC_R5, Layout(CODEC_R5))
  {
  }

  lemma MasksR5()
    ensures MasksDisjoint(Layout(CODEC_R5))
  {
  }

  lemma FieldsR6()
    ensures FieldsOfRegister(CODEC_R6, Layout(CODEC_R6))
  {
  }

  lemma MasksR6()
    ensures MasksDisjoint(Layout(CODEC_R6))
  {
  }

  lemma FieldsR7()
    ensures FieldsOfRegister(CODEC_R7, Layout(CODEC_R7))
  {
  }

  lemma MasksR7()
    ensures MasksDisjoint(Layout(CODEC_R7))
  {
  }

  lemma FieldsR8()
    ensures FieldsOfRegister(CODEC_R8, Layout(CODEC_R8))
  {
  }

  lemma MasksR8()
    ensures MasksDisjoint(Layout(CODEC_R8))
  {
  }

  lemma FieldsR9()
    ensures FieldsOfRegister(CODEC_R9, Layout(CODEC_R9))
  {
  }

  lemma MasksR9()
    ensures MasksDisjoint(Layout(CODEC_R9))
  {
  }

  lemma FieldsR16()
    ensures FieldsOfRegister(CODEC_R16, Layout(CODEC_R16))
  {
  }

  lemma MasksR16()
    ensures MasksDisjoint(Layout(CODEC_R16))
  {
  }

  lemma FieldsR17()
    ensures FieldsOfRegister(CODEC_R17, Layout(CODEC_R17))
  {
  }

  lemma MasksR17()
    ensures MasksDisjoint(Layout(CODEC_R17))
  {
  }

  lemma FieldsR18()
    ensures FieldsOfRegister(CODEC_R18, Layout(CODEC_R18))
  {
  }

  lemma MasksR18()
    ensures MasksDisjoint(Layout(CODEC_R18))
  {
  }

  /**
   * In every register, each field get_codec_config stores lies in that
   * register's 9 data bits, and no two fields share a bit. (A register it
   * does not read has no fields.)
   */
  lemma LayoutValid(reg: bv8)
    ensures FieldsOfRegister(reg, Layout(reg))
    ensures MasksDisjoint(Layout(reg))
  {
    if reg == CODEC_R0 {
      FieldsR0();
      MasksR0();
    } else if reg == CODEC_R1 {
      FieldsR1();
      MasksR1();
    } else if reg == CODEC_R2 {
      FieldsR2();
      MasksR2();
    } else if reg == CODEC_R3 {
      FieldsR3();
      MasksR3();
    } else if reg == CODEC_R4 {
      FieldsR4();
      MasksR4();
    } else if reg == CODEC_R5 {
      FieldsR5();
      MasksR5();
    } else if reg == CODEC_R6 {
      FieldsR6();
      MasksR6();
    } else if reg == CODEC_R7 {
      FieldsR7();
      MasksR7();
    } else if reg == CODEC_R8 {
      FieldsR8();
      MasksR8();
    } else if reg == CODEC_R9 {
      FieldsR9();
      MasksR9();
    } else if reg == CODEC_R16 {
      FieldsR16();
      MasksR16();
    } else if reg == CODEC_R17 {
      FieldsR17();
      MasksR17();
    } else if reg == CODEC_R18 {
      FieldsR18();
      MasksR18();
    } else {
      assert Layout(reg) == [];
    }
  }

  /**
   * Every M_ mask is its field's width of ones moved to its B_ position:
   * M_x == ((1 << W_x) - 1) << B_x, and M_x == 1 << B_x for one bit.
   */
  lemma MasksMatchPositions()
    ensures M_LRINBOTH == 1 << B_LRINBOTH
    ensures M_LINMUTE == 1 << B_LINMUTE
    ensures M_LINVOL == LowMask(W_INVOL) << B_LINVOL
    ensures M_RLINBOTH == 1 << B_RLINBOTH
    ensures M_RINMUTE == 1 << B_RINMUTE
    ensures M_RINVOL == LowMask(W_INVOL) << B_RINVOL
    ensures M_LRHPBOTH == 1 << B_LRHPBOTH
    ensures M_LHPVOL == LowMask(W_HPVOL) << B_LHPVOL
    ensures M_RLHPBOTH == 1 << B_RLHPBOTH
    ensures M_RHPVOL == LowMask(W_HPVOL) << B_RHPVOL
    ensures M_SIDETONE_ATT == LowMask(W_SIDETONE_ATT) << B_SIDETONE_ATT
    ensures M_SIDETONE_EN == 1 << B_SIDETONE_EN
    ensures M_DACSEL == 1 << B_DACSEL
    ensures M_BYPASS == 1 << B_BYPASS
    ensures M_INSEL == 1 << B_INSEL
    ensures M_MUTEMIC == 1 << B_MUTEMIC
    ensures M_MICBOOST == 1 << B_MICBOOST
    ensures M_HPOR == 1 << B_HPOR
    ensures M_DACMU == 1 << B_DACMU
    ensures M_DEEMPH == LowMask(W_DEEMPH) << B_DEEMPH
    ensures M_ADCHPF == 1 << B_ADCHPF
    ensures M_PWROFF == 1 << B_PWROFF
    ensures M_CLKOUT == 1 << B_CLKOUT
    ensures M_OSC == 1 << B_OSC
    ensures M_OUT == 1 << B_OUT
    ensures M_DAC == 1 << B_DAC
    ensures M_ADC == 1 << B_ADC
    ensures M_MIC == 1 << B_MIC
    ensures M_LINEIN == 1 << B_LINEIN
    ensures M_BCLKINV == 1 << B_BCLKINV
    ensures M_MS == 1 << B_MS
    ensures M_LRSWAP == 1 << B_LRSWAP
    ensures M_LRP == 1 << B_LRP
    ensures M_WL == LowMask(W_WL) << B_WL
    ensures M_FORMAT == LowMask(W_FORMAT) << B_FORMAT
    ensures M_CLKODIV2 == 1 << B_CLKODIV2
    ensures M_CLKDIV2 == 1 << B_CLKDIV2
    ensures M_SR == LowMask(W_SR) << B_SR
    ensures M_BOSR == 1 << B_BOSR
    ensures M_USB == 1 << B_USB
    ensures M_ACTIVE == 1 << B_ACTIVE
    ensures M_ALCSEL == LowMask(W_ALSEL) << B_ALCSEL
    ensures M_MAXGAIN == LowMask(W_MAXGAIN) << B_MAXGAIN
    ensures M_ALCL == LowMask(W_ALCL) << B_ALCL
    ensures M_DCY == LowMask(W_DCY) << B_DCY
    ensures M_ATK == LowMask(W_ATK) << B_ATK
    ensures M_NGTH == LowMask(W_NGTH) << B_NGTH
    ensures M_NGG == LowMask(W_NGG) << B_NGG
    ensures M_NGAT == 1 << B_NGAT
  {
  }

  /**
   * A field as get_codec_config stores it from the 16-bit register value
   * `data`: GET_BIT at its position for a one-bit field, GET_BITS from its
   * position over its width otherwise, kept in a u8.
   */
  function FieldValue(s: FieldSpec, data: bv16): (v: bv8)
    requires WellShaped(s)
    ensures (v as bv32) < 1 << s.width
  {
    if s.width == 1 then GetBit(data as bv32, s.pos) as bv8
    else
      var r := GetBits(data as bv32, s.pos, s.pos + s.width - 1);
      assert r < 128 by { ShiftMonotone(s.width, 7); }
      r as bv8
  }

  /** A stored field is the register's bits under the field's mask, moved down to bit 0. */
  lemma FieldValueIsMasked(s: FieldSpec, data: bv16)
    requires WellShaped(s)
    ensures FieldValue(s, data) as bv32 == ((data as bv32) & s.mask) >> s.pos
  {
    if s.width == 1 {
      BitIsMasked(s, data);
    } else {
      BitsAreMasked(s, data);
    }
  }

  lemma BitIsMasked(s: FieldSpec, data: bv16)
    requires WellShaped(s) && s.width == 1
    ensures FieldValue(s, data) as bv32 == ((data as bv32) & s.mask) >> s.pos
  {
    GetBitIsMasked(data as bv32, s.pos);
  }

  lemma BitsAreMasked(s: FieldSpec, data: bv16)
    requires WellShaped(s) && s.width != 1
    ensures FieldValue(s, data) as bv32 == ((data as bv32) & s.mask) >> s.pos
  {
    GetBitsIsMasked(data as bv32, s.pos, s.pos + s.width - 1);
  }

  /** A value that fits the field, placed at the field's position, is stored back unchanged. */
  lemma FieldValueOfPlaced(s: FieldSpec, v: bv8, data: bv16)
    requires WellShaped(s) && (v as bv32) < 1 << s.width
    requires data as bv32 == (v as bv32) << s.pos
    ensures FieldValue(s, data) == v
  {
    if s.width != 1 {
      GetBitsOfPlaced(v as bv32, s.pos, s.pos + s.width - 1);
    }
  }

  lemma ShiftMonotone(w: bv32, m: bv32)
    requires w <= m < 32
    ensures (1 as bv32) << w <= (1 as bv32) << m
  {
  }

  /**
   * The register addresses are distinct and below 0x13, so `reg << 1`
   * keeps every address bit in one byte.
   */
  lemma RegistersDistinct()
    ensures forall i, j :: 0 <= i < j < |Registers()| ==> Registers()[i] != Registers()[j]
    ensures forall r :: r in Registers() ==> r < 0x13 && (r << 1) >> 1 == r
  {
  }

  /** get_codec_config reads each register once. */
  lemma ReadOrderDistinct()
    ensures forall i, j :: 0 <= i < j < |ReadOrder()| ==> ReadOrder()[i] != ReadOrder()[j]
  {
  }

  /**
   * The presets: each fits in R6's power-down byte and no two power up
   * the same blocks; playback with an external clock is 0x77 and full
   * power-down 0xFF.
   */
  lemma PowerPresetValues()
    ensures forall p :: p in PowerPresets() ==> p <= 0xFF
    ensures forall i, j :: 0 <= i < j < |PowerPresets()| ==> PowerPresets()[i] != PowerPresets()[j]
    ensures PM_PB_ONLY_EXT == 0x77 && PM_POWER_DOWN == 0xFF
    ensures PM_PB_ONLY_EXT == PowerPreset(M_PWROFF | M_DAC)
    ensures PM_REC_LINEIN_OSC ^ PM_REC_LINEIN_EXT == M_OSC
  {
  }

  /**
   * The header's own list: the only two presets that are equal are
   * PM_REC_LINEIN_OSC and PM_REC_MICIN_OSC, and PowerPresets differs from
   * it in the PM_REC_MICIN_OSC slot alone.
   */
  lemma HeaderPowerPresetValues()
    ensures forall i, j :: 0 <= i < j < |HeaderPowerPresets()| ==>
      (HeaderPowerPresets()[i] == HeaderPowerPresets()[j] <==> i == 3 && j == 5)
    ensures PowerPresets() == HeaderPowerPresets()[5 := PM_REC_MICIN_OSC_CORRECTED]
  {
  }

  /**
   * As written, PM_REC_MICIN_OSC is 0x1A: it keeps the microphone powered
   * down and powers up line-in, so it equals PM_REC_LINEIN_OSC and differs
   * from its external-clock sibling in more than the oscillator bit.
   */
  lemma MicInOscPresetAsWritten()
    ensures PM_REC_MICIN_OSC == 0x1A == PM_REC_LINEIN_OSC
    ensures PM_REC_MICIN_OSC & M_MIC != 0 && PM_REC_MICIN_OSC & M_LINEIN == 0
    ensures PM_REC_MICIN_OSC ^ PM_REC_MICIN_EXT == M_OSC | M_MIC | M_LINEIN
  {
  }

  /**
   * With M_MIC the preset is 0x19: the microphone is powered up, line-in
   * stays down, and it differs from PM_REC_MICIN_EXT only in the
   * oscillator bit, as the line-in pair does.
   */
  lemma MicInOscPresetCorrected()
    ensures PM_REC_MICIN_OSC_CORRECTED == 0x19
    ensures PM_REC_MICIN_OSC_CORRECTED & M_MIC == 0 && PM_REC_MICIN_OSC_CORRECTED & M_LINEIN != 0
    ensures PM_REC_MICIN_OSC_CORRECTED ^ PM_REC_MICIN_EXT == M_OSC
  {
  }
}
