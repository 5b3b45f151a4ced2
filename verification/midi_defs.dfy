/*
 * MIDI constants of the firmware (src/sw/midi/midi.h): status commands,
 * channel-mode controller numbers, system sub-codes and the note-name table.
 * Bytes are `bv8` (the firmware's `u8`).
 */
module MidiDefs {

  const ON: bv8 := 1
  const OFF: bv8 := 0

  /** Size of the global MIDI receive buffer. */
  const MIDI_BUFFER_SIZE: nat := 128

  // channel voice messages (high nibble of the status byte)
  const NOTE_OFF: bv8 := 0x80
  const NOTE_ON: bv8 := 0x90
  const POLY_PRESSURE: bv8 := 0xA0
  const CONTROL_CHANGE: bv8 := 0xB0
  const PROG_CHANGE: bv8 := 0xC0
  const CH_PRESSURE: bv8 := 0xD0
  const PITCH_BEND: bv8 := 0xE0

  // channel mode messages (controller numbers)
  const ALL_SOUND_OFF: bv8 := 0x78
  const RESET_ALL: bv8 := 0x79
  const LOCAL_CONTROL: bv8 := 0x7A
  const ALL_NOTES_OFF: bv8 := 0x7B
  const OMNI_MODE_OFF: bv8 := 0x7C
  const OMNI_MODE_ON: bv8 := 0x7D
  const MONO_MODE_ON: bv8 := 0x7E
  const POLY_MODE_ON: bv8 := 0x7F

  // system common messages: SYS_CMD is a high nibble, the others are low
  // nibbles, except SYS_EXCL_END, which is a whole status byte
  const SYS_CMD: bv8 := 0xF0
  const SYS_EXCL_START: bv8 := 0x00
  const SYS_EXCL_END: bv8 := 0xF7
  const SYS_QTR_FRAME: bv8 := 0x01
  const SYS_POS_PTR: bv8 := 0x02
  const SYS_SONG_SEL: bv8 := 0x03
  const SYS_TUNE: bv8 := 0x06
  // system real-time messages (low nibbles)
  const SYS_CLK: bv8 := 0x08
  const SYS_START: bv8 := 0x0A
  const SYS_CONTINUE: bv8 := 0x0B
  const SYS_STOP: bv8 := 0x0C
  const SYS_SENSING: bv8 := 0x0E
  const SYS_RESET: bv8 := 0x0F

  /** The command bytes rxMidiMsg switches on, in the order of the header. */
  function ChannelVoiceCommands(): seq<bv8> {
    [NOTE_OFF, NOTE_ON, POLY_PRESSURE, CONTROL_CHANGE, PROG_CHANGE, CH_PRESSURE, PITCH_BEND]
  }

  function ChannelModeControllers(): seq<bv8> {
    [ALL_SOUND_OFF, RESET_ALL, LOCAL_CONTROL, ALL_NOTES_OFF,
     OMNI_MODE_OFF, OMNI_MODE_ON, MONO_MODE_ON, POLY_MODE_ON]
  }

  function SystemSubCodes(): seq<bv8> {
    [SYS_EXCL_START, SYS_QTR_FRAME, SYS_POS_PTR, SYS_SONG_SEL, SYS_TUNE,
     SYS_CLK, SYS_START, SYS_CONTINUE, SYS_STOP, SYS_SENSING, SYS_RESET]
  }

  /** The channel voice commands are 0x80, 0x90, ..., 0xE0: distinct, with a zero low nibble. */
  lemma ChannelVoiceCommandsAreHighNibbles()
    ensures |ChannelVoiceCommands()| == 7
    ensures forall i :: 0 <= i < 7 ==> ChannelVoiceCommands()[i] == 0x80 + 0x10 * (i as bv8)
    ensures forall i :: 0 <= i < 7 ==> ChannelVoiceCommands()[i] & 0x0F == 0
    ensures forall i, j :: 0 <= i < j < 7 ==> ChannelVoiceCommands()[i] != ChannelVoiceCommands()[j]
  {
  }

  /** The channel mode messages are exactly controllers 120..127, in order. */
  lemma ChannelModeControllersAre120To127()
    ensures |ChannelModeControllers()| == 8
    ensures forall i :: 0 <= i < 8 ==> ChannelModeControllers()[i] as int == 120 + i
  {
  }

  /**
   * The system sub-codes are distinct low-nibble values, matched against
   * `status & 0x0F`; SYS_EXCL_END is the whole byte SYS_CMD | 0x07.
   */
  lemma SystemSubCodesAreLowNibbles()
    ensures forall i :: 0 <= i < |SystemSubCodes()| ==> SystemSubCodes()[i] < 16
    ensures forall i, j :: 0 <= i < j < |SystemSubCodes()| ==> SystemSubCodes()[i] != SystemSubCodes()[j]
    ensures SYS_EXCL_END == SYS_CMD | 0x07 && SYS_EXCL_END & 0xF0 == SYS_CMD
  {
  }

  /** MIDI_NOTE_NAMES: the printable name of each of the 128 MIDI keys. */
  function MidiNoteName(key: nat): string
    requires key < 128
  {
    match key
    case 0 => "C0  "
    case 1 => "Db0 "
    case 2 => "D0  "
    case 3 => "Eb0 "
    case 4 => "E0  "
    case 5 => "F0  "
    case 6 => "Gb0 "
    case 7 => "G0  "
    case 8 => "Ab0 "
    case 9 => "A0  "
    case 10 => "Bb0 "
    case 11 => "B0  "
    case 12 => "C1  "
    case 13 => "Db1 "
    case 14 => "D1  "
    case 15 => "Eb1 "
    case 16 => "E1  "
    case 17 => "F1  "
    case 18 => "Gb1 "
    case 19 => "G1  "
    case 20 => "Ab1 "
    case 21 => "A1  "
    case 22 => "Bb1 "
    case 23 => "B1  "
    case 24 => "C2  "
    case 25 => "Db2 "
    case 26 => "D2  "
    case 27 => "Eb2 "
    case 28 => "E2  "
    case 29 => "F2  "
    case 30 => "Gb2 "
    case 31 => "G2  "
    case 32 => "Ab2 "
    case 33 => "A2  "
    case 34 => "Bb2 "
    case 35 => "B2  "
    case 36 => "C3  "
    case 37 => "Db3 "
    case 38 => "D3  "
    case 39 => "Eb3 "
    case 40 => "E3  "
    case 41 => "F3  "
    case 42 => "Gb3 "
    case 43 => "G3  "
    case 44 => "Ab3 "
    case 45 => "A3  "
    case 46 => "Bb3 "
    case 47 => "B3  "
    case 48 => "C4  "
    case 49 => "Db4 "
    case 50 => "D4  "
    case 51 => "Eb4 "
    case 52 => "E4  "
    case 53 => "F4  "
    case 54 => "Gb4 "
    case 55 => "G4  "
    case 56 => "Ab4 "
    case 57 => "A4  "
    case 58 => "Bb4 "
    case 59 => "B4  "
    case 60 => "C5  "
    case 61 => "Db5 "
    case 62 => "D5  "
    case 63 => "Eb5 "
    case 64 => "E5  "
    case 65 => "F5  "
    case 66 => "Gb5 "
    case 67 => "G5  "
    case 68 => "Ab5 "
    case 69 => "A5  "
    case 70 => "Bb5 "
    case 71 => "B5  "
    case 72 => "C6  "
    case 73 => "Db6 "
    case 74 => "D6  "
    case 75 => "Eb6 "
    case 76 => "E6  "
    case 77 => "F6  "
    case 78 => "Gb6 "
    case 79 => "G6  "
    case 80 => "Ab6 "
    case 81 => "A6  "
    case 82 => "Bb6 "
    case 83 => "B6  "
    case 84 => "C7  "
    case 85 => "Db7 "
    case 86 => "D7  "
    case 87 => "Eb7 "
    case 88 => "E7  "
    case 89 => "F7  "
    case 90 => "Gb7 "
    case 91 => "G7  "
    case 92 => "Ab7 "
    case 93 => "A7  "
    case 94 => "Bb7 "
    case 95 => "B7  "
    case 96 => "C8  "
    case 97 => "Db8 "
    case 98 => "D8  "
    case 99 => "Eb8 "
    case 100 => "E8  "
    case 101 => "F8  "
    case 102 => "Gb8 "
    case 103 => "G8  "
    case 104 => "Ab8 "
    case 105 => "A8  "
    case 106 => "Bb8 "
    case 107 => "B8  "
    case 108 => "C9  "
    case 109 => "Db9 "
    case 110 => "D9  "
    case 111 => "Eb9 "
    case 112 => "E9  "
    case 113 => "F9  "
    case 114 => "Gb9 "
    case 115 => "G9  "
    case 116 => "Ab9 "
    case 117 => "A9  "
    case 118 => "Bb9 "
    case 119 => "B9  "
    case 120 => "C10 "
    case 121 => "Db10"
    case 122 => "D10 "
    case 123 => "Eb10"
    case 124 => "E10 "
    case 125 => "F10 "
    case 126 => "Gb10"
    case 127 => "G10 "
  }

  /** Names of the twelve pitch classes, as the table spells them. */
  function PitchClassName(pc: nat): string
    requires pc < 12
  {
    match pc
    case 0 => "C" case 1 => "Db" case 2 => "D" case 3 => "Eb"
    case 4 => "E" case 5 => "F" case 6 => "Gb" case 7 => "G"
    case 8 => "Ab" case 9 => "A" case 10 => "Bb" case 11 => "B"
  }

  /** Decimal digits of an octave number 0..10. */
  function OctaveDigits(octave: nat): string
    requires octave <= 10
  {
    if octave == 10 then "10" else [('0' as int + octave) as char]
  }

  /** Right-pads a name of at most four characters with spaces. */
  function Pad4(s: string): (r: string)
    requires |s| <= 4
    ensures |r| == 4 && r[..|s|] == s
  {
    if |s| == 4 then s
    else if |s| == 3 then s + " "
    else if |s| == 2 then s + "  "
    else if |s| == 1 then s + "   "
    else "    "
  }

  /** An independent statement of the table: pitch class k mod 12, octave k / 12. */
  function NoteNameOf(key: nat): string
    requires key < 128
  {
    Pad4(PitchClassName(key % 12) + OctaveDigits(key / 12))
  }

  /**
   * Every entry of MIDI_NOTE_NAMES names pitch class key mod 12 in
   * octave key / 12 and is four characters long (so entry 60 is "C5  ").
   */
  lemma NoteNamesFollowPitchClassAndOctave(key: nat)
    requires key < 128
    ensures MidiNoteName(key) == NoteNameOf(key)
    ensures |MidiNoteName(key)| == 4
  {
    if key < 48 {
      NoteNamesOfOctaves0To3(key);
    } else if key < 96 {
      NoteNamesOfOctaves4To7(key);
    } else {
      NoteNamesOfOctaves8To10(key);
    }
  }

  /** Keys 0..47 follow the rule, octave by octave. */
  lemma NoteNamesOfOctaves0To3(key: nat)
    requires key < 48
    ensures MidiNoteName(key) == NoteNameOf(key)
  {
    if key < 12 {
      NoteNamesOfOctave0(key - 0);
      NoteNameInOctave(key, 0);
    }
    else if key < 24 {
      NoteNamesOfOctave1(key - 12);
      NoteNameInOctave(key, 1);
    }
    else if key < 36 {
      NoteNamesOfOctave2(key - 24);
      NoteNameInOctave(key, 2);
    }
    else {
      NoteNamesOfOctave3(key - 36);
      NoteNameInOctave(key, 3);
    }
  }

  /** Keys 48..95 follow the rule, octave by octave. */
  lemma NoteNamesOfOctaves4To7(key: nat)
    requires 48 <= key < 96
    ensures MidiNoteName(key) == NoteNameOf(key)
  {
    if key < 60 {
      NoteNamesOfOctave4(key - 48);
      NoteNameInOctave(key, 4);
    }
    else if key < 72 {
      NoteNamesOfOctave5(key - 60);
      NoteNameInOctave(key, 5);
    }
    else if key < 84 {
      NoteNamesOfOctave6(key - 72);
      NoteNameInOctave(key, 6);
    }
    else {
      NoteNamesOfOctave7(key - 84);
      NoteNameInOctave(key, 7);
    }
  }

  /** Keys 96..127 follow the rule, octave by octave. */
  lemma NoteNamesOfOctaves8To10(key: nat)
    requires 96 <= key < 128
    ensures MidiNoteName(key) == NoteNameOf(key)
  {
    if key < 108 {
      NoteNamesOfOctave8(key - 96);
      NoteNameInOctave(key, 8);
    }
    else if key < 120 {
      NoteNamesOfOctave9(key - 108);
      NoteNameInOctave(key, 9);
    }
    else {
      NoteNamesOfOctave10(key - 120);
      NoteNameInOctave(key, 10);
    }
  }

  /** The entry of `key` in octave `o` is NoteNameOf(key) once it is known as the octave's pitch class entry. */
  lemma NoteNameInOctave(key: nat, o: nat)
    requires key < 128 && 12 * o <= key < 12 * o + 12
    requires MidiNoteName(key) == Pad4(PitchClassName(key - 12 * o) + OctaveDigits(o))
    ensures MidiNoteName(key) == NoteNameOf(key)
  {
    assert key / 12 == o && key % 12 == key - 12 * o;
  }

  lemma NoteNamesOfOctave0(pc: nat)
    requires pc < 12
    ensures MidiNoteName(0 + pc) == Pad4(PitchClassName(pc) + OctaveDigits(0))
  {
    match pc
      case 0 =>
      case 1 =>
      case 2 =>
      case 3 =>
      case 4 =>
      case 5 =>
      case 6 =>
      case 7 =>
      case 8 =>
      case 9 =>
      case 10 =>
      case 11 =>
  }

  lemma NoteNamesOfOctave1(pc: nat)
    requires pc < 12
    ensures MidiNoteName(12 + pc) == Pad4(PitchClassName(pc) + OctaveDigits(1))
  {
    match pc
      case 0 =>
      case 1 =>
      case 2 =>
      case 3 =>
      case 4 =>
      case 5 =>
      case 6 =>
      case 7 =>
      case 8 =>
      case 9 =>
      case 10 =>
      case 11 =>
  }

  lemma NoteNamesOfOctave2(pc: nat)
    requires pc < 12
    ensures MidiNoteName(24 + pc) == Pad4(PitchClassName(pc) + OctaveDigits(2))
  {
    match pc
      case 0 =>
      case 1 =>
      case 2 =>
      case 3 =>
      case 4 =>
      case 5 =>
      case 6 =>
      case 7 =>
      case 8 =>
      case 9 =>
      case 10 =>
      case 11 =>
  }

  lemma NoteNamesOfOctave3(pc: nat)
    requires pc < 12
    ensures MidiNoteName(36 + pc) == Pad4(PitchClassName(pc) + OctaveDigits(3))
  {
    match pc
      case 0 =>
      case 1 =>
      case 2 =>
      case 3 =>
      case 4 =>
      case 5 =>
      case 6 =>
      case 7 =>
      case 8 =>
      case 9 =>
      case 10 =>
      case 11 =>
  }

  lemma NoteNamesOfOctave4(pc: nat)
    requires pc < 12
    ensures MidiNoteName(48 + pc) == Pad4(PitchClassName(pc) + OctaveDigits(4))
  {
    match pc
      case 0 =>
      case 1 =>
      case 2 =>
      case 3 =>
      case 4 =>
      case 5 =>
      case 6 =>
      case 7 =>
      case 8 =>
      case 9 =>
      case 10 =>
      case 11 =>
  }

  lemma NoteNamesOfOctave5(pc: nat)
    requires pc < 12
    ensures MidiNoteName(60 + pc) == Pad4(PitchClassName(pc) + OctaveDigits(5))
  {
    match pc
      case 0 =>
      case 1 =>
      case 2 =>
      case 3 =>
      case 4 =>
      case 5 =>
      case 6 =>
      case 7 =>
      case 8 =>
      case 9 =>
      case 10 =>
      case 11 =>
  }

  lemma NoteNamesOfOctave6(pc: nat)
    requires pc < 12
    ensures MidiNoteName(72 + pc) == Pad4(PitchClassName(pc) + OctaveDigits(6))
  {
    match pc
      case 0 =>
      case 1 =>
      case 2 =>
      case 3 =>
      case 4 =>
      case 5 =>
      case 6 =>
      case 7 =>
      case 8 =>
      case 9 =>
      case 10 =>
      case 11 =>
  }

  lemma NoteNamesOfOctave7(pc: nat)
    requires pc < 12
    ensures MidiNoteName(84 + pc) == Pad4(PitchClassName(pc) + OctaveDigits(7))
  {
    match pc
      case 0 =>
      case 1 =>
      case 2 =>
      case 3 =>
      case 4 =>
      case 5 =>
      case 6 =>
      case 7 =>
      case 8 =>
      case 9 =>
      case 10 =>
      case 11 =>
  }

  lemma NoteNamesOfOctave8(pc: nat)
    requires pc < 12
    ensures MidiNoteName(96 + pc) == Pad4(PitchClassName(pc) + OctaveDigits(8))
  {
    match pc
      case 0 =>
      case 1 =>
      case 2 =>
      case 3 =>
      case 4 =>
      case 5 =>
      case 6 =>
      case 7 =>
      case 8 =>
      case 9 =>
      case 10 =>
      case 11 =>
  }

  lemma NoteNamesOfOctave9(pc: nat)
    requires pc < 12
    ensures MidiNoteName(108 + pc) == Pad4(PitchClassName(pc) + OctaveDigits(9))
  {
    match pc
      case 0 =>
      case 1 =>
      case 2 =>
      case 3 =>
      case 4 =>
      case 5 =>
      case 6 =>
      case 7 =>
      case 8 =>
      case 9 =>
      case 10 =>
      case 11 =>
  }

  lemma NoteNamesOfOctave10(pc: nat)
    requires pc < 8
    ensures MidiNoteName(120 + pc) == Pad4(PitchClassName(pc) + OctaveDigits(10))
  {
    match pc
      case 0 =>
      case 1 =>
      case 2 =>
      case 3 =>
      case 4 =>
      case 5 =>
      case 6 =>
      case 7 =>
  }
}
