/*
 * The default frequency words of src/sw/midi/pitch.h: one phase increment
 * per MIDI key for the 128-note, 25 MHz time-multiplexed oscillator bank.
 */
module Pitch {

  /**
   * FreqWordDefaults[key]: the table has exactly one entry per MIDI key
   * 0..127. The entries are u32 in the firmware; they are numbers here, and
   * FreqWordBounds shows that each fits in 29 bits.
   */
  function FreqWordDefaults(key: nat): nat
    requires key < 128
  {
    match key
    case 0 => 0x0002be4b
    case 1 => 0x0002e80e
    case 2 => 0x0003144c
    case 3 => 0x0003432c
    case 4 => 0x000374d6
    case 5 => 0x0003a973
    case 6 => 0x0003e132
    case 7 => 0x00041c41
    case 8 => 0x00045ad3
    case 9 => 0x00049d1d
    case 10 => 0x0004e359
    case 11 => 0x00052dc2
    case 12 => 0x00057c97
    case 13 => 0x0005d01c
    case 14 => 0x00062899
    case 15 => 0x00068659
    case 16 => 0x0006e9ac
    case 17 => 0x000752e7
    case 18 => 0x0007c264
    case 19 => 0x00083882
    case 20 => 0x0008b5a6
    case 21 => 0x00093a3b
    case 22 => 0x0009c6b2
    case 23 => 0x000a5b84
    case 24 => 0x000af92e
    case 25 => 0x000ba039
    case 26 => 0x000c5133
    case 27 => 0x000d0cb3
    case 28 => 0x000dd359
    case 29 => 0x000ea5cf
    case 30 => 0x000f84c8
    case 31 => 0x00107104
    case 32 => 0x00116b4c
    case 33 => 0x00127476
    case 34 => 0x00138d65
    case 35 => 0x0014b708
    case 36 => 0x0015f25d
    case 37 => 0x00174073
    case 38 => 0x0018a267
    case 39 => 0x001a1966
    case 40 => 0x001ba6b2
    case 41 => 0x001d4b9e
    case 42 => 0x001f0991
    case 43 => 0x0020e209
    case 44 => 0x0022d699
    case 45 => 0x0024e8ed
    case 46 => 0x00271aca
    case 47 => 0x00296e10
    case 48 => 0x002be4bb
    case 49 => 0x002e80e7
    case 50 => 0x003144ce
    case 51 => 0x003432cd
    case 52 => 0x00374d65
    case 53 => 0x003a973d
    case 54 => 0x003e1323
    case 55 => 0x0041c413
    case 56 => 0x0045ad33
    case 57 => 0x0049d1db
    case 58 => 0x004e3594
    case 59 => 0x0052dc20
    case 60 => 0x0057c977
    case 61 => 0x005d01ce
    case 62 => 0x0062899c
    case 63 => 0x0068659a
    case 64 => 0x006e9aca
    case 65 => 0x00752e7a
    case 66 => 0x007c2647
    case 67 => 0x00838826
    case 68 => 0x008b5a66
    case 69 => 0x0093a3b6
    case 70 => 0x009c6b29
    case 71 => 0x00a5b840
    case 72 => 0x00af92ee
    case 73 => 0x00ba039d
    case 74 => 0x00c51339
    case 75 => 0x00d0cb35
    case 76 => 0x00dd3595
    case 77 => 0x00ea5cf4
    case 78 => 0x00f84c8e
    case 79 => 0x0107104d
    case 80 => 0x0116b4cd
    case 81 => 0x0127476c
    case 82 => 0x0138d653
    case 83 => 0x014b7081
    case 84 => 0x015f25dc
    case 85 => 0x0174073a
    case 86 => 0x018a2672
    case 87 => 0x01a1966a
    case 88 => 0x01ba6b2a
    case 89 => 0x01d4b9e8
    case 90 => 0x01f0991d
    case 91 => 0x020e209b
    case 92 => 0x022d699b
    case 93 => 0x024e8ed9
    case 94 => 0x0271aca6
    case 95 => 0x0296e102
    case 96 => 0x02be4bb8
    case 97 => 0x02e80e74
    case 98 => 0x03144ce4
    case 99 => 0x03432cd5
    case 100 => 0x0374d655
    case 101 => 0x03a973d0
    case 102 => 0x03e1323b
    case 103 => 0x041c4136
    case 104 => 0x045ad337
    case 105 => 0x049d1db2
    case 106 => 0x04e3594c
    case 107 => 0x052dc205
    case 108 => 0x057c9770
    case 109 => 0x05d01ce8
    case 110 => 0x062899c8
    case 111 => 0x068659ab
    case 112 => 0x06e9acaa
    case 113 => 0x0752e7a0
    case 114 => 0x07c26476
    case 115 => 0x0838826c
    case 116 => 0x08b5a66e
    case 117 => 0x093a3b65
    case 118 => 0x09c6b298
    case 119 => 0x0a5b840a
    case 120 => 0x0af92ee0
    case 121 => 0x0ba039d0
    case 122 => 0x0c513391
    case 123 => 0x0d0cb357
    case 124 => 0x0dd35954
    case 125 => 0x0ea5cf40
    case 126 => 0x0f84c8ec
    case 127 => 0x107104d9
  }

  /** Neighbouring keys: the higher key has the larger frequency word. */
  lemma FreqWordStep(key: nat)
    requires key < 127
    ensures FreqWordDefaults(key) < FreqWordDefaults(key + 1)
  {
    if key < 16 {
      FreqWordStepFrom0(key);
    } else if key < 32 {
      FreqWordStepFrom16(key);
    } else if key < 48 {
      FreqWordStepFrom32(key);
    } else if key < 64 {
      FreqWordStepFrom48(key);
    } else if key < 80 {
      FreqWordStepFrom64(key);
    } else if key < 96 {
      FreqWordStepFrom80(key);
    } else if key < 112 {
      FreqWordStepFrom96(key);
    } else {
      FreqWordStepFrom112(key);
    }
  }

  lemma FreqWordStepFrom0(key: nat)
    requires 0 <= key < 16
    ensures FreqWordDefaults(key) < FreqWordDefaults(key + 1)
  {
    match key
    case 0 =>
    case 1 =>
    case 2 =>
    case 3 =>
    case 4 =>
    case 5 =>
    case 6 =>
    case 7 =>
    case 8 =>
    case 9 =>
    case 10 =>
    case 11 =>
    case 12 =>
    case 13 =>
    case 14 =>
    case 15 =>
  }

  lemma FreqWordStepFrom16(key: nat)
    requires 16 <= key < 32
    ensures FreqWordDefaults(key) < FreqWordDefaults(key + 1)
  {
    match key
    case 16 =>
    case 17 =>
    case 18 =>
    case 19 =>
    case 20 =>
    case 21 =>
    case 22 =>
    case 23 =>
    case 24 =>
    case 25 =>
    case 26 =>
    case 27 =>
    case 28 =>
    case 29 =>
    case 30 =>
    case 31 =>
  }

  lemma FreqWordStepFrom32(key: nat)
    requires 32 <= key < 48
    ensures FreqWordDefaults(key) < FreqWordDefaults(key + 1)
  {
    match key
    case 32 =>
    case 33 =>
    case 34 =>
    case 35 =>
    case 36 =>
    case 37 =>
    case 38 =>
    case 39 =>
    case 40 =>
    case 41 =>
    case 42 =>
    case 43 =>
    case 44 =>
    case 45 =>
    case 46 =>
    case 47 =>
  }

  lemma FreqWordStepFrom48(key: nat)
    requires 48 <= key < 64
    ensures FreqWordDefaults(key) < FreqWordDefaults(key + 1)
  {
    match key
    case 48 =>
    case 49 =>
    case 50 =>
    case 51 =>
    case 52 =>
    case 53 =>
    case 54 =>
    case 55 =>
    case 56 =>
    case 57 =>
    case 58 =>
    case 59 =>
    case 60 =>
    case 61 =>
    case 62 =>
    case 63 =>
  }

  lemma FreqWordStepFrom64(key: nat)
    requires 64 <= key < 80
    ensures FreqWordDefaults(key) < FreqWordDefaults(key + 1)
  {
    match key
    case 64 =>
    case 65 =>
    case 66 =>
    case 67 =>
    case 68 =>
    case 69 =>
    case 70 =>
    case 71 =>
    case 72 =>
    case 73 =>
    case 74 =>
    case 75 =>
    case 76 =>
    case 77 =>
    case 78 =>
    case 79 =>
  }

  lemma FreqWordStepFrom80(key: nat)
    requires 80 <= key < 96
    ensures FreqWordDefaults(key) < FreqWordDefaults(key + 1)
  {
    match key
    case 80 =>
    case 81 =>
    case 82 =>
    case 83 =>
    case 84 =>
    case 85 =>
    case 86 =>
    case 87 =>
    case 88 =>
    case 89 =>
    case 90 =>
    case 91 =>
    case 92 =>
    case 93 =>
    case 94 =>
    case 95 =>
  }

  lemma FreqWordStepFrom96(key: nat)
    requires 96 <= key < 112
    ensures FreqWordDefaults(key) < FreqWordDefaults(key + 1)
  {
    match key
    case 96 =>
    case 97 =>
    case 98 =>
    case 99 =>
    case 100 =>
    case 101 =>
    case 102 =>
    case 103 =>
    case 104 =>
    case 105 =>
    case 106 =>
    case 107 =>
    case 108 =>
    case 109 =>
    case 110 =>
    case 111 =>
  }

  lemma FreqWordStepFrom112(key: nat)
    requires 112 <= key < 127
    ensures FreqWordDefaults(key) < FreqWordDefaults(key + 1)
  {
    match key
    case 112 =>
    case 113 =>
    case 114 =>
    case 115 =>
    case 116 =>
    case 117 =>
    case 118 =>
    case 119 =>
    case 120 =>
    case 121 =>
    case 122 =>
    case 123 =>
    case 124 =>
    case 125 =>
    case 126 =>
  }

  /** A sequence that grows at every step grows between any two indices. */
  lemma {:induction false} StepsCompose(s: seq<nat>, i: nat, j: nat)
    requires forall k :: 0 <= k < |s| - 1 ==> s[k] < s[k + 1]
    requires i < j < |s|
    ensures s[i] < s[j]
    decreases j - i
  {
    if i + 1 < j {
      StepsCompose(s, i + 1, j);
    }
  }

  /** The table is strictly increasing in the key. */
  lemma FreqWordIncreasing(i: nat, j: nat)
    requires i < j < 128
    ensures FreqWordDefaults(i) < FreqWordDefaults(j)
  {
    var table := seq(128, k requires 0 <= k < 128 => FreqWordDefaults(k));
    forall k | 0 <= k < 127
      ensures table[k] < table[k + 1]
    {
      FreqWordStep(k);
    }
    StepsCompose(table, i, j);
  }

  /**
   * Every entry is positive and below 2^29; the largest is the last,
   * 0x107104d9, so the frequency words never use the top three bits.
   */
  lemma FreqWordBounds(key: nat)
    requires key < 128
    ensures 0 < FreqWordDefaults(key) <= FreqWordDefaults(127) == 0x107104d9 < 0x2000_0000
  {
    if 0 < key {
      FreqWordIncreasing(0, key);
    }
    if key < 127 {
      FreqWordIncreasing(key, 127);
    }
  }

  /**
   * Octave consistency: the word twelve keys up is twice the word, or
   * twice the word plus one (the rounding of the precomputed table).
   */
  lemma FreqWordOctaveDoubles(key: nat)
    requires key < 116
    ensures 2 * FreqWordDefaults(key) <= FreqWordDefaults(key + 12) <= 2 * FreqWordDefaults(key) + 1
  {
    if key < 15 {
      FreqWordOctaveDoublesFrom0(key);
    } else if key < 30 {
      FreqWordOctaveDoublesFrom15(key);
    } else if key < 45 {
      FreqWordOctaveDoublesFrom30(key);
    } else if key < 60 {
      FreqWordOctaveDoublesFrom45(key);
    } else if key < 75 {
      FreqWordOctaveDoublesFrom60(key);
    } else if key < 90 {
      FreqWordOctaveDoublesFrom75(key);
    } else if key < 105 {
      FreqWordOctaveDoublesFrom90(key);
    } else {
      FreqWordOctaveDoublesFrom105(key);
    }
  }

  lemma FreqWordOctaveDoublesFrom0(key: nat)
    requires 0 <= key < 15
    ensures 2 * FreqWordDefaults(key) <= FreqWordDefaults(key + 12) <= 2 * FreqWordDefaults(key) + 1
  {
    match key
    case 0 =>
    case 1 =>
    case 2 =>
    case 3 =>
    case 4 =>
    case 5 =>
    case 6 =>
    case 7 =>
    case 8 =>
    case 9 =>
    case 10 =>
    case 11 =>
    case 12 =>
    case 13 =>
    case 14 =>
  }

  lemma FreqWordOctaveDoublesFrom15(key: nat)
    requires 15 <= key < 30
    ensures 2 * FreqWordDefaults(key) <= FreqWordDefaults(key + 12) <= 2 * FreqWordDefaults(key) + 1
  {
    match key
    case 15 =>
    case 16 =>
    case 17 =>
    case 18 =>
    case 19 =>
    case 20 =>
    case 21 =>
    case 22 =>
    case 23 =>
    case 24 =>
    case 25 =>
    case 26 =>
    case 27 =>
    case 28 =>
    case 29 =>
  }

  lemma FreqWordOctaveDoublesFrom30(key: nat)
    requires 30 <= key < 45
    ensures 2 * FreqWordDefaults(key) <= FreqWordDefaults(key + 12) <= 2 * FreqWordDefaults(key) + 1
  {
    match key
    case 30 =>
    case 31 =>
    case 32 =>
    case 33 =>
    case 34 =>
    case 35 =>
    case 36 =>
    case 37 =>
    case 38 =>
    case 39 =>
    case 40 =>
    case 41 =>
    case 42 =>
    case 43 =>
    case 44 =>
  }

  lemma FreqWordOctaveDoublesFrom45(key: nat)
    requires 45 <= key < 60
    ensures 2 * FreqWordDefaults(key) <= FreqWordDefaults(key + 12) <= 2 * FreqWordDefaults(key) + 1
  {
    match key
    case 45 =>
    case 46 =>
    case 47 =>
    case 48 =>
    case 49 =>
    case 50 =>
    case 51 =>
    case 52 =>
    case 53 =>
    case 54 =>
    case 55 =>
    case 56 =>
    case 57 =>
    case 58 =>
    case 59 =>
  }

  lemma FreqWordOctaveDoublesFrom60(key: nat)
    requires 60 <= key < 75
    ensures 2 * FreqWordDefaults(key) <= FreqWordDefaults(key + 12) <= 2 * FreqWordDefaults(key) + 1
  {
    match key
    case 60 =>
    case 61 =>
    case 62 =>
    case 63 =>
    case 64 =>
    case 65 =>
    case 66 =>
    case 67 =>
    case 68 =>
    case 69 =>
    case 70 =>
    case 71 =>
    case 72 =>
    case 73 =>
    case 74 =>
  }

  lemma FreqWordOctaveDoublesFrom75(key: nat)
    requires 75 <= key < 90
    ensures 2 * FreqWordDefaults(key) <= FreqWordDefaults(key + 12) <= 2 * FreqWordDefaults(key) + 1
  {
    match key
    case 75 =>
    case 76 =>
    case 77 =>
    case 78 =>
    case 79 =>
    case 80 =>
    case 81 =>
    case 82 =>
    case 83 =>
    case 84 =>
    case 85 =>
    case 86 =>
    case 87 =>
    case 88 =>
    case 89 =>
  }

  lemma FreqWordOctaveDoublesFrom90(key: nat)
    requires 90 <= key < 105
    ensures 2 * FreqWordDefaults(key) <= FreqWordDefaults(key + 12) <= 2 * FreqWordDefaults(key) + 1
  {
    match key
    case 90 =>
    case 91 =>
    case 92 =>
    case 93 =>
    case 94 =>
    case 95 =>
    case 96 =>
    case 97 =>
    case 98 =>
    case 99 =>
    case 100 =>
    case 101 =>
    case 102 =>
    case 103 =>
    case 104 =>
  }

  lemma FreqWordOctaveDoublesFrom105(key: nat)
    requires 105 <= key < 116
    ensures 2 * FreqWordDefaults(key) <= FreqWordDefaults(key + 12) <= 2 * FreqWordDefaults(key) + 1
  {
    match key
    case 105 =>
    case 106 =>
    case 107 =>
    case 108 =>
    case 109 =>
    case 110 =>
    case 111 =>
    case 112 =>
    case 113 =>
    case 114 =>
    case 115 =>
  }
}
