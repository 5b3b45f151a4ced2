/*
 * The first MIDI receiver, kept in src/sw/midi.c and, as a static copy
 * over a global MidiBuffer, in src/sw/main.c. It reads the data bytes of
 * the channel voice messages only, prints them and writes no register;
 * a 0xF_ status, like any byte below 0x80, is taken alone. main.c polls
 * the receiver before each message, so the status byte is always fresh.
 */
module MidiLegacy {
  import opened Utils
  import opened MidiDefs
  import opened MidiMessages
  import opened Serial
  import Midi

  /** MIDI_BUFFER_SIZE of src/sw/midi.h and src/sw/main.c. */
  const LEGACY_MIDI_BUFFER_SIZE: nat := 100

  /** The data bytes the first receiver reads after `status`. */
  function LegacyDataLength(status: bv8): (n: nat)
    ensures Command(status) != SYS_CMD ==> n == DataLength(status)
    ensures Command(status) == SYS_CMD ==> n == 0
  {
    var cmd := Command(status);
    if cmd in {NOTE_OFF, NOTE_ON, POLY_PRESSURE, CONTROL_CHANGE, PITCH_BEND} then 2
    else if cmd in {PROG_CHANGE, CH_PRESSURE} then 1
    else 0
  }

  /**
   * The first receiver, given `status` with the line at `start` and
   * `before` in the buffer, took the status's data bytes into the buffer
   * and returned success, or waits forever for bytes that never come.
   */
  predicate LegacyHandled(uart: Uart, buffer: array<bv8>, status: bv8, start: nat,
                          before: seq<bv8>, outcome: Midi.Outcome)
    reads uart, buffer
    requires start <= |uart.input| && |before| == buffer.Length == LEGACY_MIDI_BUFFER_SIZE
  {
    var n := LegacyDataLength(status);
    if start + n <= |uart.input| then
      && outcome == Midi.Returned(XST_SUCCESS)
      && uart.pos == start + n
      && buffer[..] == uart.input[start..start + n] + before[n..]
    else
      && outcome == Midi.Blocked
      && uart.pos == |uart.input|
  }

  /**
   * rxMidiMsg(MidiPs, MidiBuffer): takes one byte (the old MidiBuffer[0]
   * if none is waiting), reads the data of a channel voice message and
   * returns XST_SUCCESS whatever the byte was.
   */
  method RxMidiMsg(uart: Uart, buffer: array<bv8>) returns (outcome: Midi.Outcome)
    requires uart.Valid() && buffer.Length == LEGACY_MIDI_BUFFER_SIZE
    modifies uart, buffer
    ensures uart.Valid()
    ensures old(uart.Pending()) > 0 ==>
      LegacyHandled(uart, buffer, uart.input[old(uart.pos)], old(uart.pos) + 1,
        old(buffer[..])[0 := uart.input[old(uart.pos)]], outcome)
    ensures old(uart.Pending()) == 0 ==>
      LegacyHandled(uart, buffer, old(buffer[0]), old(uart.pos), old(buffer[..]), outcome)
  {
    var _ := uart.Recv(buffer, 0, 1);
    assert old(uart.Pending()) > 0 ==> buffer[..] == old(buffer[..])[0 := uart.input[old(uart.pos)]];
    assert old(uart.Pending()) == 0 ==> buffer[..] == old(buffer[..]);
    var command := Command(buffer[0]);
    var n := 0;
    if command in {NOTE_OFF, NOTE_ON, POLY_PRESSURE, CONTROL_CHANGE, PITCH_BEND} {
      n := 2;
    } else if command in {PROG_CHANGE, CH_PRESSURE} {
      n := 1;
    }
    if n > 0 {
      var complete := ReadMidi(uart, buffer, n);
      if !complete {
        return Midi.Blocked;
      }
    }
    outcome := Midi.Returned(XST_SUCCESS);
  }

  /**
   * One pass of main's loop (src/sw/main.c): wait until the UART holds a
   * byte, then process a message. With the line silent the wait never ends.
   */
  method PollAndReceive(uart: Uart, buffer: array<bv8>) returns (outcome: Midi.Outcome)
    requires uart.Valid() && buffer.Length == LEGACY_MIDI_BUFFER_SIZE
    modifies uart, buffer
    ensures uart.Valid()
    ensures old(uart.Pending()) == 0 ==>
      outcome == Midi.Blocked && uart.pos == old(uart.pos) && buffer[..] == old(buffer[..])
    ensures old(uart.Pending()) > 0 ==>
      LegacyHandled(uart, buffer, uart.input[old(uart.pos)], old(uart.pos) + 1,
        old(buffer[..])[0 := uart.input[old(uart.pos)]], outcome)
  {
    if uart.Pending() == 0 {
      return Midi.Blocked;
    }
    outcome := RxMidiMsg(uart, buffer);
  }

  /**
   * On every status but 0xF_ the first receiver takes the same bytes as
   * the current one: it completes exactly when Parse does, after the same
   * number of data bytes.
   */
  lemma LegacyAgreesOutsideSystemMessages(status: bv8, rest: seq<bv8>)
    requires Command(status) != SYS_CMD
    ensures Parse(status, rest).Complete? <==> LegacyDataLength(status) <= |rest|
    ensures Parse(status, rest).Complete? ==> Parse(status, rest).used == LegacyDataLength(status)
  {
    StatusSplit(status);
    assert status != SYS_CMD | SYS_EXCL_START;
  }

  /**
   * On a 0xF_ status the first receiver reads nothing, so the data bytes
   * of Song Position, Quarter Frame, Song Select and System Exclusive are
   * left on the line to be taken as status bytes; the current receiver
   * reads them with the message.
   */
  lemma LegacyLeavesSystemData(status: bv8, rest: seq<bv8>)
    requires Command(status) == SYS_CMD
    requires Channel(status) in {SYS_EXCL_START, SYS_QTR_FRAME, SYS_POS_PTR, SYS_SONG_SEL}
    requires Parse(status, rest).Complete?
    ensures LegacyDataLength(status) == 0 < Parse(status, rest).used
  {
    StatusSplit(status);
  }
}
