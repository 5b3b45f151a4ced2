/*
 * The receive side of the MIDI UART and the blocking `readMidi` loop
 * (src/sw/midi/midi.c:90-101; the same loop is in src/sw/midi.c:33-42 and
 * src/sw/main.c:176-185).
 */
module Serial {

  function Min(a: nat, b: nat): (m: nat)
    ensures m <= a && m <= b && (m == a || m == b)
  {
    if a < b then a else b
  }

  /**
   * The XUartPs receiver. `input` is every byte that will ever arrive on
   * the MIDI line and `pos` how many of them have been taken. The k-th
   * call of Recv finds `burst(k) + 1` bytes in the receive FIFO, or all
   * that are left if fewer: a poll that finds the FIFO empty returns 0
   * and is simply repeated by `readMidi`, so such polls are not counted
   * as calls. The single receive of `rxMidiMsg` is taken to follow a poll
   * that found data, so the FIFO is empty there only at the end of the line.
   */
  class Uart {
    const input: seq<bv8>
    const burst: nat -> nat
    var pos: nat
    var calls: nat

    constructor(input: seq<bv8>, burst: nat -> nat)
      ensures this.input == input && this.burst == burst
      ensures pos == 0 && calls == 0
    {
      this.input := input;
      this.burst := burst;
      pos := 0;
      calls := 0;
    }

    predicate Valid()
      reads this
    {
      pos <= |input|
    }

    /** Bytes that have not been taken yet. */
    function Pending(): nat
      reads this
      requires Valid()
    {
      |input| - pos
    }

    /** Bytes waiting in the receive FIFO at the next call. */
    function Ready(): (n: nat)
      reads this
      requires Valid()
      ensures n <= Pending() && (n == 0 <==> Pending() == 0)
    {
      Min(Pending(), burst(calls) + 1)
    }

    /**
     * XUartPs_Recv(inst, buf + offset, max): moves up to `max` waiting
     * bytes into buf[offset..] and returns how many it moved.
     */
    method Recv(buf: array<bv8>, offset: nat, max: nat) returns (count: nat)
      requires Valid() && offset + max <= buf.Length
      modifies this, buf
      ensures Valid() && calls == old(calls) + 1
      ensures count == Min(max, old(Ready()))
      ensures pos == old(pos) + count
      ensures forall i :: offset <= i < offset + count ==> buf[i] == input[old(pos) + i - offset]
      ensures forall i :: 0 <= i < buf.Length && !(offset <= i < offset + count) ==> buf[i] == old(buf[i])
    {
      count := Min(max, Ready());
      var p := pos;
      forall i | offset <= i < offset + count {
        buf[i] := input[p + i - offset];
      }
      pos := pos + count;
      calls := calls + 1;
    }
  }

  /**
   * readMidi(numBytes): polls the UART until `numBytes` bytes are stored
   * at the start of `buffer`. The firmware waits forever once the line has
   * nothing more to send; here the loop then stops and reports `false`.
   */
  method ReadMidi(uart: Uart, buffer: array<bv8>, numBytes: nat) returns (complete: bool)
    requires uart.Valid() && numBytes <= buffer.Length
    modifies uart, buffer
    ensures uart.Valid()
    ensures complete <==> numBytes <= old(uart.Pending())
    ensures uart.pos == old(uart.pos) + Min(numBytes, old(uart.Pending()))
    ensures buffer[..] == uart.input[old(uart.pos)..uart.pos] + old(buffer[..])[uart.pos - old(uart.pos)..]
  {
    ghost var start, original := uart.pos, buffer[..];
    var rxTotal := 0;
    while rxTotal < numBytes
      invariant uart.Valid()
      invariant 0 <= rxTotal <= numBytes
      invariant uart.pos == start + rxTotal
      invariant forall i :: 0 <= i < rxTotal ==> buffer[i] == uart.input[start + i]
      invariant forall i :: rxTotal <= i < buffer.Length ==> buffer[i] == original[i]
      decreases uart.Pending()
    {
      if uart.Pending() == 0 {
        assert buffer[..] == uart.input[start..uart.pos] + original[rxTotal..];
        return false;
      }
      var count := uart.Recv(buffer, rxTotal, numBytes - rxTotal);
      rxTotal := rxTotal + count;
    }
    assert buffer[..] == uart.input[start..uart.pos] + original[rxTotal..];
    return true;
  }
}
