/*
 * Status codes and bit helpers shared by the firmware modules
 * (src/sw/utils/utils.h, with the Xilinx XST_SUCCESS / XST_FAILURE codes).
 *
 * C's `unsigned int` is modelled as `bv32`; bit positions are `bv32` too,
 * since they are shift amounts in the macros.
 */
module Utils {

  datatype Option<T> = None | Some(value: T)

  /** Xilinx status codes; any other non-zero int is also a failure code. */
  const XST_SUCCESS: int := 0
  const XST_FAILURE: int := 1

  /**
   * RETURN_ON_FAILURE(x): `Some(XST_FAILURE)` is the value the caller
   * returns early with; `None` means the caller falls through.
   */
  function ReturnOnFailure(x: int): (r: Option<int>)
    ensures r.None? <==> x == XST_SUCCESS
    ensures r.Some? ==> r.value == XST_FAILURE
  {
    if x != XST_SUCCESS then Some(XST_FAILURE) else None
  }

  /** The mask of `width` low-order ones, `(1U << width) - 1`. */
  function LowMask(width: bv32): bv32
    requires width < 32
  {
    (1 << width) - 1
  }

  /** GET_BIT(data, pos): bit `pos` of `data`, as 0 or 1. */
  function GetBit(data: bv32, pos: bv32): (r: bv32)
    requires pos < 32
    ensures r == 0 || r == 1
  {
    (data >> pos) & 1
  }

  /**
   * GET_BITS(data, start, end): bits `start..end` (inclusive) of `data`,
   * moved down to bit 0. The C shift `1U << (end - start + 1)` is defined
   * only for a width below 32.
   */
  function GetBits(data: bv32, start: bv32, end: bv32): (r: bv32)
    requires start <= end < 32 && end - start < 31
    ensures r < 1 << (end - start + 1)
  {
    (data >> start) & LowMask(end - start + 1)
  }

  /** GET_BIT is 1 exactly when the bit at `pos` is set in `data`. */
  lemma GetBitIsSetBit(data: bv32, pos: bv32)
    requires pos < 32
    ensures GetBit(data, pos) == 1 <==> data & (1 << pos) != 0
  {
  }

  /** A one-bit field read with GET_BITS is the same as GET_BIT. */
  lemma GetBitsSingle(data: bv32, pos: bv32)
    requires pos < 32
    ensures GetBits(data, pos, pos) == GetBit(data, pos)
  {
  }

  /** GET_BIT is the bit under its mask `1 << pos`, moved down to bit 0. */
  lemma GetBitIsMasked(data: bv32, pos: bv32)
    requires pos < 32
    ensures GetBit(data, pos) == (data & (LowMask(1) << pos)) >> pos
  {
  }

  /** GET_BITS is the field under its mask `LowMask(width) << start`, moved down to bit 0. */
  lemma GetBitsIsMasked(data: bv32, start: bv32, end: bv32)
    requires start <= end < 32 && end - start < 31
    ensures GetBits(data, start, end) == (data & (LowMask(end - start + 1) << start)) >> start
  {
  }

  /** A value that fits the field `start..end`, placed at `start`, is read back by GET_BITS. */
  lemma GetBitsOfPlaced(v: bv32, start: bv32, end: bv32)
    requires start <= end < 32 && end - start < 31
    requires v < 1 << (end - start + 1)
    ensures GetBits(v << start, start, end) == v
  {
    PlacedFieldComesBack(v, start, end);
    FieldBitsKept(v, start, end);
  }

  lemma PlacedFieldComesBack(v: bv32, start: bv32, end: bv32)
    requires start <= end < 32 && end - start < 31
    requires v < 1 << (end - start + 1)
    ensures (v << start) >> start == v
  {
    PlacedComesBack(v, start, end - start + 1);
  }

  /** Shifting up and back down loses nothing when the value fits above `start`. */
  lemma PlacedComesBack(v: bv32, start: bv32, w: bv32)
    requires start < 32 && w <= 32 - start && w < 32 && v < 1 << w
    ensures (v << start) >> start == v
  {
  }

  lemma FieldBitsKept(v: bv32, start: bv32, end: bv32)
    requires start <= end < 32 && end - start < 31
    requires v < 1 << (end - start + 1)
    ensures v & LowMask(end - start + 1) == v
  {
    LowBitsKept(v, end - start + 1);
  }

  /** A value below 2^w is its own low w bits. */
  lemma LowBitsKept(v: bv32, w: bv32)
    requires w < 32 && v < 1 << w
    ensures v & LowMask(w) == v
  {
  }
}
