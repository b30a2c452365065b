/**
 * Slot buffers of opaque middleware handles, as values.
 *
 * A handle buffer is a run of pointer-sized slots. This module gives the
 * value-level meaning of the three things the default memory strategy does
 * to such a run: grow it the way `std::vector::resize(n, 0)` does, clear a
 * whole-slot prefix of it (what `memset` amounts to at slot granularity),
 * and fill all of it with zero (what `std::array::fill(0)` does).
 */
module HandleSlots {

  /** An opaque handle: a 64-bit pointer value, 0 being the null pointer. */
  newtype Handle = x: int | 0 <= x < 0x1_0000_0000_0000_0000

  /** Width of one slot in bytes: `sizeof(void *)` on a 64-bit target. */
  const SlotWidth: nat := 8

  function Max(a: nat, b: nat): (m: nat)
    ensures a <= m && b <= m && (m == a || m == b)
  {
    if a < b then b else a
  }

  /** `k` null handles. */
  function Zeros(k: nat): (r: seq<Handle>)
    ensures |r| == k
    ensures forall i :: 0 <= i < k ==> r[i] == 0
  {
    if k == 0 then [] else Zeros(k - 1) + [0]
  }

  /**
   * The buffer after `resize(n, 0)` guarded by `size() < n`: it grows to
   * exactly `n` slots when it is shorter, keeping every resident slot and
   * filling each new one with 0, and it is left alone otherwise.
   */
  function Grown(s: seq<Handle>, n: nat): (r: seq<Handle>)
    ensures |r| == Max(|s|, n)
    ensures r[..|s|] == s
    ensures forall i :: |s| <= i < |r| ==> r[i] == 0
    ensures n <= |s| ==> r == s
  {
    if |s| < n then s + Zeros(n - |s|) else s
  }

  /** The buffer with its first `k` slots (or all of them, if it is shorter) set to 0. */
  function ZeroPrefix(s: seq<Handle>, k: nat): (r: seq<Handle>)
    ensures |r| == |s|
    ensures forall i :: 0 <= i < |s| ==> r[i] == (if i < k then 0 else s[i])
    decreases |s|
  {
    if s == [] || k == 0 then s else [0] + ZeroPrefix(s[1..], k - 1)
  }

  /**
   * The buffer after `memset(buffer, 0, bytes)`, at whole-slot granularity:
   * the `bytes / SlotWidth` slots that lie entirely inside the cleared bytes
   * become 0 and every later slot keeps its value. (A last, partially
   * cleared slot is kept as it was: byte-level contents are not modelled.)
   */
  function MemsetSlots(s: seq<Handle>, bytes: nat): (r: seq<Handle>)
    ensures |r| == |s|
    ensures forall i :: 0 <= i < |s| && i < bytes / SlotWidth ==> r[i] == 0
    ensures forall i :: bytes / SlotWidth <= i < |s| ==> r[i] == s[i]
  {
    ZeroPrefix(s, bytes / SlotWidth)
  }

  /** The buffer with every slot set to 0, as `std::array::fill(0)` leaves it. */
  function ZeroFilled(s: seq<Handle>): (r: seq<Handle>)
    ensures r == Zeros(|s|)
  {
    var r := ZeroPrefix(s, |s|);
    assert forall i :: 0 <= i < |s| ==> r[i] == Zeros(|s|)[i];
    r
  }

  /**
   * Two growths in succession are one growth to the larger request: the
   * length after borrowing `n` and then `m` slots is max(old length, n, m),
   * so across cycles a buffer never shrinks.
   */
  lemma GrownTwice(s: seq<Handle>, n: nat, m: nat)
    ensures Grown(Grown(s, n), m) == Grown(s, Max(n, m))
  {
  }

  /**
   * Clearing `size()` bytes of a buffer of `size()` slots zeroes all of it
   * exactly when every slot from `size() / SlotWidth` on was already 0.
   */
  lemma MemsetBySizeClearsAllIff(s: seq<Handle>)
    ensures MemsetSlots(s, |s|) == Zeros(|s|)
        <==> forall i :: |s| / SlotWidth <= i < |s| ==> s[i] == 0
  {
  }

  /**
   * A five-slot buffer holding handles in slots 1 to 3: clearing five bytes
   * touches only slot 0 (its low five bytes, and it is already null), so
   * the three handles survive.
   */
  lemma MemsetBySizeLeavesHandles()
    ensures MemsetSlots([0, 7, 7, 7, 0], 5) == [0, 7, 7, 7, 0]
    ensures MemsetSlots([0, 7, 7, 7, 0], 5) != Zeros(5)
  {
    assert Zeros(5)[1] == 0;
  }

  /** Clearing `size() * SlotWidth` bytes, one slot's width per slot, zeroes the whole buffer. */
  lemma MemsetFullWidthClearsAll(s: seq<Handle>)
    ensures MemsetSlots(s, |s| * SlotWidth) == ZeroFilled(s)
  {
  }
}
