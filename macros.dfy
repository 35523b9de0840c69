/**
 * Address-space and array-size macros from include/macros.h.
 *
 * On the N64 a pointer is 32 bits wide. Cached kernel memory (KSEG0) starts
 * at 0x80000000 and mirrors physical RAM; the top three address bits select
 * the segment, the low 29 bits are the physical address. A build with
 * NO_SEGMENTED_MEMORY replaces all three conversions by plain casts, so each
 * conversion takes the build option as a parameter.
 */
module Macros {

  type uintptr = bv32

  /** The build option that selects between the two macro definitions. */
  datatype MemoryLayout = Segmented | NoSegmentedMemory

  const PhysicalMask: uintptr := 0x1FFF_FFFF
  const Kseg0Base: uintptr := 0x8000_0000
  /** The three address bits that select the segment. */
  const SegmentBits: uintptr := 0xE000_0000

  /** VIRTUAL_TO_PHYSICAL(addr): the low 29 bits of the address, or the address itself. */
  function VirtualToPhysical(layout: MemoryLayout, addr: uintptr): (r: uintptr)
    ensures layout == Segmented ==> IsPhysical(r) && r & PhysicalMask == addr & PhysicalMask
    ensures layout == NoSegmentedMemory ==> r == addr
  {
    match layout
    case Segmented => addr & PhysicalMask
    case NoSegmentedMemory => addr
  }

  /** PHYSICAL_TO_VIRTUAL(addr): the address with bit 31 set, or the address itself. */
  function PhysicalToVirtual(layout: MemoryLayout, addr: uintptr): (r: uintptr)
    ensures layout == Segmented ==> r & Kseg0Base == Kseg0Base && r & 0x7FFF_FFFF == addr & 0x7FFF_FFFF
    ensures layout == NoSegmentedMemory ==> r == addr
  {
    match layout
    case Segmented => addr | Kseg0Base
    case NoSegmentedMemory => addr
  }

  /** VIRTUAL_TO_PHYSICAL2(addr): pointer arithmetic that subtracts 0x80000000, wrapping at 32 bits. */
  function VirtualToPhysical2(layout: MemoryLayout, addr: uintptr): (r: uintptr)
    ensures layout == Segmented ==> r + Kseg0Base == addr
    ensures layout == NoSegmentedMemory ==> r == addr
  {
    match layout
    case Segmented => addr - Kseg0Base
    case NoSegmentedMemory => addr
  }

  /** A physical RAM address: one the 29-bit physical bus can carry. */
  predicate IsPhysical(addr: uintptr)
  {
    addr & SegmentBits == 0
  }

  /** A cached kernel address: the KSEG0 window 0x80000000 .. 0x9FFFFFFF. */
  predicate InKseg0(addr: uintptr)
  {
    addr & SegmentBits == Kseg0Base
  }

  /** PHYSICAL_TO_VIRTUAL places a physical address in the KSEG0 window. */
  lemma PhysicalToVirtualInKseg0(p: uintptr)
    requires IsPhysical(p)
    ensures InKseg0(PhysicalToVirtual(Segmented, p))
  {
  }

  /** Physical to virtual and back gives the physical address again. */
  lemma PhysicalRoundTrip(p: uintptr)
    requires IsPhysical(p)
    ensures VirtualToPhysical(Segmented, PhysicalToVirtual(Segmented, p)) == p
  {
  }

  /** The same round trip holds through VIRTUAL_TO_PHYSICAL2. */
  lemma PhysicalRoundTrip2(p: uintptr)
    requires IsPhysical(p)
    ensures VirtualToPhysical2(Segmented, PhysicalToVirtual(Segmented, p)) == p
  {
  }

  /** A KSEG0 address converted to physical and back is unchanged. */
  lemma Kseg0RoundTrip(v: uintptr)
    requires InKseg0(v)
    ensures PhysicalToVirtual(Segmented, VirtualToPhysical(Segmented, v)) == v
  {
  }

  /** On KSEG0 the masking and the subtracting conversions agree. */
  lemma Kseg0ConversionsAgree(v: uintptr)
    requires InKseg0(v)
    ensures VirtualToPhysical2(Segmented, v) == VirtualToPhysical(Segmented, v)
  {
  }

  /** VIRTUAL_TO_PHYSICAL leaves a physical address alone, so applying it twice changes nothing. */
  lemma VirtualToPhysicalIdempotent(layout: MemoryLayout, addr: uintptr)
    ensures VirtualToPhysical(layout, VirtualToPhysical(layout, addr)) == VirtualToPhysical(layout, addr)
    ensures IsPhysical(addr) && layout == Segmented ==> VirtualToPhysical(layout, addr) == addr
  {
  }

  /** The uncached mirror (bit 29 set, KSEG1) maps to the same physical address as KSEG0. */
  lemma MirrorsShareAddress(v: uintptr)
    requires InKseg0(v)
    ensures VirtualToPhysical(Segmented, v | 0x2000_0000) == VirtualToPhysical(Segmented, v)
  {
  }

  // ---------------------------------------------------------------------
  // ARRAY_COUNT(arr) == (s32)(sizeof(arr) / sizeof(arr[0]))
  // ---------------------------------------------------------------------

  /** The C cast (s32) of a non-negative size_t: the low 32 bits, read as two's complement. */
  function ToS32(x: nat): (r: int)
    ensures -0x8000_0000 <= r < 0x8000_0000
    ensures x < 0x8000_0000 ==> r == x
    ensures (x - r) % 0x1_0000_0000 == 0
  {
    var low := x % 0x1_0000_0000;
    if low < 0x8000_0000 then low else low - 0x1_0000_0000
  }

  /** sizeof of an array whose elements each occupy elemSize bytes. */
  function SizeOf<T>(arr: seq<T>, elemSize: nat): nat
  {
    |arr| * elemSize
  }

  /**
   * ARRAY_COUNT: the total size divided by the size of one element, cast to
   * s32; for any array smaller than 2^31 elements it is the element count.
   */
  function ArrayCount<T>(arr: seq<T>, elemSize: nat): (r: int)
    requires elemSize > 0
    ensures |arr| < 0x8000_0000 ==> r == |arr|
  {
    DivOfMultiple(|arr|, elemSize);
    ToS32(SizeOf(arr, elemSize) / elemSize)
  }

  lemma MulSign(e: int, k: int)
    requires e > 0
    ensures k >= 1 ==> e * k >= e
    ensures k <= -1 ==> e * k <= 0 - e
  {
  }

  /** Dividing n * e by e gives back n. */
  lemma DivOfMultiple(n: nat, e: nat)
    requires e > 0
    ensures (n * e) / e == n
  {
    var q := (n * e) / e;
    var r := (n * e) % e;
    assert n * e == e * q + r;
    assert e * (n - q) == r;
    MulSign(e, n - q);
  }
}
