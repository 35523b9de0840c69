/**
 * Byte-order, unaligned-access, bit-scan and rounding helpers that sit under
 * the vendored DEFLATE decompressor (src/boot/deflate/common_defs.h).
 *
 * The target is big-endian MIPS: CPU_IS_LITTLE_ENDIAN() is the constant 0
 * and UNALIGNED_ACCESS_IS_FAST is 1, so every get/put goes through a native
 * (big-endian) unaligned load or store followed or preceded by the byte-swap
 * macro. Memory behind a `u8 *` is a byte sequence with an offset; stores
 * write into a caller's `array<u8>` in place.
 *
 * DEFLATE (section 3.1.1 of RFC 1951) packs data elements least significant
 * byte first, which is why the little-endian readers exist.
 */
module CommonDefs {

  import Macros

  type u8 = bv8
  type u16 = bv16
  type u32 = bv32
  type u64 = bv64

  // ---------------------------------------------------------------------
  // Miscellaneous macros
  // ---------------------------------------------------------------------

  /** MIN(a, b): the first argument when it is not larger, else the second. */
  function Min(a: int, b: int): (r: int)
    ensures r <= a && r <= b
    ensures r == a || r == b
    ensures a <= b ==> r == a
  {
    if a <= b then a else b
  }

  /** MAX(a, b): the first argument when it is not smaller, else the second. */
  function Max(a: int, b: int): (r: int)
    ensures r >= a && r >= b
    ensures r == a || r == b
    ensures a >= b ==> r == a
  {
    if a >= b then a else b
  }

  /** DIV_ROUND_UP(n, d): the quotient n / d rounded towards +infinity. */
  function DivRoundUp(n: nat, d: nat): (r: nat)
    requires d > 0
    ensures (r - 1) * d < n <= r * d
  {
    (n + d - 1) / d
  }

  /** ROUND_UP(n, d) == d * DIV_ROUND_UP(n, d). */
  function RoundUp(n: nat, d: nat): (r: nat)
    requires d > 0
    ensures r % d == 0 && n <= r < n + d
  {
    var q := DivRoundUp(n, d);
    assert (q - 1) * d == q * d - d;
    MultipleModZero(d, q);
    d * q
  }

  /** A multiple of d leaves no remainder. */
  lemma MultipleModZero(d: nat, q: nat)
    requires d > 0
    ensures (d * q) % d == 0
  {
    Macros.DivOfMultiple(q, d);
    assert d * q == q * d;
  }

  /**
   * ROUND_UP(n, d) is the multiple of d reached by DIV_ROUND_UP, and it is
   * the least multiple of d that is at least n: it overshoots n by less than d.
   */
  lemma RoundUpBounds(n: nat, d: nat)
    requires d > 0
    ensures RoundUp(n, d) == DivRoundUp(n, d) * d
    ensures n <= RoundUp(n, d) < n + d
  {
    var q := DivRoundUp(n, d);
    assert (q - 1) * d == q * d - d;
  }

  /** ALIGN(n, a) == (n + a - 1) & ~(a - 1), in 32-bit unsigned arithmetic. */
  function Align(n: u32, a: u32): (r: u32)
    ensures r & (a - 1) == 0
  {
    (n + a - 1) & !(a - 1)
  }

  /**
   * For a power of two a, and when n + a - 1 does not wrap around, ALIGN(n, a)
   * is the least multiple of a that is at least n.
   */
  lemma AlignIsLeastMultiple(n: u32, a: u32)
    requires a != 0 && a & (a - 1) == 0
    requires n <= 0xFFFF_FFFF - (a - 1)
    ensures Align(n, a) & (a - 1) == 0
    ensures n <= Align(n, a) && Align(n, a) - n < a
  {
  }

  // ---------------------------------------------------------------------
  // Endianness handling
  // ---------------------------------------------------------------------

  /** CPU_IS_LITTLE_ENDIAN(): fixed at 0 for the big-endian MIPS target. */
  const CpuIsLittleEndian: bool := false

  /** The bytes of a value, least significant first (the DEFLATE order). */
  function LeBytes16(v: u16): seq<u8>
  {
    [(v & 0xFF) as u8, ((v >> 8) & 0xFF) as u8]
  }

  /** The bytes of a value, most significant first (the native MIPS order). */
  function BeBytes16(v: u16): seq<u8>
  {
    [((v >> 8) & 0xFF) as u8, (v & 0xFF) as u8]
  }

  function LeBytes32(v: u32): seq<u8>
  {
    [(v & 0xFF) as u8, ((v >> 8) & 0xFF) as u8, ((v >> 16) & 0xFF) as u8, ((v >> 24) & 0xFF) as u8]
  }

  function BeBytes32(v: u32): seq<u8>
  {
    [((v >> 24) & 0xFF) as u8, ((v >> 16) & 0xFF) as u8, ((v >> 8) & 0xFF) as u8, (v & 0xFF) as u8]
  }

  function LeBytes64(v: u64): seq<u8>
  {
    [(v & 0xFF) as u8, ((v >> 8) & 0xFF) as u8, ((v >> 16) & 0xFF) as u8, ((v >> 24) & 0xFF) as u8,
     ((v >> 32) & 0xFF) as u8, ((v >> 40) & 0xFF) as u8, ((v >> 48) & 0xFF) as u8, ((v >> 56) & 0xFF) as u8]
  }

  function BeBytes64(v: u64): seq<u8>
  {
    [((v >> 56) & 0xFF) as u8, ((v >> 48) & 0xFF) as u8, ((v >> 40) & 0xFF) as u8, ((v >> 32) & 0xFF) as u8,
     ((v >> 24) & 0xFF) as u8, ((v >> 16) & 0xFF) as u8, ((v >> 8) & 0xFF) as u8, (v & 0xFF) as u8]
  }

  /** bswap16(v): the two bytes of v exchanged. */
  function Bswap16(v: u16): (r: u16)
    ensures LeBytes16(r) == BeBytes16(v)
  {
    (v << 8) | (v >> 8)
  }

  /** bswap32(v): the four bytes of v in reverse order. */
  function Bswap32(v: u32): (r: u32)
    ensures LeBytes32(r) == BeBytes32(v)
  {
    ((v & 0x000000FF) << 24) |
    ((v & 0x0000FF00) << 8) |
    ((v & 0x00FF0000) >> 8) |
    ((v & 0xFF000000) >> 24)
  }

  /** bswap64(v): the eight bytes of v in reverse order. */
  function Bswap64(v: u64): (r: u64)
    ensures LeBytes64(r) == BeBytes64(v)
  {
    ((v & 0x00000000000000FF) << 56) |
    ((v & 0x000000000000FF00) << 40) |
    ((v & 0x0000000000FF0000) << 24) |
    ((v & 0x00000000FF000000) << 8) |
    ((v & 0x000000FF00000000) >> 8) |
    ((v & 0x0000FF0000000000) >> 24) |
    ((v & 0x00FF000000000000) >> 40) |
    ((v & 0xFF00000000000000) >> 56)
  }

  lemma BswapInvolutions(a: u16, b: u32, c: u64)
    ensures Bswap16(Bswap16(a)) == a
    ensures Bswap32(Bswap32(b)) == b
    ensures Bswap64(Bswap64(c)) == c
  {
  }

  /** The bytes of a value in the CPU's own order, as a native store lays them out. */
  function NativeBytes16(v: u16): seq<u8> { if CpuIsLittleEndian then LeBytes16(v) else BeBytes16(v) }
  function NativeBytes32(v: u32): seq<u8> { if CpuIsLittleEndian then LeBytes32(v) else BeBytes32(v) }
  function NativeBytes64(v: u64): seq<u8> { if CpuIsLittleEndian then LeBytes64(v) else BeBytes64(v) }

  /**
   * le16_bswap .. be64_bswap: swap only when the CPU order differs, so that
   * the native bytes of the result are the little- (big-) endian bytes of v.
   */
  function Le16Bswap(v: u16): (r: u16)
    ensures NativeBytes16(r) == LeBytes16(v)
  {
    if CpuIsLittleEndian then v else Bswap16(v)
  }

  function Le32Bswap(v: u32): (r: u32)
    ensures NativeBytes32(r) == LeBytes32(v)
  {
    if CpuIsLittleEndian then v else Bswap32(v)
  }

  function Le64Bswap(v: u64): (r: u64)
    ensures NativeBytes64(r) == LeBytes64(v)
  {
    if CpuIsLittleEndian then v else Bswap64(v)
  }

  function Be16Bswap(v: u16): (r: u16)
    ensures NativeBytes16(r) == BeBytes16(v)
  {
    if CpuIsLittleEndian then Bswap16(v) else v
  }

  function Be32Bswap(v: u32): (r: u32)
    ensures NativeBytes32(r) == BeBytes32(v)
  {
    if CpuIsLittleEndian then Bswap32(v) else v
  }

  function Be64Bswap(v: u64): (r: u64)
    ensures NativeBytes64(r) == BeBytes64(v)
  {
    if CpuIsLittleEndian then Bswap64(v) else v
  }

  /** On this big-endian target the le*_bswap macros swap and the be*_bswap macros do nothing. */
  lemma SwapMacrosOnBigEndian(a: u16, b: u32, c: u64)
    ensures Le16Bswap(a) == Bswap16(a) && Be16Bswap(a) == a
    ensures Le32Bswap(b) == Bswap32(b) && Be32Bswap(b) == b
    ensures Le64Bswap(c) == Bswap64(c) && Be64Bswap(c) == c
  {
  }

  // ---------------------------------------------------------------------
  // Native unaligned loads and stores (the packed-struct access): the bytes
  // in CPU order, so on this big-endian CPU the first byte in memory is the
  // most significant.
  // ---------------------------------------------------------------------

  function LoadU16Unaligned(p: seq<u8>, i: nat): (r: u16)
    requires i + 2 <= |p|
    ensures NativeBytes16(r) == p[i..i + 2]
  {
    (p[i] as u16 << 8) | p[i + 1] as u16
  }

  function LoadU32Unaligned(p: seq<u8>, i: nat): (r: u32)
    requires i + 4 <= |p|
    ensures NativeBytes32(r) == p[i..i + 4]
  {
    (p[i] as u32 << 24) | (p[i + 1] as u32 << 16) | (p[i + 2] as u32 << 8) | p[i + 3] as u32
  }

  function LoadU64Unaligned(p: seq<u8>, i: nat): (r: u64)
    requires i + 8 <= |p|
    ensures NativeBytes64(r) == p[i..i + 8]
  {
    (p[i] as u64 << 56) | (p[i + 1] as u64 << 48) | (p[i + 2] as u64 << 40) | (p[i + 3] as u64 << 32) |
    (p[i + 4] as u64 << 24) | (p[i + 5] as u64 << 16) | (p[i + 6] as u64 << 8) | p[i + 7] as u64
  }

  method StoreU16Unaligned(v: u16, p: array<u8>, i: nat)
    requires i + 2 <= p.Length
    modifies p
    ensures p[..] == old(p[..i]) + BeBytes16(v) + old(p[i + 2..])
  {
    p[i] := ((v >> 8) & 0xFF) as u8;
    p[i + 1] := (v & 0xFF) as u8;
  }

  method StoreU32Unaligned(v: u32, p: array<u8>, i: nat)
    requires i + 4 <= p.Length
    modifies p
    ensures p[..] == old(p[..i]) + BeBytes32(v) + old(p[i + 4..])
  {
    p[i] := ((v >> 24) & 0xFF) as u8;
    p[i + 1] := ((v >> 16) & 0xFF) as u8;
    p[i + 2] := ((v >> 8) & 0xFF) as u8;
    p[i + 3] := (v & 0xFF) as u8;
  }

  method StoreU64Unaligned(v: u64, p: array<u8>, i: nat)
    requires i + 8 <= p.Length
    modifies p
    ensures p[..] == old(p[..i]) + BeBytes64(v) + old(p[i + 8..])
  {
    p[i] := ((v >> 56) & 0xFF) as u8;
    p[i + 1] := ((v >> 48) & 0xFF) as u8;
    p[i + 2] := ((v >> 40) & 0xFF) as u8;
    p[i + 3] := ((v >> 32) & 0xFF) as u8;
    p[i + 4] := ((v >> 24) & 0xFF) as u8;
    p[i + 5] := ((v >> 16) & 0xFF) as u8;
    p[i + 6] := ((v >> 8) & 0xFF) as u8;
    p[i + 7] := (v & 0xFF) as u8;
  }

  // ---------------------------------------------------------------------
  // Unaligned loads with endianness conversion. Each one is the fast path
  // (native load, then the swap macro); its contract states the byte order
  // it reads and that it agrees with the byte-by-byte fallback.
  // ---------------------------------------------------------------------

  /** The fallback of get_unaligned_le16: p[1] << 8 | p[0]. */
  function GetLe16Bytewise(p: seq<u8>, i: nat): (r: u16)
    requires i + 2 <= |p|
    ensures LeBytes16(r) == p[i..i + 2]
  {
    (p[i + 1] as u16 << 8) | p[i] as u16
  }

  function GetBe16Bytewise(p: seq<u8>, i: nat): (r: u16)
    requires i + 2 <= |p|
    ensures BeBytes16(r) == p[i..i + 2]
  {
    (p[i] as u16 << 8) | p[i + 1] as u16
  }

  function GetLe32Bytewise(p: seq<u8>, i: nat): (r: u32)
    requires i + 4 <= |p|
    ensures LeBytes32(r) == p[i..i + 4]
  {
    (p[i + 3] as u32 << 24) | (p[i + 2] as u32 << 16) | (p[i + 1] as u32 << 8) | p[i] as u32
  }

  function GetBe32Bytewise(p: seq<u8>, i: nat): (r: u32)
    requires i + 4 <= |p|
    ensures BeBytes32(r) == p[i..i + 4]
  {
    (p[i] as u32 << 24) | (p[i + 1] as u32 << 16) | (p[i + 2] as u32 << 8) | p[i + 3] as u32
  }

  function GetLe64Bytewise(p: seq<u8>, i: nat): (r: u64)
    requires i + 8 <= |p|
    ensures LeBytes64(r) == p[i..i + 8]
  {
    (p[i + 7] as u64 << 56) | (p[i + 6] as u64 << 48) | (p[i + 5] as u64 << 40) | (p[i + 4] as u64 << 32) |
    (p[i + 3] as u64 << 24) | (p[i + 2] as u64 << 16) | (p[i + 1] as u64 << 8) | p[i] as u64
  }

  function GetUnalignedLe16(p: seq<u8>, i: nat): (r: u16)
    requires i + 2 <= |p|
    ensures LeBytes16(r) == p[i..i + 2]
    ensures r == GetLe16Bytewise(p, i)
  {
    Le16Bswap(LoadU16Unaligned(p, i))
  }

  function GetUnalignedBe16(p: seq<u8>, i: nat): (r: u16)
    requires i + 2 <= |p|
    ensures BeBytes16(r) == p[i..i + 2]
    ensures r == GetBe16Bytewise(p, i)
  {
    Be16Bswap(LoadU16Unaligned(p, i))
  }

  function GetUnalignedLe32(p: seq<u8>, i: nat): (r: u32)
    requires i + 4 <= |p|
    ensures LeBytes32(r) == p[i..i + 4]
    ensures r == GetLe32Bytewise(p, i)
  {
    Le32Bswap(LoadU32Unaligned(p, i))
  }

  function GetUnalignedBe32(p: seq<u8>, i: nat): (r: u32)
    requires i + 4 <= |p|
    ensures BeBytes32(r) == p[i..i + 4]
    ensures r == GetBe32Bytewise(p, i)
  {
    Be32Bswap(LoadU32Unaligned(p, i))
  }

  function GetUnalignedLe64(p: seq<u8>, i: nat): (r: u64)
    requires i + 8 <= |p|
    ensures LeBytes64(r) == p[i..i + 8]
    ensures r == GetLe64Bytewise(p, i)
  {
    Le64Bswap(LoadU64Unaligned(p, i))
  }

  /** WORDBITS is 8 * sizeof(size_t); the header only allows 32 or 64. */
  predicate ValidWordBits(wordBits: nat)
  {
    wordBits == 32 || wordBits == 64
  }

  /** get_unaligned_leword: the 32- or 64-bit little-endian reader, by WORDBITS. */
  function GetUnalignedLeword(p: seq<u8>, i: nat, wordBits: nat): (r: u64)
    requires ValidWordBits(wordBits)
    requires i + wordBits / 8 <= |p|
    ensures wordBits == 32 ==> r < 0x1_0000_0000 && LeBytes32(r as u32) == p[i..i + 4]
    ensures wordBits == 64 ==> LeBytes64(r) == p[i..i + 8]
  {
    if wordBits == 32 then GetUnalignedLe32(p, i) as u64 else GetUnalignedLe64(p, i)
  }

  // ---------------------------------------------------------------------
  // Unaligned stores with endianness conversion. The fallback writes
  // p[0..n) one byte at a time; it is given as a function on the buffer's
  // contents, and each store method is proved to produce the same bytes.
  // ---------------------------------------------------------------------

  /** The fallback of put_unaligned_le16: p[0] = v, p[1] = v >> 8. */
  function PutLe16Bytewise(s: seq<u8>, i: nat, v: u16): (r: seq<u8>)
    requires i + 2 <= |s|
    ensures r == s[..i] + LeBytes16(v) + s[i + 2..]
  {
    s[i := (v & 0xFF) as u8][i + 1 := ((v >> 8) & 0xFF) as u8]
  }

  /** The fallback of put_unaligned_be16: p[0] = v >> 8, p[1] = v. */
  function PutBe16Bytewise(s: seq<u8>, i: nat, v: u16): (r: seq<u8>)
    requires i + 2 <= |s|
    ensures r == s[..i] + BeBytes16(v) + s[i + 2..]
  {
    s[i := ((v >> 8) & 0xFF) as u8][i + 1 := (v & 0xFF) as u8]
  }

  /** The fallback of put_unaligned_le32: least significant byte first. */
  function PutLe32Bytewise(s: seq<u8>, i: nat, v: u32): (r: seq<u8>)
    requires i + 4 <= |s|
    ensures r == s[..i] + LeBytes32(v) + s[i + 4..]
  {
    s[i := (v & 0xFF) as u8][i + 1 := ((v >> 8) & 0xFF) as u8]
     [i + 2 := ((v >> 16) & 0xFF) as u8][i + 3 := ((v >> 24) & 0xFF) as u8]
  }

  /** The fallback of put_unaligned_be32: most significant byte first. */
  function PutBe32Bytewise(s: seq<u8>, i: nat, v: u32): (r: seq<u8>)
    requires i + 4 <= |s|
    ensures r == s[..i] + BeBytes32(v) + s[i + 4..]
  {
    s[i := ((v >> 24) & 0xFF) as u8][i + 1 := ((v >> 16) & 0xFF) as u8]
     [i + 2 := ((v >> 8) & 0xFF) as u8][i + 3 := (v & 0xFF) as u8]
  }

  /** The fallback of put_unaligned_le64: least significant byte first. */
  function PutLe64Bytewise(s: seq<u8>, i: nat, v: u64): (r: seq<u8>)
    requires i + 8 <= |s|
    ensures r == s[..i] + LeBytes64(v) + s[i + 8..]
  {
    var b := LeBytes64(v);
    Splice8(s, i, b);
    s[i := b[0]][i + 1 := b[1]][i + 2 := b[2]][i + 3 := b[3]]
     [i + 4 := b[4]][i + 5 := b[5]][i + 6 := b[6]][i + 7 := b[7]]
  }

  /** Eight single-byte stores in a row replace the eight bytes at i. */
  lemma Splice8(s: seq<u8>, i: nat, b: seq<u8>)
    requires |b| == 8 && i + 8 <= |s|
    ensures s[i := b[0]][i + 1 := b[1]][i + 2 := b[2]][i + 3 := b[3]]
             [i + 4 := b[4]][i + 5 := b[5]][i + 6 := b[6]][i + 7 := b[7]] == s[..i] + b + s[i + 8..]
  {
    var r := s[i := b[0]][i + 1 := b[1]][i + 2 := b[2]][i + 3 := b[3]]
              [i + 4 := b[4]][i + 5 := b[5]][i + 6 := b[6]][i + 7 := b[7]];
    forall k | 0 <= k < |s|
      ensures r[k] == (s[..i] + b + s[i + 8..])[k]
    {
    }
  }

  method PutUnalignedLe16(v: u16, p: array<u8>, i: nat)
    requires i + 2 <= p.Length
    modifies p
    ensures p[..] == PutLe16Bytewise(old(p[..]), i, v)
    ensures GetUnalignedLe16(p[..], i) == v
  {
    StoreU16Unaligned(Le16Bswap(v), p, i);
    assert p[..][i..i + 2] == LeBytes16(v);
  }

  method PutUnalignedBe16(v: u16, p: array<u8>, i: nat)
    requires i + 2 <= p.Length
    modifies p
    ensures p[..] == PutBe16Bytewise(old(p[..]), i, v)
    ensures GetUnalignedBe16(p[..], i) == v
  {
    StoreU16Unaligned(Be16Bswap(v), p, i);
    assert p[..][i..i + 2] == BeBytes16(v);
  }

  method PutUnalignedLe32(v: u32, p: array<u8>, i: nat)
    requires i + 4 <= p.Length
    modifies p
    ensures p[..] == PutLe32Bytewise(old(p[..]), i, v)
    ensures GetUnalignedLe32(p[..], i) == v
  {
    StoreU32Unaligned(Le32Bswap(v), p, i);
    assert p[..][i..i + 4] == LeBytes32(v);
  }

  method PutUnalignedBe32(v: u32, p: array<u8>, i: nat)
    requires i + 4 <= p.Length
    modifies p
    ensures p[..] == PutBe32Bytewise(old(p[..]), i, v)
    ensures GetUnalignedBe32(p[..], i) == v
  {
    StoreU32Unaligned(Be32Bswap(v), p, i);
    assert p[..][i..i + 4] == BeBytes32(v);
  }

  method PutUnalignedLe64(v: u64, p: array<u8>, i: nat)
    requires i + 8 <= p.Length
    modifies p
    ensures p[..] == PutLe64Bytewise(old(p[..]), i, v)
    ensures GetUnalignedLe64(p[..], i) == v
  {
    StoreU64Unaligned(Le64Bswap(v), p, i);
    assert p[..][i..i + 8] == LeBytes64(v);
  }

  /** put_unaligned_leword: the 32- or 64-bit little-endian writer, by WORDBITS. */
  method PutUnalignedLeword(v: u64, p: array<u8>, i: nat, wordBits: nat)
    requires ValidWordBits(wordBits)
    requires wordBits == 32 ==> v < 0x1_0000_0000
    requires i + wordBits / 8 <= p.Length
    modifies p
    ensures wordBits == 32 ==> p[..] == PutLe32Bytewise(old(p[..]), i, v as u32)
    ensures wordBits == 64 ==> p[..] == PutLe64Bytewise(old(p[..]), i, v)
    ensures GetUnalignedLeword(p[..], i, wordBits) == v
  {
    if wordBits == 32 {
      PutUnalignedLe32(v as u32, p, i);
    } else {
      PutUnalignedLe64(v, p, i);
    }
  }

  /** Writing a value and reading it back gives the value, for each width and byte order. */
  lemma PutThenGetLe16(s: seq<u8>, i: nat, v: u16)
    requires i + 2 <= |s|
    ensures GetUnalignedLe16(PutLe16Bytewise(s, i, v), i) == v
  {
    assert PutLe16Bytewise(s, i, v)[i..i + 2] == LeBytes16(v);
  }

  lemma PutThenGetBe16(s: seq<u8>, i: nat, v: u16)
    requires i + 2 <= |s|
    ensures GetUnalignedBe16(PutBe16Bytewise(s, i, v), i) == v
  {
    assert PutBe16Bytewise(s, i, v)[i..i + 2] == BeBytes16(v);
  }

  lemma PutThenGetLe32(s: seq<u8>, i: nat, v: u32)
    requires i + 4 <= |s|
    ensures GetUnalignedLe32(PutLe32Bytewise(s, i, v), i) == v
  {
    assert PutLe32Bytewise(s, i, v)[i..i + 4] == LeBytes32(v);
  }

  lemma PutThenGetBe32(s: seq<u8>, i: nat, v: u32)
    requires i + 4 <= |s|
    ensures GetUnalignedBe32(PutBe32Bytewise(s, i, v), i) == v
  {
    assert PutBe32Bytewise(s, i, v)[i..i + 4] == BeBytes32(v);
  }

  lemma PutThenGetLe64(s: seq<u8>, i: nat, v: u64)
    requires i + 8 <= |s|
    ensures GetUnalignedLe64(PutLe64Bytewise(s, i, v), i) == v
  {
    assert PutLe64Bytewise(s, i, v)[i..i + 8] == LeBytes64(v);
  }

  /** Reading a value and writing it back leaves the buffer as it was. */
  lemma GetThenPut(s: seq<u8>, i: nat)
    requires i + 8 <= |s|
    ensures PutLe16Bytewise(s, i, GetUnalignedLe16(s, i)) == s
    ensures PutBe16Bytewise(s, i, GetUnalignedBe16(s, i)) == s
    ensures PutLe32Bytewise(s, i, GetUnalignedLe32(s, i)) == s
    ensures PutBe32Bytewise(s, i, GetUnalignedBe32(s, i)) == s
    ensures PutLe64Bytewise(s, i, GetUnalignedLe64(s, i)) == s
  {
    assert s == s[..i] + s[i..i + 2] + s[i + 2..];
    assert s == s[..i] + s[i..i + 4] + s[i + 4..];
    assert s == s[..i] + s[i..i + 8] + s[i + 8..];
  }

  // ---------------------------------------------------------------------
  // Bit scans. The portable fallbacks shift the value right one bit per
  // iteration; on unsigned integers `v >>= 1` is halving, so the scans are
  // modelled on natural numbers below 2^32 or 2^64.
  // ---------------------------------------------------------------------

  function Pow2(n: nat): (r: nat)
    ensures r >= 1
  {
    if n == 0 then 1 else 2 * Pow2(n - 1)
  }

  /** v >> n on an unsigned integer. */
  function Shr(v: nat, n: nat): nat
  {
    if n == 0 then v else Shr(v / 2, n - 1)
  }

  /** Bits 0 .. n-1 of v are all zero. */
  predicate LowBitsClear(v: nat, n: nat)
  {
    n == 0 || (v % 2 == 0 && LowBitsClear(v / 2, n - 1))
  }

  lemma {:induction false} ShrStep(v: nat, n: nat)
    ensures Shr(v, n + 1) == Shr(v, n) / 2
  {
    if n > 0 {
      ShrStep(v / 2, n - 1);
    }
  }

  lemma {:induction false} LowBitsClearStep(v: nat, n: nat)
    requires LowBitsClear(v, n) && Shr(v, n) % 2 == 0
    ensures LowBitsClear(v, n + 1)
  {
    if n > 0 {
      LowBitsClearStep(v / 2, n - 1);
    }
  }

  /** A value below 2^n has no bit set at position n or above. */
  lemma {:induction false} ShrOfSmall(v: nat, n: nat, m: nat)
    requires v < Pow2(n) && n <= m
    ensures Shr(v, m) == 0
  {
    if m > 0 {
      ShrOfSmall(v / 2, if n > 0 then n - 1 else 0, m - 1);
    }
  }

  /** v >> n == 1 places v between 2^n and 2^(n+1). */
  lemma {:induction false} ShrOneBounds(v: nat, n: nat)
    requires Shr(v, n) == 1
    ensures Pow2(n) <= v < Pow2(n + 1)
  {
    if n > 0 {
      ShrOneBounds(v / 2, n - 1);
    }
  }

  /** The fallback loop of bsr32/bsr64: count how often v can be halved before it reaches zero. */
  method ScanReverse(v: nat, width: nat) returns (i: nat)
    requires 0 < v < Pow2(width)
    ensures i < width
    ensures Shr(v, i) == 1
    ensures Pow2(i) <= v < Pow2(i + 1)
  {
    i := 0;
    var w := v / 2;
    while w != 0
      invariant w == Shr(v, i + 1)
      invariant Shr(v, i) != 0
      decreases w
    {
      ShrStep(v, i + 1);
      i := i + 1;
      w := w / 2;
    }
    ShrStep(v, i);
    if width <= i {
      ShrOfSmall(v, width, i);
    }
    ShrOneBounds(v, i);
  }

  /** The fallback loop of bsf32/bsf64: count the trailing zero bits of v. */
  method ScanForward(v: nat, width: nat) returns (i: nat)
    requires 0 < v < Pow2(width)
    ensures i < width
    ensures LowBitsClear(v, i) && Shr(v, i) % 2 == 1
  {
    i := 0;
    var w := v;
    while w % 2 == 0
      invariant w == Shr(v, i) && w != 0
      invariant LowBitsClear(v, i)
      decreases w
    {
      LowBitsClearStep(v, i);
      ShrStep(v, i);
      i := i + 1;
      w := w / 2;
    }
    if width <= i {
      ShrOfSmall(v, width, i);
    }
  }

  /** bsr32(v): index of the most significant set bit; the input must be nonzero. */
  method Bsr32(v: nat) returns (i: nat)
    requires 0 < v < Pow2(32)
    ensures i < 32 && Shr(v, i) == 1
    ensures Pow2(i) <= v < Pow2(i + 1)
  {
    i := ScanReverse(v, 32);
  }

  method Bsr64(v: nat) returns (i: nat)
    requires 0 < v < Pow2(64)
    ensures i < 64 && Shr(v, i) == 1
    ensures Pow2(i) <= v < Pow2(i + 1)
  {
    i := ScanReverse(v, 64);
  }

  /** bsrw(v): bsr32 or bsr64 according to WORDBITS. */
  method Bsrw(v: nat, wordBits: nat) returns (i: nat)
    requires ValidWordBits(wordBits)
    requires 0 < v < Pow2(wordBits)
    ensures i < wordBits && Shr(v, i) == 1
    ensures Pow2(i) <= v < Pow2(i + 1)
  {
    if wordBits == 32 {
      i := Bsr32(v);
    } else {
      i := Bsr64(v);
    }
  }

  /** bsf32(v): index of the least significant set bit; the input must be nonzero. */
  method Bsf32(v: nat) returns (i: nat)
    requires 0 < v < Pow2(32)
    ensures i < 32 && LowBitsClear(v, i) && Shr(v, i) % 2 == 1
  {
    i := ScanForward(v, 32);
  }

  method Bsf64(v: nat) returns (i: nat)
    requires 0 < v < Pow2(64)
    ensures i < 64 && LowBitsClear(v, i) && Shr(v, i) % 2 == 1
  {
    i := ScanForward(v, 64);
  }

  /** bsfw(v): bsf32 or bsf64 according to WORDBITS. */
  method Bsfw(v: nat, wordBits: nat) returns (i: nat)
    requires ValidWordBits(wordBits)
    requires 0 < v < Pow2(wordBits)
    ensures i < wordBits && LowBitsClear(v, i) && Shr(v, i) % 2 == 1
  {
    if wordBits == 32 {
      i := Bsf32(v);
    } else {
      i := Bsf64(v);
    }
  }
}
