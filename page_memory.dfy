/**
 * The crash screen's memory viewer page (src/crash_screen/pages/page_memory.c).
 *
 * The page shows rows of 4 words x 4 bytes starting at a viewport address,
 * with one selected byte (the cursor). Input moves the cursor, opens the
 * address popup and steps the display mode; drawing fixes the number of
 * visible rows and renders every byte according to the display mode.
 *
 * Addresses are 32-bit unsigned (`Address` is a u32), so cursor arithmetic
 * wraps modulo 2^32 exactly as in C. The row step and the virtual RAM range
 * are build constants defined outside the page; they are constructor
 * parameters here. The collaborators the page calls but does not define
 * (reading a word, checking a RAM address, clamping the viewport, stepping a
 * setting) are function parameters.
 */
module PageMemory {
  import CommonDefs

  /** A u32 address, and the wrap-around of C's unsigned arithmetic on it. */
  type Address = x: int | 0 <= x < 0x1_0000_0000
  type Word = Address

  function Wrap(x: int): Address
  {
    x % 0x1_0000_0000
  }

  datatype Option<T> = None | Some(value: T)

  /** MemoryDisplayModes, in declaration order. */
  const ModeHex := 0
  const ModeAscii := 1
  const ModeBinary := 2
  const ModeRgba16 := 3
  const ModeRgba32 := 4

  /** MEMORY_NUM_SHOWN_ROWS. */
  const NumShownRowsMax := 20

  /** gHex: the sixteen hex digit glyphs. */
  const HexDigits: string := "0123456789ABCDEF"

  /** The buttons newly pressed on one frame. */
  datatype PageInput = PageInput(up: bool, down: bool, left: bool, right: bool, a: bool, b: bool)

  // ---------------------------------------------------------------------
  // Cursor movement
  // ---------------------------------------------------------------------

  /** Up: back one row, unless that would go below the start of RAM. */
  function ScrollUp(sel: Address, ramStart: Address, step: Address): (r: Address)
    ensures sel >= Wrap(ramStart + step) ==> r == Wrap(sel - step)
    ensures sel < Wrap(ramStart + step) ==> r == sel
  {
    if sel >= Wrap(ramStart + step) then Wrap(sel - step) else sel
  }

  /** Down: forward one row, unless that would go past the end of RAM. */
  function ScrollDown(sel: Address, ramEnd: Address, step: Address): (r: Address)
    ensures sel <= Wrap(ramEnd - step) ==> r == Wrap(sel + step)
    ensures sel > Wrap(ramEnd - step) ==> r == sel
  {
    if sel <= Wrap(ramEnd - step) then Wrap(sel + step) else sel
  }

  /** Left: back one byte unless the cursor is on the first byte of its 16-byte row. */
  function StepLeft(sel: Address): (r: Address)
    ensures r / 16 == sel / 16
    ensures sel % 16 != 0 ==> r == sel - 1
    ensures sel % 16 == 0 ==> r == sel
  {
    if Wrap(sel - 1) % 16 != 0xF then Wrap(sel - 1) else sel
  }

  /** Right: forward one byte unless the cursor is on the last byte of its 16-byte row. */
  function StepRight(sel: Address): (r: Address)
    ensures r / 16 == sel / 16
    ensures sel % 16 != 0xF ==> r == sel + 1
    ensures sel % 16 == 0xF ==> r == sel
  {
    if Wrap(sel + 1) % 16 != 0 then Wrap(sel + 1) else sel
  }

  /** The cursor after the four direction checks, in the order the page makes them. */
  function MoveCursor(sel: Address, input: PageInput, ramStart: Address, ramEnd: Address, step: Address): (r: Address)
    ensures !input.up && !input.down && !input.left && !input.right ==> r == sel
    ensures !input.up && !input.down ==> r / 16 == sel / 16
  {
    var s1 := if input.up then ScrollUp(sel, ramStart, step) else sel;
    var s2 := if input.down then ScrollDown(s1, ramEnd, step) else s1;
    var s3 := if input.left then StepLeft(s2) else s2;
    if input.right then StepRight(s3) else s3
  }

  /**
   * The RAM range the page is built with: it starts on a row boundary, ends
   * on the last byte of a row, the row step is a whole number of 16-byte
   * rows, and neither bound check wraps around.
   */
  predicate RamLayout(ramStart: Address, ramEnd: Address, step: Address)
  {
    ramStart % 16 == 0 && ramEnd % 16 == 0xF && ramStart <= ramEnd &&
    step != 0 && step % 16 == 0 && ramStart + step <= 0xFFFF_FFFF && step <= ramEnd
  }

  predicate InRam(sel: Address, ramStart: Address, ramEnd: Address)
  {
    ramStart <= sel <= ramEnd
  }

  lemma ScrollUpInRam(sel: Address, ramStart: Address, ramEnd: Address, step: Address)
    requires RamLayout(ramStart, ramEnd, step) && InRam(sel, ramStart, ramEnd)
    ensures InRam(ScrollUp(sel, ramStart, step), ramStart, ramEnd)
    ensures ScrollUp(sel, ramStart, step) % 16 == sel % 16
  {
  }

  lemma ScrollDownInRam(sel: Address, ramStart: Address, ramEnd: Address, step: Address)
    requires RamLayout(ramStart, ramEnd, step) && InRam(sel, ramStart, ramEnd)
    ensures InRam(ScrollDown(sel, ramEnd, step), ramStart, ramEnd)
    ensures ScrollDown(sel, ramEnd, step) % 16 == sel % 16
  {
  }

  lemma StepLeftInRam(sel: Address, ramStart: Address, ramEnd: Address, step: Address)
    requires RamLayout(ramStart, ramEnd, step) && InRam(sel, ramStart, ramEnd)
    ensures InRam(StepLeft(sel), ramStart, ramEnd)
  {
  }

  lemma StepRightInRam(sel: Address, ramStart: Address, ramEnd: Address, step: Address)
    requires RamLayout(ramStart, ramEnd, step) && InRam(sel, ramStart, ramEnd)
    ensures InRam(StepRight(sel), ramStart, ramEnd)
  {
  }

  /** Whatever is pressed, a cursor inside the RAM range stays inside it. */
  lemma MoveCursorStaysInRam(sel: Address, input: PageInput, ramStart: Address, ramEnd: Address, step: Address)
    requires RamLayout(ramStart, ramEnd, step) && InRam(sel, ramStart, ramEnd)
    ensures InRam(MoveCursor(sel, input, ramStart, ramEnd, step), ramStart, ramEnd)
  {
    ScrollUpInRam(sel, ramStart, ramEnd, step);
    var s1 := if input.up then ScrollUp(sel, ramStart, step) else sel;
    ScrollDownInRam(s1, ramStart, ramEnd, step);
    var s2 := if input.down then ScrollDown(s1, ramEnd, step) else s1;
    StepLeftInRam(s2, ramStart, ramEnd, step);
    var s3 := if input.left then StepLeft(s2) else s2;
    StepRightInRam(s3, ramStart, ramEnd, step);
  }

  /**
   * The A button's popup seed: the word stored at the cursor when it can be
   * read and is itself a RAM address, otherwise the cursor address.
   */
  function PopupSeed(sel: Address, tryReadWordAligned: Address -> Option<Word>, isValidRamAddr: Address -> bool): (seed: Address)
    ensures seed == sel || (tryReadWordAligned(sel).Some? && seed == tryReadWordAligned(sel).value)
    ensures seed != sel ==> isValidRamAddr(seed)
    ensures (tryReadWordAligned(sel).Some? && isValidRamAddr(tryReadWordAligned(sel).value)) ==>
      seed == tryReadWordAligned(sel).value
  {
    match tryReadWordAligned(sel)
    case Some(data) => if isValidRamAddr(data) then data else sel
    case None => sel
  }

  // ---------------------------------------------------------------------
  // Rendering rules of one byte
  // ---------------------------------------------------------------------

  /** The value of a hex digit glyph, or -1 for any other character. */
  function HexDigitValue(c: char): int
  {
    if '0' <= c <= '9' then c as int - '0' as int
    else if 'A' <= c <= 'F' then c as int - 'A' as int + 10
    else -1
  }

  lemma HexDigitInverts(n: int)
    requires 0 <= n < 16
    ensures HexDigitValue(HexDigits[n]) == n
  {
  }

  /** byte k (0 = first in memory) of a word read from the big-endian N64. */
  function WordByte(w: Word, k: int): (b: int)
    requires 0 <= k < 4
    ensures 0 <= b < 256
  {
    if k == 0 then w / 0x100_0000
    else if k == 1 then w / 0x1_0000 % 0x100
    else if k == 2 then w / 0x100 % 0x100
    else w % 0x100
  }

  /** The four bytes of a word, read first to last, spell the word most significant first. */
  lemma WordBytesRecompose(w: Word)
    ensures w == 0x100_0000 * WordByte(w, 0) + 0x1_0000 * WordByte(w, 1) + 0x100 * WordByte(w, 2) + WordByte(w, 3)
  {
  }

  /** halfword[i] (0 = first in memory) of a word: its bytes 2 i and 2 i + 1, most significant first. */
  function WordHalf(w: Word, i: int): (h: int)
    requires 0 <= i < 2
    ensures h == 256 * WordByte(w, 2 * i) + WordByte(w, 2 * i + 1)
  {
    if i == 0 then w / 0x1_0000 else w % 0x1_0000
  }

  /** Bit k (0 = least significant) of a byte. */
  predicate BitSet(b: int, k: nat)
    requires 0 <= b
  {
    CommonDefs.Shr(b, k) % 2 == 1
  }

  /** What is drawn for one byte. */
  datatype Glyph =
    | HexPair(high: char, low: char)       // two hex digits
    | Character(code: int)                 // the byte drawn as a font glyph
    | Bits(bits: seq<bool>)                // eight cells, most significant bit first
    | Rgba16Box(color16: int)              // the halfword holding the byte, as a colour
    | Rgba32Box(color32: Word)             // the whole word, as a colour
    | Unreadable                           // '*': the word could not be read
    | NothingDrawn                         // a display mode outside the enumeration

  /** The placeholder character drawn for each byte of an unreadable word. */
  const UnreadableChar := '*'

  /** The box behind a byte: the cursor's selection colour wins over the crash PC's. */
  datatype Highlight = NoHighlight | SelectHighlight | PcHighlight

  /**
   * The colour a byte's glyph is drawn in. Only the HEX and ASCII glyphs use
   * the text colour (DATA1 or DATA2, inverted on the selected byte); the '*'
   * placeholder is drawn in the out-of-bounds colour, and the other glyphs
   * carry their own colours (gray bits, the data itself as a colour).
   */
  datatype Ink = TextInk(data1: bool, inverted: bool) | OutOfBoundsInk | GlyphInk

  /** The ink of a glyph, given the byte's text colour. */
  function InkOf(glyph: Glyph, data1: bool, inverted: bool): Ink
  {
    if glyph.HexPair? || glyph.Character? then TextInk(data1, inverted)
    else if glyph.Unreadable? then OutOfBoundsInk
    else GlyphInk
  }

  datatype ByteCell = ByteCell(addr: Address, glyph: Glyph, highlight: Highlight, color: Ink)

  /** The BINARY mode cells of a byte: the drawing loop, bit 7 first. */
  method BinaryCells(b: int) returns (bits: seq<bool>)
    requires 0 <= b < 256
    ensures |bits| == 8
    ensures forall i :: 0 <= i < 8 ==> bits[i] == BitSet(b, 7 - i)
  {
    bits := [];
    var bit := 0;
    while bit < 8
      invariant 0 <= bit <= 8 && |bits| == bit
      invariant forall i :: 0 <= i < bit ==> bits[i] == BitSet(b, 7 - i)
    {
      bits := bits + [BitSet(b, 7 - bit)];
      bit := bit + 1;
    }
  }

  /** The value of a sequence of bits read most significant first. */
  function BitsValue(bits: seq<bool>): nat
  {
    if |bits| == 0 then 0 else 2 * BitsValue(bits[..|bits| - 1]) + (if bits[|bits| - 1] then 1 else 0)
  }

  /** The eight BINARY cells of a byte spell the byte in base 2. */
  lemma BinaryCellsRecompose(b: int, bits: seq<bool>)
    requires 0 <= b < 256
    requires |bits| == 8 && forall i :: 0 <= i < 8 ==> bits[i] == BitSet(b, 7 - i)
    ensures BitsValue(bits) == b
  {
    TopBitsValue(b, bits, 8);
    assert bits[..8] == bits;
  }

  /** The first k cells spell the byte shifted right by 8 - k. */
  lemma {:induction false} TopBitsValue(b: int, bits: seq<bool>, k: nat)
    requires 0 <= b < 256
    requires |bits| == 8 && forall i :: 0 <= i < 8 ==> bits[i] == BitSet(b, 7 - i)
    requires k <= 8
    ensures BitsValue(bits[..k]) == CommonDefs.Shr(b, 8 - k)
  {
    if k == 0 {
      assert CommonDefs.Pow2(8) == 256;
      CommonDefs.ShrOfSmall(b, 8, 8);
    } else {
      TopBitsValue(b, bits, k - 1);
      assert bits[..k][..k - 1] == bits[..k - 1];
      CommonDefs.ShrStep(b, 8 - k);
    }
  }

  /** The two HEX glyphs of a byte: gHex[b >> 4], then gHex[b & 0xF]. */
  function HexGlyph(b: int): Glyph
    requires 0 <= b < 256
  {
    HexPair(HexDigits[b / 16], HexDigits[b % 16])
  }

  /** The two hex digits read back as a number give the byte. */
  lemma HexGlyphRecompose(b: int)
    requires 0 <= b < 256
    ensures HexDigitValue(HexGlyph(b).high) * 16 + HexDigitValue(HexGlyph(b).low) == b
  {
    HexDigitInverts(b / 16);
    HexDigitInverts(b % 16);
  }

  /** The glyph of byte k of a readable word in a display mode. */
  function ReadableGlyph(mode: int, w: Word, k: int, bits: seq<bool>): Glyph
    requires 0 <= k < 4
  {
    var b := WordByte(w, k);
    if mode == ModeHex then HexGlyph(b)
    else if mode == ModeAscii then Character(b)
    else if mode == ModeBinary then Bits(bits)
    else if mode == ModeRgba16 then Rgba16Box(WordHalf(w, if k > 1 then 1 else 0))
    else if mode == ModeRgba32 then Rgba32Box(w)
    else NothingDrawn
  }

  /** The BINARY cells of byte k of a word. */
  function BinarySpec(w: Word, k: int): seq<bool>
    requires 0 <= k < 4
  {
    seq(8, i requires 0 <= i < 8 => BitSet(WordByte(w, k), 7 - i))
  }

  lemma WrapAdd(x: int, r: int)
    ensures Wrap(Wrap(x) + r) == Wrap(x + r)
  {
  }

  /** The address of visible row y. */
  function RowAddress(startAddr: Address, y: nat, step: Address): Address
  {
    Wrap(startAddr + y * step)
  }

  /** Byte j of a row is byte j mod 4 of the row's word j / 4. */
  lemma ByteOffsets(j: int)
    requires 0 <= j < 16
    ensures 4 * (j / 4) + j % 4 == j && 0 <= j % 4 < 4 && (j % 4) % 2 == j % 2
  {
  }

  /** Everything drawn for byte k of the word at address `aligned`, given what reading it gave. */
  function ByteCellOf(aligned: Address, data: Option<Word>, k: int, mode: int, sel: Address, epc: Address): (c: ByteCell)
    requires 0 <= k < 4
    ensures c.addr == Wrap(aligned + k)
    ensures c.highlight == SelectHighlight <==> c.addr == sel
    ensures c.highlight == PcHighlight <==> c.addr != sel && c.addr == epc
    ensures c.color.TextInk? <==> c.glyph.HexPair? || c.glyph.Character?
    ensures c.color.TextInk? ==> (c.color.inverted <==> c.addr == sel)
    ensures c.color.TextInk? ==> (c.color.data1 <==> mode == ModeAscii || k % 2 == 1)
    ensures c.color == OutOfBoundsInk <==> c.glyph == Unreadable
    ensures data.None? <==> c.glyph == Unreadable
    ensures data.Some? && mode == ModeHex ==> c.glyph.HexPair?
    ensures data.Some? && mode == ModeAscii ==> c.glyph.Character?
  {
    var addr := Wrap(aligned + k);
    var highlight := if addr == sel then SelectHighlight else if addr == epc then PcHighlight else NoHighlight;
    var glyph := match data
      case Some(w) => ReadableGlyph(mode, w, k, BinarySpec(w, k))
      case None => Unreadable;
    ByteCell(addr, glyph, highlight, InkOf(glyph, mode == ModeAscii || k % 2 == 1, addr == sel))
  }

  /** Everything drawn for byte j (0..15) of row y: byte j mod 4 of the row's word j / 4. */
  function CellAt(startAddr: Address, y: nat, j: int, step: Address, mode: int, sel: Address, epc: Address,
                  tryReadWordAligned: Address -> Option<Word>): (c: ByteCell)
    requires 0 <= j < 16
    ensures c.addr == Wrap(RowAddress(startAddr, y, step) + j)
    ensures c.highlight == SelectHighlight <==> c.addr == sel
    ensures c.highlight == PcHighlight <==> c.addr != sel && c.addr == epc
    ensures c.color.TextInk? <==> c.glyph.HexPair? || c.glyph.Character?
    ensures c.color.TextInk? ==> (c.color.inverted <==> c.addr == sel)
    ensures c.color.TextInk? ==> (c.color.data1 <==> mode == ModeAscii || j % 2 == 1)
    ensures c.color == OutOfBoundsInk <==> c.glyph == Unreadable
    ensures tryReadWordAligned(Wrap(RowAddress(startAddr, y, step) + 4 * (j / 4))).None? <==> c.glyph == Unreadable
  {
    var row := RowAddress(startAddr, y, step);
    ByteOffsets(j);
    WrapAdd(row + 4 * (j / 4), j % 4);
    var aligned := Wrap(row + 4 * (j / 4));
    ByteCellOf(aligned, tryReadWordAligned(aligned), j % 4, mode, sel, epc)
  }

  /** Cell 4 w + b of a row is byte b of the row's word w. */
  lemma CellAtWord(startAddr: Address, y: nat, w: int, b: int, step: Address, mode: int, sel: Address, epc: Address,
                   tryReadWordAligned: Address -> Option<Word>)
    requires 0 <= w < 4 && 0 <= b < 4
    ensures var aligned := Wrap(RowAddress(startAddr, y, step) + w * 4);
      CellAt(startAddr, y, 4 * w + b, step, mode, sel, epc, tryReadWordAligned) ==
      ByteCellOf(aligned, tryReadWordAligned(aligned), b, mode, sel, epc)
  {
    var j := 4 * w + b;
    assert j / 4 == w && j % 4 == b;
  }

  // ---------------------------------------------------------------------
  // The page
  // ---------------------------------------------------------------------

  class MemoryPage {
    /** gSelectedAddress: the cursor. */
    var selectedAddress: Address
    /** sRamViewViewportIndex: the address of the first visible row. */
    var viewportIndex: Address
    /** sRamViewNumShownRows. */
    var numShownRows: nat
    /** The display-mode setting of the page. */
    var displayMode: int

    /** PAGE_MEMORY_STEP, VIRTUAL_RAM_START, VIRTUAL_RAM_END. */
    const step: Address
    const ramStart: Address
    const ramEnd: Address

    constructor(step: Address, ramStart: Address, ramEnd: Address, selectedAddress: Address)
      ensures this.step == step && this.ramStart == ramStart && this.ramEnd == ramEnd
      ensures this.selectedAddress == selectedAddress && viewportIndex == 0
      ensures numShownRows == NumShownRowsMax && displayMode == ModeHex
    {
      this.step := step;
      this.ramStart := ramStart;
      this.ramEnd := ramEnd;
      this.selectedAddress := selectedAddress;
      viewportIndex := 0;
      numShownRows := NumShownRowsMax;
      displayMode := ModeHex;
    }

    /** page_memory_init: the viewport starts at the cursor. */
    method Init()
      modifies this
      ensures viewportIndex == selectedAddress == old(selectedAddress)
      ensures numShownRows == old(numShownRows) && displayMode == old(displayMode)
    {
      viewportIndex := selectedAddress;
    }

    /**
     * page_memory_input. Returns the address the popup was opened with, if A
     * was pressed; `incSetting` is cs_inc_setting on the display mode and
     * `clampView` is cs_clamp_view_to_selection.
     */
    method Input(input: PageInput,
                 tryReadWordAligned: Address -> Option<Word>,
                 isValidRamAddr: Address -> bool,
                 incSetting: (int, int) -> int,
                 clampView: (Address, Address, nat, Address) -> Address)
      returns (popupSeed: Option<Address>)
      modifies this
      ensures selectedAddress == MoveCursor(old(selectedAddress), input, ramStart, ramEnd, step)
      ensures popupSeed == if input.a then Some(PopupSeed(selectedAddress, tryReadWordAligned, isValidRamAddr)) else None
      ensures displayMode == if input.b then incSetting(old(displayMode), 1) else old(displayMode)
      ensures viewportIndex == clampView(old(viewportIndex), selectedAddress, numShownRows, step)
      ensures numShownRows == old(numShownRows)
    {
      if input.up {
        ScrollUpCursor();
      }
      if input.down {
        ScrollDownCursor();
      }
      if input.left {
        StepLeftCursor();
      }
      if input.right {
        StepRightCursor();
      }
      popupSeed := None;
      if input.a {
        var data := tryReadWordAligned(selectedAddress);
        if data.Some? && isValidRamAddr(data.value) {
          popupSeed := Some(data.value);
        } else {
          popupSeed := Some(selectedAddress);
        }
      }
      if input.b {
        displayMode := incSetting(displayMode, 1);
      }
      viewportIndex := clampView(viewportIndex, selectedAddress, numShownRows, step);
    }

    /** The up-button branch of page_memory_input. */
    method ScrollUpCursor()
      modifies this
      ensures selectedAddress == ScrollUp(old(selectedAddress), ramStart, step)
      ensures viewportIndex == old(viewportIndex) && numShownRows == old(numShownRows) && displayMode == old(displayMode)
    {
      if selectedAddress >= Wrap(ramStart + step) {
        selectedAddress := Wrap(selectedAddress - step);
      }
    }

    /** The down-button branch of page_memory_input. */
    method ScrollDownCursor()
      modifies this
      ensures selectedAddress == ScrollDown(old(selectedAddress), ramEnd, step)
      ensures viewportIndex == old(viewportIndex) && numShownRows == old(numShownRows) && displayMode == old(displayMode)
    {
      if selectedAddress <= Wrap(ramEnd - step) {
        selectedAddress := Wrap(selectedAddress + step);
      }
    }

    /** The left-button branch of page_memory_input. */
    method StepLeftCursor()
      modifies this
      ensures selectedAddress == StepLeft(old(selectedAddress))
      ensures viewportIndex == old(viewportIndex) && numShownRows == old(numShownRows) && displayMode == old(displayMode)
    {
      if Wrap(selectedAddress - 1) % 16 != 0xF {
        selectedAddress := Wrap(selectedAddress - 1);
      }
    }

    /** The right-button branch of page_memory_input. */
    method StepRightCursor()
      modifies this
      ensures selectedAddress == StepRight(old(selectedAddress))
      ensures viewportIndex == old(viewportIndex) && numShownRows == old(numShownRows) && displayMode == old(displayMode)
    {
      if Wrap(selectedAddress + 1) % 16 != 0 {
        selectedAddress := Wrap(selectedAddress + 1);
      }
    }

    /** ram_viewer_print_data: every byte of every visible row, row by row, word by word. */
    method PrintData(startAddr: Address, epc: Address, tryReadWordAligned: Address -> Option<Word>)
      returns (rows: seq<seq<ByteCell>>)
      ensures |rows| == numShownRows
      ensures forall y :: 0 <= y < |rows| ==> |rows[y]| == 16
      ensures forall y, j :: 0 <= y < |rows| && 0 <= j < 16 ==>
        rows[y][j] == CellAt(startAddr, y, j, step, displayMode, selectedAddress, epc, tryReadWordAligned)
    {
      rows := [];
      var y := 0;
      while y < numShownRows
        invariant 0 <= y <= numShownRows && |rows| == y
        invariant forall i :: 0 <= i < y ==> |rows[i]| == 16
        invariant forall i, j :: 0 <= i < y && 0 <= j < 16 ==>
          rows[i][j] == CellAt(startAddr, i, j, step, displayMode, selectedAddress, epc, tryReadWordAligned)
      {
        var row := PrintRow(startAddr, y, epc, tryReadWordAligned);
        rows := rows + [row];
        y := y + 1;
      }
    }

    /** One row of ram_viewer_print_data: four words of four bytes each. */
    method PrintRow(startAddr: Address, y: nat, epc: Address, tryReadWordAligned: Address -> Option<Word>)
      returns (row: seq<ByteCell>)
      ensures |row| == 16
      ensures forall j :: 0 <= j < 16 ==>
        row[j] == CellAt(startAddr, y, j, step, displayMode, selectedAddress, epc, tryReadWordAligned)
    {
      var rowAddr := RowAddress(startAddr, y, step);
      row := [];
      var wordOffset: int := 0;
      while wordOffset < 4
        invariant 0 <= wordOffset <= 4 && |row| == 4 * wordOffset
        invariant forall j :: 0 <= j < |row| ==>
          row[j] == CellAt(startAddr, y, j, step, displayMode, selectedAddress, epc, tryReadWordAligned)
      {
        var currAddrAligned := Wrap(rowAddr + wordOffset * 4);
        var data := tryReadWordAligned(currAddrAligned);
        var byteOffset: int := 0;
        while byteOffset < 4
          invariant 0 <= byteOffset <= 4 && |row| == 4 * wordOffset + byteOffset
          invariant forall j :: 0 <= j < |row| ==>
            row[j] == CellAt(startAddr, y, j, step, displayMode, selectedAddress, epc, tryReadWordAligned)
        {
          var cell := PrintByte(currAddrAligned, data, byteOffset, epc);
          assert cell == CellAt(startAddr, y, 4 * wordOffset + byteOffset, step, displayMode, selectedAddress, epc, tryReadWordAligned) by {
            CellAtWord(startAddr, y, wordOffset, byteOffset, step, displayMode, selectedAddress, epc, tryReadWordAligned);
          }
          row := row + [cell];
          byteOffset := byteOffset + 1;
        }
        wordOffset := wordOffset + 1;
      }
    }

    /** The body of the byte loop of ram_viewer_print_data: byte k of the word at `aligned`. */
    method PrintByte(aligned: Address, data: Option<Word>, k: int, epc: Address) returns (cell: ByteCell)
      requires 0 <= k < 4
      ensures cell == ByteCellOf(aligned, data, k, displayMode, selectedAddress, epc)
    {
      var mode := displayMode;
      var currAddr := Wrap(aligned + k);
      var textColor := TextInk(mode == ModeAscii || k % 2 == 1, false);
      var highlight := NoHighlight;
      if currAddr == selectedAddress {
        highlight := SelectHighlight;
        textColor := textColor.(inverted := true);
      } else if currAddr == epc {
        highlight := PcHighlight;
      }
      var glyph := Unreadable;
      var ink := OutOfBoundsInk;
      if data.Some? {
        ink := GlyphInk;
        var b := WordByte(data.value, k);
        if mode == ModeHex {
          glyph := HexPair(HexDigits[b / 16], HexDigits[b % 16]);
          ink := textColor;
        } else if mode == ModeAscii {
          glyph := Character(b);
          ink := textColor;
        } else if mode == ModeBinary {
          var bits := BinaryCells(b);
          assert bits == BinarySpec(data.value, k);
          glyph := Bits(bits);
        } else if mode == ModeRgba16 {
          glyph := Rgba16Box(WordHalf(data.value, if k > 1 then 1 else 0));
        } else if mode == ModeRgba32 {
          glyph := Rgba32Box(data.value);
        } else {
          glyph := NothingDrawn;
        }
      }
      cell := ByteCell(currAddr, glyph, highlight, ink);
    }

    /**
     * The arithmetic of page_memory_draw: the visible row count loses one row
     * for each header line shown, and the range printed in the header ends at
     * the address of the last visible row.
     */
    method Draw(showRange: bool, showSymbol: bool, epc: Address, tryReadWordAligned: Address -> Option<Word>)
      returns (startAddr: Address, endAddr: Address, rows: seq<seq<ByteCell>>)
      modifies this
      ensures numShownRows == VisibleRows(showRange, showSymbol) && 18 <= numShownRows
      ensures startAddr == viewportIndex == old(viewportIndex)
      ensures endAddr == RowAddress(startAddr, numShownRows - 1, step)
      ensures selectedAddress == old(selectedAddress) && displayMode == old(displayMode)
      ensures |rows| == numShownRows && forall y :: 0 <= y < |rows| ==> |rows[y]| == 16
      ensures rows[|rows| - 1][0].addr == endAddr
      ensures forall y, j :: 0 <= y < |rows| && 0 <= j < 16 ==>
        |rows[y]| == 16 && rows[y][j] == CellAt(startAddr, y, j, step, displayMode, selectedAddress, epc, tryReadWordAligned)
    {
      numShownRows := NumShownRowsMax;
      numShownRows := numShownRows - (if showRange then 1 else 0);
      numShownRows := numShownRows - (if showSymbol then 1 else 0);
      startAddr := viewportIndex;
      endAddr := Wrap(startAddr + (numShownRows - 1) * step);
      rows := PrintData(startAddr, epc, tryReadWordAligned);
      assert rows[|rows| - 1][0] == CellAt(startAddr, numShownRows - 1, 0, step, displayMode, selectedAddress, epc, tryReadWordAligned);
    }
  }

  /** MEMORY_NUM_SHOWN_ROWS minus one row per header line. */
  function VisibleRows(showRange: bool, showSymbol: bool): (n: nat)
    ensures 18 <= n <= NumShownRowsMax
    ensures n == NumShownRowsMax <==> !showRange && !showSymbol
  {
    NumShownRowsMax - (if showRange then 1 else 0) - (if showSymbol then 1 else 0)
  }
}
